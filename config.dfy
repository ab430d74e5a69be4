/** The constants of `config.py` that the agent's logic reads. */
module Config {

  /** `INTENT_CLASSES`, in the order `config.py` lists them. */
  datatype Intent = Search | Refine | Clarify | Chitchat

  /** The label each intent has in `INTENT_CLASSES`. */
  function IntentName(i: Intent): string
  {
    match i
    case Search => "SEARCH"
    case Refine => "REFINE"
    case Clarify => "CLARIFY"
    case Chitchat => "CHITCHAT"
  }

  const IntentClasses: seq<string> := ["SEARCH", "REFINE", "CLARIFY", "CHITCHAT"]

  /** One entry of `VAGUE_TERMS`: a term and the single filter field it fills. */
  datatype VagueMapping = VagueMapping(term: string, field: string, value: real)

  /** `VAGUE_TERMS`, in dictionary order. */
  const VagueTerms: seq<VagueMapping> := [
    VagueMapping("cheap", "price_max", 50.0),
    VagueMapping("affordable", "price_max", 100.0),
    VagueMapping("expensive", "price_min", 500.0),
    VagueMapping("premium", "price_min", 300.0),
    VagueMapping("budget", "price_max", 75.0),
    VagueMapping("high-end", "price_min", 400.0),
    VagueMapping("top-rated", "rating_min", 4.5),
    VagueMapping("best", "rating_min", 4.0)
  ]

  const MaxConversationHistory: nat := 10
  const MaxRecommendations: nat := 5
}
