/** Intent classification (`agent/intent_classifier.py`): the model's label is
    upper-cased and checked against `INTENT_CLASSES`, its confidence clamped to
    [0, 1]; when the model call or the parse fails, a keyword heuristic decides.
    The model call is a parameter: its parsed reply, or `None` on failure. */
module IntentClassification {
  import opened Types
  import opened Text
  import opened Config

  /** The dictionary `classify` returns: `{"intent": ..., "confidence": ...}`. */
  datatype Classification = Classification(intent: Intent, confidence: real)

  /** The model's parsed reply (`IntentOutput`). */
  datatype IntentReply = IntentReply(intentText: string, confidence: real)

  /** Some word of `words` occurs in `q` (`any(w in q for w in words)`). */
  predicate ContainsAny(q: string, words: seq<string>)
  {
    exists i :: 0 <= i < |words| && Contains(q, words[i])
  }

  const Greetings: seq<string> := ["hello", "hi", "hey", "thanks", "thank you"]
  const ClarifyWords: seq<string> := ["what", "how", "why", "explain", "tell me"]
  const RefineWords: seq<string> := ["also", "and", "but", "except", "not", "without"]

  /** The confidence the heuristic reports with each intent. */
  function HeuristicConfidence(i: Intent): real
  {
    match i
    case Chitchat => 0.7
    case Clarify => 0.6
    case Refine => 0.6
    case Search => 0.5
  }

  /** `_fallback_classify`: greetings first, then a clarifying word together with
      a question mark in the original query, then a refinement word when there
      is history; otherwise a search. Matching is by substring of the
      lower-cased query. */
  function FallbackClassify(query: string, history: seq<Turn>): (r: Classification)
    ensures r.confidence == HeuristicConfidence(r.intent)
  {
    var q := Lower(query);
    if ContainsAny(q, Greetings) then Classification(Chitchat, 0.7)
    else if ContainsAny(q, ClarifyWords) && Contains(query, "?") then Classification(Clarify, 0.6)
    else if ContainsAny(q, RefineWords) && history != [] then Classification(Refine, 0.6)
    else Classification(Search, 0.5)
  }

  /** The heuristic never answers REFINE for the first turn of a session. */
  lemma FallbackNeedsHistoryToRefine(query: string)
    ensures FallbackClassify(query, []).intent != Refine
  {
  }

  /** The heuristic's rules in priority order, each as an equivalence: a
      greeting gives CHITCHAT; otherwise a clarifying word with a question mark
      gives CLARIFY; otherwise a refinement word with history gives REFINE;
      otherwise SEARCH. */
  lemma FallbackPriorities(query: string, history: seq<Turn>)
    ensures var q := Lower(query);
            var intent := FallbackClassify(query, history).intent;
            var greeting := ContainsAny(q, Greetings);
            var question := ContainsAny(q, ClarifyWords) && Contains(query, "?");
            var refinement := ContainsAny(q, RefineWords) && history != [];
            && (intent == Chitchat <==> greeting)
            && (intent == Clarify <==> !greeting && question)
            && (intent == Refine <==> !greeting && !question && refinement)
            && (intent == Search <==> !greeting && !question && !refinement)
  {
  }

  /** "Hello, how are you?" is chitchat on the heuristic path, although it is
      also a question with a clarifying word. */
  lemma HelloIsChitchat(history: seq<Turn>)
    ensures FallbackClassify("Hello, how are you?", history) == Classification(Chitchat, 0.7)
  {
    var q := Lower("Hello, how are you?");
    assert q[0..5] == "hello";
    ContainsSlice(q, 0, 5);
    assert Contains(q, Greetings[0]);
  }

  /** Matching is by substring, so "hi" inside "something" makes a plain
      product search chitchat on the heuristic path. */
  lemma SubstringGreetingIsChitchat(history: seq<Turn>)
    ensures FallbackClassify("I want something cheap", history).intent == Chitchat
  {
    var q := Lower("I want something cheap");
    assert q[12..14] == "hi";
    ContainsSlice(q, 12, 14);
    assert Contains(q, Greetings[1]);
  }

  /** `parsed.intent.upper()` checked against `INTENT_CLASSES`. */
  function ParseIntent(text: string): (r: Option<Intent>)
    ensures r.Some? <==> Upper(text) in IntentClasses
    ensures r.Some? ==> IntentName(r.value) == Upper(text)
  {
    var u := Upper(text);
    if u == "SEARCH" then Some(Search)
    else if u == "REFINE" then Some(Refine)
    else if u == "CLARIFY" then Some(Clarify)
    else if u == "CHITCHAT" then Some(Chitchat)
    else None
  }

  /** Every label in `INTENT_CLASSES` names an intent, whatever its letter case. */
  lemma ParseIntentIgnoresCase(i: Intent)
    ensures ParseIntent(IntentName(i)) == Some(i)
    ensures ParseIntent(Lower(IntentName(i))) == Some(i)
  {
    var n := IntentName(i);
    assert Upper(n) == n;
    assert Upper(Lower(n)) == n;
  }

  /** `max(0.0, min(1.0, x))`. */
  function Clamp(x: real): (r: real)
    ensures 0.0 <= r <= 1.0
    ensures 0.0 <= x <= 1.0 ==> r == x
    ensures x < 0.0 ==> r == 0.0
    ensures x > 1.0 ==> r == 1.0
  {
    var m := if 1.0 <= x then 1.0 else x;
    if 0.0 >= m then 0.0 else m
  }

  /** `classify`: on the model path, an unknown label becomes SEARCH and the
      confidence is clamped; when the call or the parse fails, the heuristic. */
  function Classify(query: string, history: seq<Turn>, reply: Option<IntentReply>): (r: Classification)
    ensures 0.0 <= r.confidence <= 1.0
    ensures reply.Some? ==> r.confidence == Clamp(reply.value.confidence)
    ensures reply.Some? ==> IntentName(r.intent) == Upper(reply.value.intentText)
                            || (Upper(reply.value.intentText) !in IntentClasses && r.intent == Search)
    ensures reply.None? ==> r == FallbackClassify(query, history)
  {
    match reply
    case Some(p) =>
      var intent := match ParseIntent(p.intentText) case Some(i) => i case None => Search;
      Classification(intent, Clamp(p.confidence))
    case None => FallbackClassify(query, history)
  }

  /** The block `"Turn {n}:\nUser: {user}\nAgent: {agent}"` of turn `t`. */
  function Block(n: nat, t: Turn): string
    requires n < 10
  {
    "Turn " + Digit(n) + ":\nUser: " + t.user + "\nAgent: " + t.agent
  }

  /** The blocks of `turns`, numbered from `start`. */
  function TurnBlocks(turns: seq<Turn>, start: nat): (blocks: seq<string>)
    requires 1 <= start && start + |turns| <= 10
    ensures |blocks| == |turns|
    ensures forall i :: 0 <= i < |turns| ==> blocks[i] == Block(start + i, turns[i])
  {
    if turns == [] then []
    else [Block(start, turns[0])] + TurnBlocks(turns[1..], start + 1)
  }

  /** `_format_history`: a placeholder for an empty history, otherwise one block
      per turn for at most the last three turns, separated by blank lines. */
  function FormatHistory(history: seq<Turn>): (r: string)
    ensures history == [] ==> r == "No previous conversation."
    ensures history != [] ==> StartsWith(r, Block(1, LastN(history, 3)[0]))
  {
    if history == [] then "No previous conversation."
    else
      var blocks := TurnBlocks(LastN(history, 3), 1);
      JoinStartsWithFirst("\n\n", blocks);
      Join("\n\n", blocks)
  }

  /** The blocks are those of the last (at most three) turns, in order,
      numbered from 1. */
  lemma HistoryBlocksRecoverTurns(history: seq<Turn>)
    requires history != []
    ensures var blocks := TurnBlocks(LastN(history, 3), 1);
            && |blocks| == (if |history| < 3 then |history| else 3)
            && forall i :: 0 <= i < |blocks| ==> blocks[i] == Block(1 + i, history[|history| - |blocks| + i])
  {
    var recent := LastN(history, 3);
    var blocks := TurnBlocks(recent, 1);
    forall i | 0 <= i < |blocks|
      ensures blocks[i] == Block(1 + i, history[|history| - |blocks| + i])
    {
      assert recent[i] == history[|history| - |recent| + i];
    }
  }

  /** A block's user text starts right after its 14-character header. */
  lemma BlockUserText(n: nat, t: Turn)
    requires n < 10
    ensures var b := Block(n, t);
            |b| >= 14 + |t.user| && b[14..14 + |t.user|] == t.user
  {
    var header := "Turn " + Digit(n) + ":\nUser: ";
    assert |header| == 14;
    var b := header + t.user + "\nAgent: " + t.agent;
    assert b == header + (t.user + "\nAgent: " + t.agent);
    assert b[14..14 + |t.user|] == (t.user + "\nAgent: " + t.agent)[..|t.user|];
  }
}
