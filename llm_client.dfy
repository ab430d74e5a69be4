/** The recommendation client (`agent/llm_client.py`): extracting the JSON text
    from the model's reply, validating the parsed reply against the catalogue,
    the canned fallback response, and the bounded retry loop. The model call
    and `json.loads` are parameters: the model's reply for a prompt and an
    attempt number (`None` when the call raises), and the parse of a JSON text
    into the typed view below (`None` when it raises). */
module LlmClient {
  import opened Types
  import opened Text
  import Config

  /** The catalogue: each valid product id and the product's `"name"` entry
      (`None` when the product record has no name). */
  type Catalog = map<string, Option<string>>

  /** A `product_id` value: a string (a missing key reads as `""`), an
      unhashable JSON value (list or object: `in` on a set raises `TypeError`),
      or another hashable value, never equal to a catalogue id. */
  datatype RawId = IdText(text: string) | IdUnhashable | IdOther

  /** One entry of `"recommendations"`. A missing, `null` or empty name or
      reasoning reads as `""`. */
  datatype RawRec = NotADict | Rec(productId: RawId, productName: string, reasoning: string)

  /** The `"recommendations"` value: a list (a missing key reads as `[]`) or anything else. */
  datatype RecsField = RecsList(items: seq<RawRec>) | RecsOther

  /** One follow-up question: a falsy JSON value, or a truthy one and its `str`. */
  datatype FollowItem = Falsy | Truthy(text: string)

  /** The `"follow_up_questions"` value: a list (a missing key reads as `[]`) or anything else. */
  datatype FollowField = FollowList(items: seq<FollowItem>) | FollowOther

  /** What `json.loads` returns: something other than an object (`.get` raises
      `AttributeError`), or an object. */
  datatype RawReply =
    | NotAnObject
    | Object(recs: RecsField, summary: Option<string>, followUps: FollowField)

  /** The dictionary `_validate_response` and `_fallback_response` return. */
  datatype Validated = Validated(recs: seq<Recommendation>, summary: string, followUps: seq<string>)

  /** Why one attempt raised. */
  datatype Failure = NoReply | InvalidJson | NotAnObjectError | UnhashableId | EmptyCatalog

  // ---------------------------------------------------------------------------
  // _extract_json

  /** `_extract_json`: the span from the first `{` to the last `}`, otherwise
      the stripped content. */
  function ExtractJson(content: string): (r: string)
    ensures HasBracePair(content) ==> exists lo, hi :: IsBraceSpan(content, lo, hi) && r == content[lo..hi + 1]
    ensures !HasBracePair(content) ==> r == Strip(content)
  {
    match BraceSpan(content)
    case Some(span) => span
    case None => Strip(content)
  }

  /** Extracting from extracted text changes nothing. */
  lemma ExtractJsonIdempotent(content: string)
    ensures ExtractJson(ExtractJson(content)) == ExtractJson(content)
  {
    var r := ExtractJson(content);
    if HasBracePair(content) {
      BraceSpanWhole(r);
    } else {
      var a := LeadingSpaces(content);
      NoBracePairInSlice(content, a, a + |r|);
      StripIdempotent(content);
    }
  }

  // ---------------------------------------------------------------------------
  // _validate_response

  const UnknownProduct: string := "Unknown Product"
  const DefaultReasoning: string := "Recommended based on your preferences"
  const DefaultSummary: string := "Product recommendations based on your query"
  const FallbackReasoning: string := "Fallback recommendation"

  /** The entry survives validation: a dictionary whose id is a catalogue id. */
  predicate Survives(rec: RawRec, catalog: Catalog)
  {
    rec.Rec? && rec.productId.IdText? && rec.productId.text in catalog
  }

  /** The name given to a surviving entry: its own, else the catalogue's, else
      `"Unknown Product"`. */
  function NameFor(given: string, id: string, catalog: Catalog): (r: string)
    requires id in catalog
    ensures r != ""
    ensures given != "" ==> r == given
  {
    var looked := if given != "" then given
                  else match catalog[id] case Some(n) => n case None => "";
    if looked != "" then looked else UnknownProduct
  }

  /** The recommendation built from a surviving entry. */
  function Converted(rec: RawRec, catalog: Catalog): (r: Recommendation)
    requires Survives(rec, catalog)
    ensures r.productId == rec.productId.text && r.productName != "" && r.reasoning != ""
  {
    Recommendation(rec.productId.text, NameFor(rec.productName, rec.productId.text, catalog),
                   if rec.reasoning != "" then rec.reasoning else DefaultReasoning)
  }

  /** Checking this entry's id against the catalogue raises. */
  predicate Raises(rec: RawRec)
  {
    rec.Rec? && rec.productId.IdUnhashable?
  }

  /** `x` is the conversion of the surviving entry `items[i]`. */
  predicate ConvertsTo(items: seq<RawRec>, i: int, catalog: Catalog, x: Recommendation)
  {
    0 <= i < |items| && Survives(items[i], catalog) && x == Converted(items[i], catalog)
  }

  /** `x` is the conversion of some surviving entry of `items`. */
  predicate ComesFrom(items: seq<RawRec>, catalog: Catalog, x: Recommendation)
  {
    exists i :: 0 <= i < |items| && ConvertsTo(items, i, catalog, x)
  }

  /** The recommendations built from `items`, in order: every entry that
      survives, converted; `None` when an entry's id raises. */
  function KeptRecs(items: seq<RawRec>, catalog: Catalog): (r: Option<seq<Recommendation>>)
    ensures r.None? <==> exists i :: 0 <= i < |items| && Raises(items[i])
    ensures r.Some? ==> |r.value| <= |items|
    ensures r.Some? ==> forall k :: 0 <= k < |r.value| ==>
              r.value[k].productId in catalog && r.value[k].productName != "" && r.value[k].reasoning != ""
    ensures r.Some? ==> forall i :: 0 <= i < |items| && Survives(items[i], catalog) ==>
              Converted(items[i], catalog) in r.value
    decreases |items|
  {
    if items == [] then Some([])
    else
      var init := items[..|items| - 1];
      var last := items[|items| - 1];
      assert forall i :: 0 <= i < |init| ==> init[i] == items[i];
      match KeptRecs(init, catalog)
      case None => None
      case Some(kept) =>
        if Raises(last) then None
        else if Survives(last, catalog) then
          assert ConvertsTo(items, |items| - 1, catalog, Converted(last, catalog));
          Some(kept + [Converted(last, catalog)])
        else Some(kept)
  }

  /** One more entry at the end: what the validation loop does with it. */
  lemma KeptRecsSnoc(items: seq<RawRec>, x: RawRec, catalog: Catalog)
    ensures KeptRecs(items + [x], catalog) ==
      match KeptRecs(items, catalog)
      case None => None
      case Some(kept) =>
        if Raises(x) then None
        else if Survives(x, catalog) then Some(kept + [Converted(x, catalog)])
        else Some(kept)
  {
    assert (items + [x])[..|items + [x]| - 1] == items;
  }

  /** Every kept recommendation is the conversion of a surviving entry: nothing
      is invented. */
  lemma {:induction false} KeptRecsProvenance(items: seq<RawRec>, catalog: Catalog)
    requires KeptRecs(items, catalog).Some?
    ensures var kept := KeptRecs(items, catalog).value;
            forall k :: 0 <= k < |kept| ==> ComesFrom(items, catalog, kept[k])
    decreases |items|
  {
    if items != [] {
      var init := items[..|items| - 1];
      var last := items[|items| - 1];
      assert items == init + [last];
      KeptRecsSnoc(init, last, catalog);
      KeptRecsProvenance(init, catalog);
      var before := KeptRecs(init, catalog).value;
      var kept := KeptRecs(items, catalog).value;
      forall k | 0 <= k < |kept|
        ensures ComesFrom(items, catalog, kept[k])
      {
        if k < |before| {
          var i :| 0 <= i < |init| && ConvertsTo(init, i, catalog, before[k]);
          assert kept[k] == before[k] && items[i] == init[i];
          assert ConvertsTo(items, i, catalog, kept[k]);
        } else {
          assert ConvertsTo(items, |items| - 1, catalog, kept[k]);
        }
      }
    }
  }

  /** With an empty catalogue no entry survives. */
  lemma {:induction false} KeptRecsEmptyCatalog(items: seq<RawRec>)
    ensures KeptRecs(items, map[]) == None || KeptRecs(items, map[]) == Some([])
    decreases |items|
  {
    if items != [] {
      KeptRecsEmptyCatalog(items[..|items| - 1]);
    }
  }

  /** The entries `_validate_response` looks at: the first five of a list. */
  function Considered(f: RecsField): (r: seq<RawRec>)
    ensures |r| <= Config.MaxRecommendations
  {
    match f
    case RecsList(items) => Prefix(items, Config.MaxRecommendations)
    case RecsOther => []
  }

  /** The follow-up questions kept from `items`: each truthy one, stripped,
      unless stripping leaves nothing. */
  function CleanQuestions(items: seq<FollowItem>): (r: seq<string>)
    ensures |r| <= |items|
    ensures forall k :: 0 <= k < |r| ==> r[k] != "" && Strip(r[k]) == r[k]
    ensures forall i :: 0 <= i < |items| && items[i].Truthy? && Strip(items[i].text) != "" ==>
              Strip(items[i].text) in r
  {
    if items == [] then []
    else
      var rest := CleanQuestions(items[1..]);
      assert forall i :: 1 <= i < |items| ==> items[i] == items[1..][i - 1];
      if items[0].Truthy? && Strip(items[0].text) != "" then
        StripIdempotent(items[0].text);
        [Strip(items[0].text)] + rest
      else rest
  }

  /** `follow_up_questions`: the cleaned first three entries of a list, `[]` otherwise. */
  function FollowUpsOf(f: FollowField): (r: seq<string>)
    ensures |r| <= 3
    ensures forall k :: 0 <= k < |r| ==> r[k] != "" && Strip(r[k]) == r[k]
  {
    match f
    case FollowList(items) => CleanQuestions(Prefix(items, 3))
    case FollowOther => []
  }

  /** `parsed.get("summary", ...)`. */
  function SummaryOf(s: Option<string>): string
  {
    match s
    case Some(t) => t
    case None => DefaultSummary
  }

  /** The one-entry list naming catalogue product `id`, with `reasoning`. */
  function FallbackRecs(id: string, catalog: Catalog, reasoning: string): (r: seq<Recommendation>)
    requires id in catalog
    ensures |r| == 1 && r[0].productId in catalog && r[0].reasoning == reasoning
  {
    [Recommendation(id, match catalog[id] case Some(n) => n case None => UnknownProduct, reasoning)]
  }

  /** Why `_validate_response(parsed)` raises, if it does. */
  function ValidationFailure(parsed: RawReply, catalog: Catalog): (r: Option<Failure>)
    ensures r.None? ==> parsed.Object? && KeptRecs(Considered(parsed.recs), catalog).Some?
    ensures r == Some(EmptyCatalog) ==> catalog == map[]
  {
    if parsed.NotAnObject? then Some(NotAnObjectError)
    else match KeptRecs(Considered(parsed.recs), catalog)
      case None => Some(UnhashableId)
      case Some(kept) => if kept == [] && catalog == map[] then Some(EmptyCatalog) else None
  }

  /** `recs` is the kept list when it is not empty, otherwise the fallback
      entry for some catalogue product. */
  predicate RecsFrom(kept: seq<Recommendation>, catalog: Catalog, recs: seq<Recommendation>)
    ensures RecsFrom(kept, catalog, recs) ==> recs != []
    ensures kept == [] && catalog == map[] ==> !RecsFrom(kept, catalog, recs)
  {
    if kept != [] then recs == kept
    else exists id :: id in catalog && recs == FallbackRecs(id, catalog, FallbackReasoning)
  }

  /** `v` is a possible result of `_validate_response(parsed)`: the surviving
      entries, or when none survives one fallback entry for some catalogue
      product; the summary or its default; the cleaned follow-up questions. */
  predicate IsValidationOf(parsed: RawReply, catalog: Catalog, v: Validated)
  {
    && ValidationFailure(parsed, catalog).None?
    && parsed.Object?
    && KeptRecs(Considered(parsed.recs), catalog).Some?
    && RecsFrom(KeptRecs(Considered(parsed.recs), catalog).value, catalog, v.recs)
    && v.summary == SummaryOf(parsed.summary)
    && v.followUps == FollowUpsOf(parsed.followUps)
  }

  /** What every validated reply satisfies: one to five recommendations, each
      naming a catalogue product; at most three stripped, non-empty questions. */
  lemma ValidationBounds(parsed: RawReply, catalog: Catalog, v: Validated)
    requires IsValidationOf(parsed, catalog, v)
    ensures 1 <= |v.recs| <= Config.MaxRecommendations
    ensures forall k :: 0 <= k < |v.recs| ==> v.recs[k].productId in catalog
    ensures |v.followUps| <= 3
    ensures forall k :: 0 <= k < |v.followUps| ==> v.followUps[k] != "" && Strip(v.followUps[k]) == v.followUps[k]
  {
  }

  /** With an empty catalogue, no reply validates: no entry can survive, and
      the fallback entry cannot be chosen. */
  lemma EmptyCatalogNeverValidates(parsed: RawReply)
    ensures ValidationFailure(parsed, map[]).Some?
  {
    if parsed.Object? {
      KeptRecsEmptyCatalog(Considered(parsed.recs));
    }
  }

  /** An entry that raises in a prefix makes the whole list raise. */
  lemma KeptRecsPrefixRaises(items: seq<RawRec>, n: nat, catalog: Catalog)
    requires n <= |items| && KeptRecs(items[..n], catalog).None?
    ensures KeptRecs(items, catalog).None?
  {
    var i :| 0 <= i < n && Raises(items[..n][i]);
    assert Raises(items[i]);
  }

  /** `_validate_response`: walk the first five entries, keeping those whose id
      is in the catalogue, then fall back to a catalogue product if none is kept. */
  method ValidateResponse(parsed: RawReply, catalog: Catalog) returns (r: Result<Validated, Failure>)
    ensures r.Err? <==> ValidationFailure(parsed, catalog).Some?
    ensures r.Err? ==> r.error == ValidationFailure(parsed, catalog).value
    ensures r.Ok? ==> IsValidationOf(parsed, catalog, r.value)
  {
    if parsed.NotAnObject? {
      return Err(NotAnObjectError);
    }
    var recs := Considered(parsed.recs);
    var recommendations: seq<Recommendation> := [];
    var i := 0;
    while i < |recs|
      invariant 0 <= i <= |recs|
      invariant KeptRecs(recs[..i], catalog) == Some(recommendations)
    {
      var rec := recs[i];
      assert recs[..i + 1] == recs[..i] + [rec];
      KeptRecsSnoc(recs[..i], rec, catalog);
      if rec.Rec? {
        if rec.productId.IdUnhashable? {
          KeptRecsPrefixRaises(recs, i + 1, catalog);
          return Err(UnhashableId);
        }
        if rec.productId.IdText? && rec.productId.text in catalog {
          var id := rec.productId.text;
          var name := rec.productName;
          if name == "" {
            name := match catalog[id] case Some(n) => n case None => "";
          }
          recommendations := recommendations + [Recommendation(
            id, if name != "" then name else UnknownProduct,
            if rec.reasoning != "" then rec.reasoning else DefaultReasoning)];
        }
      }
      i := i + 1;
    }
    assert recs[..i] == recs;
    if recommendations == [] {
      if catalog == map[] {
        return Err(EmptyCatalog);
      }
      var firstId :| firstId in catalog;
      recommendations := FallbackRecs(firstId, catalog, FallbackReasoning);
    }
    r := Ok(Validated(recommendations, SummaryOf(parsed.summary), FollowUpsOf(parsed.followUps)));
  }

  // ---------------------------------------------------------------------------
  // _fallback_response

  const FallbackQuestions: seq<string> := [
    "Would you like to see more options?",
    "Do you have a specific budget in mind?",
    "Are there any particular features you're looking for?"
  ]

  /** `v` is a possible result of `_fallback_response()`: one recommendation of
      some catalogue product, the apology summary and three fixed questions. */
  predicate IsFallbackResponse(catalog: Catalog, v: Validated)
  {
    && (exists id :: id in catalog
          && v.recs == FallbackRecs(id, catalog, "Fallback recommendation due to processing error"))
    && v.summary == "Unable to process request fully. Here's a general recommendation."
    && v.followUps == FallbackQuestions
  }

  /** `_fallback_response`: raises `IndexError` on an empty catalogue. */
  method FallbackResponse(catalog: Catalog) returns (r: Result<Validated, Failure>)
    ensures r.Err? <==> catalog == map[]
    ensures r.Err? ==> r.error == EmptyCatalog
    ensures r.Ok? ==> IsFallbackResponse(catalog, r.value)
    ensures r.Ok? ==> |r.value.recs| == 1 && |r.value.followUps| == 3
  {
    if catalog == map[] {
      return Err(EmptyCatalog);
    }
    var firstId :| firstId in catalog;
    r := Ok(Validated(
      FallbackRecs(firstId, catalog, "Fallback recommendation due to processing error"),
      "Unable to process request fully. Here's a general recommendation.",
      FallbackQuestions));
  }

  // ---------------------------------------------------------------------------
  // get_recommendations

  /** The parsed reply of attempt `a`, when the call and the parse succeed. */
  function ReplyAt(prompt: string, a: nat, llm: (string, nat) -> Option<string>,
                   parse: string -> Option<RawReply>): (r: Option<RawReply>)
    ensures r.Some? ==> llm(prompt, a).Some? && parse(ExtractJson(llm(prompt, a).value)) == r
  {
    match llm(prompt, a)
    case None => None
    case Some(content) => parse(ExtractJson(content))
  }

  /** An attempt whose parsed reply is `reply` raises: the call or the parse
      gave nothing, or the validation failed. */
  predicate Fails(reply: Option<RawReply>, catalog: Catalog)
  {
    match reply
    case None => true
    case Some(p) => ValidationFailure(p, catalog).Some?
  }

  /** Attempt `a` raises: the call, the parse or the validation. */
  predicate AttemptFails(prompt: string, a: nat, llm: (string, nat) -> Option<string>,
                         parse: string -> Option<RawReply>, catalog: Catalog)
  {
    Fails(ReplyAt(prompt, a, llm, parse), catalog)
  }

  /** With an empty catalogue every attempt raises. */
  lemma AttemptsFailOnEmptyCatalog(prompt: string, a: nat, llm: (string, nat) -> Option<string>,
                                   parse: string -> Option<RawReply>)
    ensures AttemptFails(prompt, a, llm, parse, map[])
  {
    if ReplyAt(prompt, a, llm, parse).Some? {
      EmptyCatalogNeverValidates(ReplyAt(prompt, a, llm, parse).value);
    }
  }

  /** One pass through the `try` block of `get_recommendations`: `reply(a)` is
      what the call, the extraction and the parse of attempt `a` give; the
      attempt then validates it. */
  method Attempt(reply: nat -> Option<RawReply>, a: nat, catalog: Catalog)
    returns (v: Result<Validated, Failure>)
    ensures v.Err? <==> Fails(reply(a), catalog)
    ensures v.Ok? ==> IsValidationOf(reply(a).value, catalog, v.value)
  {
    var parsed := reply(a);
    if parsed.None? {
      return Err(InvalidJson);
    }
    v := ValidateResponse(parsed.value, catalog);
  }

  /** The retry loop of `get_recommendations`: attempts `0 .. max_retries`
      until one validates. `calls` counts the model calls made. */
  method Retry(reply: nat -> Option<RawReply>, maxRetries: int, catalog: Catalog)
    returns (validated: Result<Validated, Failure>, calls: nat)
    ensures calls <= if maxRetries < 0 then 0 else maxRetries + 1
    ensures forall a :: 0 <= a < calls - 1 ==> Fails(reply(a), catalog)
    ensures validated.Err? <==> calls == 0 || Fails(reply(calls - 1), catalog)
    ensures validated.Ok? ==> 0 < calls && IsValidationOf(reply(calls - 1).value, catalog, validated.value)
    ensures calls < maxRetries + 1 ==> validated.Ok?
  {
    validated := Err(NoReply);
    calls := 0;
    while calls < maxRetries + 1
      invariant 0 <= calls <= (if maxRetries < 0 then 0 else maxRetries + 1)
      invariant forall a :: 0 <= a < calls ==> Fails(reply(a), catalog)
      invariant validated.Err?
      invariant calls == 0 || Fails(reply(calls - 1), catalog)
    {
      validated := Attempt(reply, calls, catalog);
      calls := calls + 1;
      if validated.Ok? {
        return;
      }
    }
  }

  /** `get_recommendations`: the first validated reply of at most
      `max_retries + 1` attempts; when every attempt fails (or none is made),
      the fallback response. It returns exactly when the catalogue is not
      empty. */
  method GetRecommendations(prompt: string, maxRetries: int, llm: (string, nat) -> Option<string>,
                            parse: string -> Option<RawReply>, catalog: Catalog)
    returns (r: Result<Validated, Failure>, calls: nat)
    ensures calls <= if maxRetries < 0 then 0 else maxRetries + 1
    ensures forall a :: 0 <= a < calls - 1 ==> AttemptFails(prompt, a, llm, parse, catalog)
    ensures calls < maxRetries + 1 ==> 0 < calls && !AttemptFails(prompt, calls - 1, llm, parse, catalog)
    ensures 0 < calls && !AttemptFails(prompt, calls - 1, llm, parse, catalog) ==>
              r.Ok? && IsValidationOf(ReplyAt(prompt, calls - 1, llm, parse).value, catalog, r.value)
    ensures calls == 0 || AttemptFails(prompt, calls - 1, llm, parse, catalog) ==>
              r.Ok? ==> IsFallbackResponse(catalog, r.value)
    ensures r.Err? <==> catalog == map[]
    ensures r.Err? ==> r.error == EmptyCatalog
  {
    var validated;
    var reply := (a: nat) => ReplyAt(prompt, a, llm, parse);
    validated, calls := Retry(reply, maxRetries, catalog);
    forall a | 0 <= a < calls - 1
      ensures AttemptFails(prompt, a, llm, parse, catalog)
    {
      assert Fails(reply(a), catalog);
    }
    if validated.Ok? {
      if catalog == map[] {
        AttemptsFailOnEmptyCatalog(prompt, calls - 1, llm, parse);
      }
      r := validated;
    } else {
      r := FallbackResponse(catalog);
    }
  }
}
