/** One turn of the agent (`agent/core.py`): classify the query, extract
    filters, move the session's filters according to the intent, retrieve
    products, build the prompt, ask for recommendations, drop rejected
    products and record the turn. The model calls, the retriever and the
    serialisers are parameters. */
module AgentCore {
  import opened Types
  import opened Text
  import opened Config
  import opened ContextManagement
  import opened FilterExtraction
  import opened IntentClassification
  import opened LlmClient
  import opened PromptBuilding

  /** `AgentResponse`. */
  datatype AgentResponse = AgentResponse(
    recs: seq<Recommendation>,
    summary: string,
    intent: Intent,
    filters: Filters,
    followUps: seq<string>)

  /** The `AgentResponse` constructor: absent (or empty) follow-up questions
      become the empty list. */
  function NewResponse(recs: seq<Recommendation>, summary: string, intent: Intent, filters: Filters,
                       followUps: Option<seq<string>>): (r: AgentResponse)
    ensures followUps.None? ==> r.followUps == []
    ensures followUps.Some? ==> r.followUps == followUps.value
    ensures r.recs == recs && r.summary == summary && r.intent == intent && r.filters == filters
  {
    var questions := match followUps case None => [] case Some(qs) => if qs == [] then [] else qs;
    AgentResponse(recs, summary, intent, filters, questions)
  }

  /** The filters after the turn's context update: REFINE merges the extracted
      filters into the accumulated ones, SEARCH clears the accumulated filters
      first, CLARIFY and CHITCHAT leave them alone. */
  function Transition(intent: Intent, acc: Filters, extracted: Filters): (r: Filters)
    requires ListKeysHoldLists(acc)
    ensures ListKeysHoldLists(r)
    ensures intent != Refine && intent != Search ==> r == acc
    ensures intent == Search ==> r.Keys == Written(extracted)
    ensures intent == Refine ==> r.Keys == acc.Keys + Written(extracted)
    ensures intent == Refine || intent == Search ==>
              forall k :: k in Written(extracted) && k !in ListKeys ==> r[k] == extracted[k]
  {
    match intent
    case Refine => UpdatedFilters(acc, extracted)
    case Search => UpdatedFilters(map[], extracted)
    case _ => acc
  }

  /** A transition keeps every schema key at its declared type. */
  lemma TransitionWellFormed(intent: Intent, acc: Filters, extracted: Filters)
    requires ListKeysHoldLists(acc) && WellFormed(acc) && WellFormed(extracted)
    ensures WellFormed(Transition(intent, acc, extracted))
  {
    match intent
    case Refine => UpdatedWellFormed(acc, extracted);
    case Search => UpdatedWellFormed(map[], extracted);
    case _ =>
  }

  /** The accumulated filters after a turn on `query`, given the classifier's
      and the extractor's model replies. */
  function TurnFilters(query: string, history: seq<Turn>, intentReply: Option<IntentReply>,
                       n: QueryNumbers, filterReply: Option<FilterOutput>, acc: Filters): Filters
    requires ListKeysHoldLists(acc)
  {
    Transition(Classify(query, history, intentReply).intent, acc, Extracted(query, n, filterReply, acc))
  }

  /** A SEARCH turn does not forget earlier scalar filters: extraction already
      merged them into its result, so clearing the accumulated filters first
      has no effect on them. A price cap, price floor, rating floor or category
      set before the search is still set after it. */
  lemma SearchKeepsEarlierScalars(query: string, n: QueryNumbers, reply: Option<FilterOutput>,
                                  acc: Filters, k: string)
    requires ListKeysHoldLists(acc)
    requires k !in ListKeys && Get(acc, k) != Null
    ensures Get(Transition(Search, acc, Extracted(query, n, reply, acc)), k) != Null
  {
    var x := Extracted(query, n, reply, acc);
    if reply.Some? && Merged(acc, VagueApplied(Lower(query), FromOutput(reply.value), VagueTerms)).Some? {
      var v := VagueApplied(Lower(query), FromOutput(reply.value), VagueTerms);
      assert x == Merged(acc, v).value;
      if k !in Written(v) {
        assert x[k] == acc[k];
      } else {
        assert x[k] == v[k];
      }
    } else {
      assert x == RegexExtract(query, n, acc);
      assert k in x && x[k] != Null;
    }
    assert k in Written(x);
  }

  /** The validated recommendations whose product is not rejected, in order. */
  function Keep(recs: seq<Recommendation>, rejected: set<string>): (r: seq<Recommendation>)
    ensures |r| <= |recs|
    ensures forall x :: x in r <==> x in recs && x.productId !in rejected
  {
    if recs == [] then []
    else
      var last := recs[|recs| - 1];
      Keep(recs[..|recs| - 1], rejected) + (if last.productId in rejected then [] else [last])
  }

  /** Dropping rejected products keeps the relative order: it distributes over
      concatenation. */
  lemma {:induction false} KeepConcat(a: seq<Recommendation>, b: seq<Recommendation>, rejected: set<string>)
    ensures Keep(a + b, rejected) == Keep(a, rejected) + Keep(b, rejected)
    decreases |b|
  {
    if b == [] {
      assert a + b == a;
    } else {
      var b' := b[..|b| - 1];
      assert (a + b)[..|a + b| - 1] == a + b';
      assert (a + b)[|a + b| - 1] == b[|b| - 1];
      KeepConcat(a, b', rejected);
    }
  }

  /** With nothing rejected, every recommendation is kept. */
  lemma {:induction false} KeepNothingRejected(recs: seq<Recommendation>)
    ensures Keep(recs, {}) == recs
    decreases |recs|
  {
    if recs != [] {
      KeepNothingRejected(recs[..|recs| - 1]);
    }
  }

  /** The recommendations returned to the user: those not rejected, or all of
      them when every one is rejected. */
  function WithoutRejected(recs: seq<Recommendation>, rejected: set<string>): (r: seq<Recommendation>)
    ensures (exists x :: x in recs && x.productId !in rejected) ==> r == Keep(recs, rejected)
    ensures (forall x :: x in recs ==> x.productId in rejected) ==> r == recs
  {
    var kept := Keep(recs, rejected);
    if kept == [] then recs else assert kept[0] in kept; kept
  }

  /** A rejected product is shown only when every recommendation is rejected;
      nothing is invented, and a non-empty list stays non-empty. */
  lemma WithoutRejectedShape(recs: seq<Recommendation>, rejected: set<string>)
    ensures forall x :: x in WithoutRejected(recs, rejected) ==> x in recs
    ensures recs != [] ==> WithoutRejected(recs, rejected) != []
    ensures |WithoutRejected(recs, rejected)| <= |recs|
    ensures (exists x :: x in recs && x.productId !in rejected) ==>
              forall x :: x in WithoutRejected(recs, rejected) ==> x.productId !in rejected
  {
  }

  /** The response of a turn whose recommendation call returned `v`. */
  function Respond(v: Validated, rejected: set<string>, intent: Intent, filters: Filters): (r: AgentResponse)
    ensures r.summary == v.summary && r.intent == intent && r.filters == filters
    ensures r.followUps == v.followUps
    ensures r.recs == WithoutRejected(v.recs, rejected)
  {
    NewResponse(WithoutRejected(v.recs, rejected), v.summary, intent, filters, Some(v.followUps))
  }

  /** One to `MAX_RECOMMENDATIONS` recommendations, each naming a product of `catalog`. */
  predicate Grounded(recs: seq<Recommendation>, catalog: Catalog)
  {
    1 <= |recs| <= MaxRecommendations && forall i :: 0 <= i < |recs| ==> recs[i].productId in catalog
  }

  /** What `get_recommendations` with two retries promises of its reply `v`
      for `prompt` after `calls` model calls: at most three calls, every call
      before the last failed, and `v` is the validation of the last call's
      reply when that call succeeded, otherwise the fallback response. */
  predicate Answered(prompt: string, calls: nat, llm: (string, nat) -> Option<string>,
                     parse: string -> Option<RawReply>, catalog: Catalog, v: Validated)
  {
    && calls <= 3
    && (forall a :: 0 <= a < calls - 1 ==> AttemptFails(prompt, a, llm, parse, catalog))
    && (0 < calls && !AttemptFails(prompt, calls - 1, llm, parse, catalog) ==>
          IsValidationOf(ReplyAt(prompt, calls - 1, llm, parse).value, catalog, v))
    && (calls == 0 || AttemptFails(prompt, calls - 1, llm, parse, catalog) ==> IsFallbackResponse(catalog, v))
  }

  /** What a successful recommendation call returns is grounded in the catalogue. */
  lemma ReplyGrounded(prompt: string, calls: nat, llm: (string, nat) -> Option<string>,
                      parse: string -> Option<RawReply>, catalog: Catalog, v: Validated)
    requires Answered(prompt, calls, llm, parse, catalog, v)
    ensures Grounded(v.recs, catalog)
  {
    if 0 < calls && !AttemptFails(prompt, calls - 1, llm, parse, catalog) {
      ValidationBounds(ReplyAt(prompt, calls - 1, llm, parse).value, catalog, v);
    } else {
      var id :| id in catalog && v.recs == FallbackRecs(id, catalog, "Fallback recommendation due to processing error");
    }
  }

  /** The turn's response keeps the reply's grounding after rejected products are dropped. */
  lemma RespondGrounded(v: Validated, rejected: set<string>, intent: Intent, filters: Filters, catalog: Catalog)
    requires Grounded(v.recs, catalog)
    ensures Grounded(Respond(v, rejected, intent, filters).recs, catalog)
  {
    var r := Respond(v, rejected, intent, filters).recs;
    WithoutRejectedShape(v.recs, rejected);
    forall i | 0 <= i < |r|
      ensures r[i].productId in catalog
    {
      assert r[i] in v.recs;
    }
  }

  /** The validation catalogue as the agent leaves it after retrieval, as
      written: `update_product_catalog` is not defined on the client, so any
      non-empty retrieval raises `AttributeError` (`None` here). */
  function CatalogUpdateAsWritten(products: seq<Product>, catalog: Catalog): (r: Option<Catalog>)
    ensures r.None? <==> products != []
    ensures r.Some? ==> r.value == catalog
  {
    if products != [] then None else Some(catalog)
  }

  /** As written, every turn whose retrieval finds a product aborts before the
      prompt is built, so no recommendation ever names a retrieved product. */
  lemma RetrievalAbortsTurnAsWritten(p: Product, catalog: Catalog)
    ensures CatalogUpdateAsWritten([p], catalog).None?
  {
  }

  /** The catalogue of the retrieved products: each id names its product,
      later products winning over earlier ones with the same id
      (`CatalogOfLastWins`). */
  function CatalogOf(products: seq<Product>): (r: Catalog)
    ensures forall id :: id in r <==> exists i :: 0 <= i < |products| && products[i].id == id
    ensures forall id :: id in r ==> exists i :: 0 <= i < |products| && products[i].id == id
                                             && r[id] == Some(products[i].name)
  {
    if products == [] then map[]
    else
      var last := products[|products| - 1];
      var init := CatalogOf(products[..|products| - 1]);
      assert forall i :: 0 <= i < |products| - 1 ==> products[..|products| - 1][i] == products[i];
      init[last.id := Some(last.name)]
  }

  /** Of several retrieved products with the same id, the last one names it. */
  lemma {:induction false} CatalogOfLastWins(products: seq<Product>, i: nat)
    requires i < |products| && LastWithId(products, i)
    ensures CatalogOf(products)[products[i].id] == Some(products[i].name)
  {
    var n := |products| - 1;
    if i < n {
      var front := products[..n];
      assert front[i] == products[i];
      forall j | i < j < |front|
        ensures front[j].id != front[i].id
      {
        assert front[j] == products[j];
      }
      CatalogOfLastWins(front, i);
      assert products[n].id != products[i].id;
    }
  }

  /** No product after position `i` carries the id of product `i`. */
  predicate LastWithId(products: seq<Product>, i: nat)
    requires i < |products|
  {
    forall j :: i < j < |products| ==> products[j].id != products[i].id
  }

  /** The validation catalogue after retrieval, as evidently intended: the
      retrieved products replace the catalogue when there are any. */
  function CatalogAfterRetrieval(products: seq<Product>, catalog: Catalog): (r: Catalog)
    ensures products == [] ==> r == catalog
    ensures products != [] ==> r == CatalogOf(products) && r != map[]
  {
    if products == [] then catalog
    else
      assert products[0].id in CatalogOf(products);
      CatalogOf(products)
  }

  /** With the corrected update, every product named by a recommendation after
      a non-empty retrieval is one of the retrieved products. */
  lemma RecommendationsFromRetrieved(products: seq<Product>, catalog: Catalog, recs: seq<Recommendation>)
    requires products != []
    requires Grounded(recs, CatalogAfterRetrieval(products, catalog))
    ensures forall k :: 0 <= k < |recs| ==> exists i :: 0 <= i < |products| && products[i].id == recs[k].productId
  {
  }

  /** The agent: a session context, the prompt builder and the catalogue
      recommendations are validated against. */
  class Agent {
    const ctx: ContextManager
    const builder: Builder
    var catalog: Catalog

    /** The session state is valid and its filters are well typed. */
    predicate Valid()
      reads this, ctx
    {
      ctx.Valid() && WellFormed(ctx.filters)
    }

    /** A fresh session; `loaded` is the catalogue the client starts with,
        `systemPrompt` and `mockProducts` the files the prompt builder loads. */
    constructor (loaded: Catalog, systemPrompt: string, mockProducts: seq<Product>)
      ensures Valid() && fresh(ctx)
      ensures ctx.history == [] && ctx.filters == map[] && ctx.rejected == {}
      ensures builder == Builder(systemPrompt, mockProducts)
      ensures catalog == loaded
    {
      ctx := new ContextManager();
      builder := Builder(systemPrompt, mockProducts);
      catalog := loaded;
    }

    /** `process`: one turn. The classifier's and the extractor's model
        replies, the tokenised numbers of the query, the retriever, the model
        behind `get_recommendations`, `json.loads`, the number formatting and
        `json.dumps` are parameters. The result is `Err` exactly when the
        recommendation call raises for an empty catalogue; the filters have
        then already been updated but the turn is not recorded. `reply` is the
        recommendation call's result, `prompt` the prompt it was given and
        `calls` the number of model calls it made. The catalogue update is the
        corrected one, `CatalogAfterRetrieval`: the source's update fails on
        every non-empty retrieval (see `CatalogUpdateAsWritten`). */
    method Process(query: string, intentReply: Option<IntentReply>, n: QueryNumbers,
                   filterReply: Option<FilterOutput>, retrieve: (string, Filters) -> seq<Product>,
                   show: real -> string, dumps: Product -> string,
                   llm: (string, nat) -> Option<string>, parse: string -> Option<RawReply>)
      returns (r: Result<AgentResponse, Failure>, ghost reply: Validated, ghost prompt: string, ghost calls: nat)
      requires Valid()
      modifies this, ctx
      ensures Valid()
      ensures ctx.filters == TurnFilters(query, old(ctx.history), intentReply, n, filterReply, old(ctx.filters))
      ensures ctx.rejected == old(ctx.rejected)
      ensures catalog == CatalogAfterRetrieval(retrieve(query, ctx.filters), old(catalog))
      ensures r.Err? <==> catalog == map[]
      ensures r.Err? ==> ctx.history == old(ctx.history)
      ensures r.Ok? ==> ctx.history == LastN(old(ctx.history) + [Turn(query, r.value.summary)], MaxConversationHistory)
      ensures r.Ok? ==> r.value == Respond(reply, ctx.rejected, Classify(query, old(ctx.history), intentReply).intent, ctx.filters)
      ensures r.Ok? ==> prompt == PromptText(builder, query, old(ctx.history), ctx.filters,
                                             Some(retrieve(query, ctx.filters)), show, dumps)
      ensures r.Ok? ==> Answered(prompt, calls, llm, parse, catalog, reply)
      ensures r.Ok? ==> Grounded(reply.recs, catalog) && Grounded(r.value.recs, catalog)
    {
      // 1. intent
      var history := ctx.GetHistory();
      var intent := Classify(query, history, intentReply).intent;
      // 2. filters
      var existing := ctx.GetFilters();
      var extracted := Extract(query, n, filterReply, existing);
      ExtractedWellFormed(query, n, filterReply, existing);
      // 3. context update
      UpdateContext(intent, extracted);
      // 4. retrieval and the catalogue
      var products := retrieve(query, ctx.filters);
      if products != [] {
        catalog := CatalogAfterRetrieval(products, catalog);
      }
      // 4b to 7
      r, reply, prompt, calls := Answer(query, intent, history, ctx.filters, products, show, dumps, llm, parse);
    }

    /** Steps 4b to 7 of `process`, after retrieval: the prompt over the
        retrieved `products` and the recommendation call, the rejected-product
        filter, the recorded turn and the response. */
    method Answer(query: string, intent: Intent, history: seq<Turn>, f: Filters, products: seq<Product>,
                  show: real -> string, dumps: Product -> string,
                  llm: (string, nat) -> Option<string>, parse: string -> Option<RawReply>)
      returns (r: Result<AgentResponse, Failure>, ghost reply: Validated, ghost prompt: string, ghost calls: nat)
      requires Valid() && history == ctx.history && f == ctx.filters
      modifies ctx
      ensures Valid()
      ensures ctx.filters == f && ctx.rejected == old(ctx.rejected)
      ensures r.Err? <==> catalog == map[]
      ensures r.Err? ==> ctx.history == history
      ensures r.Ok? ==> ctx.history == LastN(history + [Turn(query, r.value.summary)], MaxConversationHistory)
      ensures r.Ok? ==> r.value == Respond(reply, ctx.rejected, intent, f)
      ensures r.Ok? ==> prompt == PromptText(builder, query, history, f, Some(products), show, dumps)
      ensures r.Ok? ==> Answered(prompt, calls, llm, parse, catalog, reply)
      ensures r.Ok? ==> Grounded(reply.recs, catalog) && Grounded(r.value.recs, catalog)
    {
      // 4b and 5. prompt and recommendation call
      var got;
      got, prompt, calls := Recommend(query, history, f, products, show, dumps, llm, parse);
      if got.Err? {
        reply := Validated([], "", []);
        return Err(got.error), reply, prompt, calls;
      }
      var v := got.value;
      reply := v;
      r := Finish(query, intent, v);
    }

    /** Steps 6 and 7 of `process`, after a validated reply `v`: the rejected
        products are dropped, the turn is recorded and the response built. */
    method Finish(query: string, intent: Intent, v: Validated) returns (r: Result<AgentResponse, Failure>)
      requires Valid() && Grounded(v.recs, catalog)
      modifies ctx
      ensures Valid()
      ensures ctx.filters == old(ctx.filters) && ctx.rejected == old(ctx.rejected)
      ensures ctx.history == LastN(old(ctx.history) + [Turn(query, v.summary)], MaxConversationHistory)
      ensures r == Ok(Respond(v, ctx.rejected, intent, ctx.filters))
      ensures Grounded(r.value.recs, catalog)
    {
      var updated := ctx.GetFilters();
      var rejected := ctx.GetRejectedIds();
      var recs := WithoutRejected(v.recs, rejected);
      // 6. the turn
      ctx.AddTurn(query, v.summary);
      // 7. the response
      r := Ok(NewResponse(recs, v.summary, intent, updated, Some(v.followUps)));
      RespondGrounded(v, rejected, intent, updated, catalog);
    }

    /** Steps 4b and 5 of `process`: the prompt over the retrieved products and
        the recommendation call with two retries, validated against the
        current catalogue. `prompt` is the prompt built and `calls` the number
        of model calls made. */
    method Recommend(query: string, history: seq<Turn>, f: Filters,
                     products: seq<Product>, show: real -> string, dumps: Product -> string,
                     llm: (string, nat) -> Option<string>, parse: string -> Option<RawReply>)
      returns (got: Result<Validated, Failure>, ghost prompt: string, ghost calls: nat)
      requires WellFormed(f)
      ensures prompt == PromptText(builder, query, history, f, Some(products), show, dumps)
      ensures got.Err? <==> catalog == map[]
      ensures got.Ok? ==> Answered(prompt, calls, llm, parse, catalog, got.value)
      ensures got.Ok? ==> Grounded(got.value.recs, catalog)
    {
      // `products` is always given, so the rule-based catalogue goes unused.
      var built := Build(builder, query, history, f, Some(products), show, dumps);
      prompt := built;
      got, calls := GetRecommendations(built, 2, llm, parse, catalog);
      if got.Ok? {
        ReplyGrounded(built, calls, llm, parse, catalog, got.value);
      }
    }

    /** The context update of `process`: the filters take the intent's transition. */
    method UpdateContext(intent: Intent, extracted: Filters)
      requires Valid() && WellFormed(extracted)
      modifies ctx
      ensures Valid()
      ensures ctx.filters == Transition(intent, old(ctx.filters), extracted)
      ensures ctx.history == old(ctx.history) && ctx.rejected == old(ctx.rejected)
    {
      TransitionWellFormed(intent, ctx.filters, extracted);
      if intent == Refine {
        ctx.UpdateFilters(extracted);
      } else if intent == Search {
        ctx.ClearFilters();
        ctx.UpdateFilters(extracted);
      }
    }

    /** `reset_session`: the session context is reset; the catalogue is kept. */
    method ResetSession()
      modifies ctx
      ensures Valid()
      ensures ctx.history == [] && ctx.filters == map[] && ctx.rejected == {}
    {
      ctx.Reset();
    }
  }
}
