/** The deterministic parts of the vector-store retriever
    (`agent/rag_retriever.py`): turning extracted attributes and the agent's
    filters into a ChromaDB `where` clause, turning query results into
    products, and pulling a JSON object out of a model reply. The store, the
    embedding model and the language model are not modelled; `json.loads` and
    `float` of a string are parameters. */
module RagRetrieval {
  import opened Types
  import opened Text

  /** `_rewrite_query`: the query, stripped. */
  function RewriteQuery(query: string): (r: string)
    ensures r == Strip(query)
    ensures Strip(r) == r
    ensures Contains(query, r)
  {
    var r := Strip(query);
    StripIdempotent(query);
    ContainsSlice(query, LeadingSpaces(query), LeadingSpaces(query) + |r|);
    r
  }

  /** `_normalize_filter_value`: strings are stripped and lower-cased, other
      values pass unchanged. */
  function NormalizeFilterValue(v: Atom): (r: Atom)
    ensures v.Number? ==> r == v
    ensures v.Str? ==> r.Str? && Strip(r.s) == r.s && Lower(r.s) == r.s && |r.s| <= |v.s|
  {
    match v
    case Str(s) => Str(Lower(Strip(s)))
    case Number(_) => v
  }

  /** Normalising twice is normalising once. */
  lemma NormalizeIdempotent(v: Atom)
    ensures NormalizeFilterValue(NormalizeFilterValue(v)) == NormalizeFilterValue(v)
  {
    if v.Str? {
      var t := Strip(v.s);
      StripIdempotent(v.s);
      StripLower(t);
      assert Lower(Lower(t)) == Lower(t);
    }
  }

  /** A value of the attribute dictionary the model extracts: `None`, a
      scalar, or an operator dictionary such as `{"$lte": 50}` (in key order). */
  datatype RawValue = RawNull | RawAtom(atom: Atom) | RawDict(ops: seq<(string, Atom)>)

  /** One ChromaDB predicate: `{field: value}` or `{field: {op: value}}`. */
  datatype Pred = Eq(field: string, value: Atom) | Cmp(field: string, op: string, bound: Atom)

  /** A `where` clause: one predicate, or `{"$and": [...]}`. */
  datatype Where = Leaf(pred: Pred) | And(preds: seq<Pred>)

  /** Indexing a string or testing `in` on a number raises `TypeError`. */
  datatype BuildError = TypeError

  /** `op in value` for an operator dictionary. */
  predicate HasOp(ops: seq<(string, Atom)>, op: string)
  {
    exists i :: 0 <= i < |ops| && ops[i].0 == op
  }

  /** `value[op]`: the value of the first entry with that operator. */
  function OpValue(ops: seq<(string, Atom)>, op: string): (r: Atom)
    requires HasOp(ops, op)
    ensures exists i :: 0 <= i < |ops| && ops[i] == (op, r)
  {
    if ops[0].0 == op then ops[0].1
    else
      assert HasOp(ops[1..], op) by {
        var i :| 0 <= i < |ops| && ops[i].0 == op;
        assert ops[1..][i - 1].0 == op;
      }
      var r := OpValue(ops[1..], op);
      var i :| 0 <= i < |ops[1..]| && ops[1..][i] == (op, r);
      assert ops[i + 1] == (op, r);
      r
  }

  /** The `age` key: a range of ages becomes bounds on the product's
      `age_max` and `age_min`, an exact age becomes `age_min <= a <= age_max`,
      a one-sided bound one predicate, anything else nothing. A string is
      searched for the operators (`in` on a string), and indexing it fails;
      `in` on a number fails. */
  function AgePreds(v: RawValue): (r: Result<seq<Pred>, BuildError>)
    ensures r.Ok? ==> |r.value| <= 2
  {
    match v
    case RawNull => Ok([])
    case RawDict(ops) =>
      if HasOp(ops, "$gte") && HasOp(ops, "$lte") then
        Ok([Cmp("age_max", "$lte", OpValue(ops, "$lte")), Cmp("age_min", "$gte", OpValue(ops, "$gte"))])
      else if HasOp(ops, "$eq") then
        Ok([Cmp("age_min", "$lte", OpValue(ops, "$eq")), Cmp("age_max", "$gte", OpValue(ops, "$eq"))])
      else if HasOp(ops, "$lt") then Ok([Cmp("age_min", "$lt", OpValue(ops, "$lt"))])
      else if HasOp(ops, "$gt") then Ok([Cmp("age_max", "$gt", OpValue(ops, "$gt"))])
      else Ok([])
    case RawAtom(Str(s)) =>
      if (Contains(s, "$gte") && Contains(s, "$lte")) || Contains(s, "$eq") || Contains(s, "$lt") || Contains(s, "$gt")
      then Err(TypeError)
      else Ok([])
    case RawAtom(Number(_)) => Err(TypeError)
  }

  /** The predicates of one extracted attribute: none for `None`, the age
      rules for `age`, one per operator for an operator dictionary, otherwise
      one equality on the normalised value. */
  function EntryPreds(key: string, v: RawValue): (r: Result<seq<Pred>, BuildError>)
    ensures v == RawNull ==> r == Ok([])
    ensures key != "age" && v.RawDict? ==>
              r.Ok? && |r.value| == |v.ops|
              && forall i :: 0 <= i < |v.ops| ==> r.value[i] == Cmp(key, v.ops[i].0, v.ops[i].1)
    ensures key != "age" && v.RawAtom? ==> r == Ok([Eq(key, NormalizeFilterValue(v.atom))])
  {
    if v == RawNull then Ok([])
    else if key == "age" then AgePreds(v)
    else match v
      case RawDict(ops) => Ok(seq(|ops|, i requires 0 <= i < |ops| => Cmp(key, ops[i].0, ops[i].1)))
      case RawAtom(a) => Ok([Eq(key, NormalizeFilterValue(a))])
  }

  /** The predicates of the extracted attributes, in key order; the first
      failing entry fails the whole. */
  function RawPreds(raw: seq<(string, RawValue)>): (r: Result<seq<Pred>, BuildError>)
    ensures r.Ok? ==> forall i :: 0 <= i < |raw| ==> EntryPreds(raw[i].0, raw[i].1).Ok?
  {
    if raw == [] then Ok([])
    else match RawPreds(raw[..|raw| - 1])
      case Err(e) => Err(e)
      case Ok(ps) =>
        match EntryPreds(raw[|raw| - 1].0, raw[|raw| - 1].1)
        case Err(e) => Err(e)
        case Ok(qs) => Ok(ps + qs)
  }

  /** A failing prefix fails every extension. */
  lemma {:induction false} RawPredsPrefixFails(raw: seq<(string, RawValue)>, n: nat)
    requires n <= |raw|
    requires RawPreds(raw[..n]).Err?
    ensures RawPreds(raw).Err?
    decreases |raw| - n
  {
    if n < |raw| {
      assert raw[..n + 1][..n] == raw[..n];
      RawPredsPrefixFails(raw, n + 1);
    } else {
      assert raw[..n] == raw;
    }
  }

  /** The predicates from the agent's accumulated filters: the price and
      rating bounds, the lower-cased category and the lower-cased first
      included brand; excluded brands add nothing. */
  function AgentPreds(f: Filters): (r: seq<Pred>)
    requires WellFormed(f)
    ensures |r| <= 5
    ensures r == [] <==> !IsSet(f, PriceMin) && !IsSet(f, PriceMax) && !IsSet(f, Category)
                         && !IsSet(f, BrandInclude) && !IsSet(f, RatingMin)
  {
    (if IsSet(f, PriceMin) then [Cmp("price", "$gte", Number(NumberAt(f, PriceMin)))] else [])
    + (if IsSet(f, PriceMax) then [Cmp("price", "$lte", Number(NumberAt(f, PriceMax)))] else [])
    + (if IsSet(f, Category) then [Eq("category", Str(Lower(TextAt(f, Category))))] else [])
    + (if IsSet(f, BrandInclude) then [Eq("brand", Str(Lower(TextsAt(f, BrandInclude)[0])))] else [])
    + (if IsSet(f, RatingMin) then [Cmp("rating", "$gte", Number(NumberAt(f, RatingMin)))] else [])
  }

  /** The count of truthy filters among the five the store understands. */
  function Count(b: bool): nat
  {
    if b then 1 else 0
  }

  /** One predicate per truthy store-side filter; `brand_exclude` never
      matters, and the brand predicate names only the first included brand. */
  lemma AgentPredsShape(f: Filters, v: Value)
    requires WellFormed(f)
    requires TextListOrNull(v)
    ensures WellFormed(f[BrandExclude := v])
    ensures AgentPreds(f[BrandExclude := v]) == AgentPreds(f)
    ensures |AgentPreds(f)| == Count(IsSet(f, PriceMin)) + Count(IsSet(f, PriceMax)) + Count(IsSet(f, Category))
                               + Count(IsSet(f, BrandInclude)) + Count(IsSet(f, RatingMin))
    ensures IsSet(f, BrandInclude) ==> Eq("brand", Str(Lower(TextsAt(f, BrandInclude)[0]))) in AgentPreds(f)
  {
    var g := f[BrandExclude := v];
    assert forall k :: k != BrandExclude ==> Get(g, k) == Get(f, k);
  }

  /** The final clause: none for no predicates, the bare predicate for one,
      `$and` of all of them otherwise. */
  function Wrap(preds: seq<Pred>): (r: Option<Where>)
    ensures r.None? <==> preds == []
    ensures r.Some? && r.value.And? ==> |r.value.preds| >= 2
  {
    if preds == [] then None
    else if |preds| == 1 then Some(Leaf(preds[0]))
    else Some(And(preds))
  }

  /** The predicates a clause stands for. */
  function PredsOf(w: Option<Where>): seq<Pred>
  {
    match w
    case None => []
    case Some(Leaf(p)) => [p]
    case Some(And(ps)) => ps
  }

  /** Wrapping loses no predicate, adds none, and keeps their order. */
  lemma WrapRoundTrip(preds: seq<Pred>)
    ensures PredsOf(Wrap(preds)) == preds
  {
    if |preds| == 1 {
      assert preds == [preds[0]];
    }
  }

  /** `_build_chroma_filters`, stated as a function. */
  function ChromaFilters(raw: seq<(string, RawValue)>, agent: Filters): (r: Result<Option<Where>, BuildError>)
    requires WellFormed(agent)
    ensures r.Ok? <==> RawPreds(raw).Ok?
    ensures r.Ok? ==> (r.value.None? <==> RawPreds(raw).value == [] && AgentPreds(agent) == [])
  {
    match RawPreds(raw)
    case Err(e) => Err(e)
    case Ok(ps) => Ok(Wrap(ps + AgentPreds(agent)))
  }

  /** The clause holds the extracted-attribute predicates first, then the
      agent's, and is never an empty or one-element `$and`. */
  lemma ChromaFiltersLayout(raw: seq<(string, RawValue)>, agent: Filters)
    requires WellFormed(agent)
    ensures ChromaFilters(raw, agent).Ok? ==>
              var ps := PredsOf(ChromaFilters(raw, agent).value);
              var rs := RawPreds(raw).value;
              && |rs| <= |ps|
              && ps[..|rs|] == rs
              && ps[|rs|..] == AgentPreds(agent)
  {
    if RawPreds(raw).Ok? {
      var rs := RawPreds(raw).value;
      WrapRoundTrip(rs + AgentPreds(agent));
      assert (rs + AgentPreds(agent))[..|rs|] == rs;
    }
  }

  /** `_build_chroma_filters`: a loop over the extracted attributes appending
      predicates, then the agent's filters, then the wrapping. */
  method BuildChromaFilters(raw: seq<(string, RawValue)>, agent: Filters) returns (r: Result<Option<Where>, BuildError>)
    requires WellFormed(agent)
    ensures r == ChromaFilters(raw, agent)
  {
    var preds: seq<Pred> := [];
    var i := 0;
    while i < |raw|
      invariant 0 <= i <= |raw|
      invariant RawPreds(raw[..i]) == Ok(preds)
    {
      var (key, value) := raw[i];
      assert raw[..i + 1][..i] == raw[..i];
      var entry := EntryPreds(key, value);
      if entry.Err? {
        assert raw[..i + 1][i] == (key, value);
        assert RawPreds(raw[..i + 1]).Err?;
        RawPredsPrefixFails(raw, i + 1);
        assert entry.error == TypeError == RawPreds(raw).error;
        return Err(entry.error);
      }
      preds := preds + entry.value;
      i := i + 1;
    }
    assert raw[..|raw|] == raw;
    preds := preds + AgentPreds(agent);
    r := Ok(Wrap(preds));
  }

  /** A comparison as the store evaluates it on a number. */
  predicate Compare(x: real, op: string, b: real)
  {
    if op == "$lte" then x <= b
    else if op == "$gte" then x >= b
    else if op == "$lt" then x < b
    else if op == "$gt" then x > b
    else op == "$eq" && x == b
  }

  /** A product with the age range `[ageMin, ageMax]` satisfies an age predicate. */
  predicate AgeHolds(p: Pred, ageMin: real, ageMax: real)
  {
    p.Cmp? && p.bound.Number?
    && ((p.field == "age_min" && Compare(ageMin, p.op, p.bound.x))
        || (p.field == "age_max" && Compare(ageMax, p.op, p.bound.x)))
  }

  predicate AllAgeHold(ps: seq<Pred>, ageMin: real, ageMax: real)
  {
    forall i :: 0 <= i < |ps| ==> AgeHolds(ps[i], ageMin, ageMax)
  }

  /** An exact age `a` selects the products whose age range contains `a`. */
  lemma AgeExactMeansInRange(ops: seq<(string, Atom)>, a: real, ageMin: real, ageMax: real)
    requires HasOp(ops, "$eq") && OpValue(ops, "$eq") == Number(a)
    requires !(HasOp(ops, "$gte") && HasOp(ops, "$lte"))
    ensures AgePreds(RawDict(ops)).Ok?
    ensures AllAgeHold(AgePreds(RawDict(ops)).value, ageMin, ageMax) <==> ageMin <= a <= ageMax
  {
    var ps := AgePreds(RawDict(ops)).value;
    assert ps == [Cmp("age_min", "$lte", Number(a)), Cmp("age_max", "$gte", Number(a))];
    assert AgeHolds(ps[0], ageMin, ageMax) <==> ageMin <= a;
    assert AgeHolds(ps[1], ageMin, ageMax) <==> ageMax >= a;
  }

  /** An age range `[lo, hi]` selects the products whose age range lies within it. */
  lemma AgeRangeMeansWithin(ops: seq<(string, Atom)>, lo: real, hi: real, ageMin: real, ageMax: real)
    requires HasOp(ops, "$gte") && OpValue(ops, "$gte") == Number(lo)
    requires HasOp(ops, "$lte") && OpValue(ops, "$lte") == Number(hi)
    ensures AgePreds(RawDict(ops)).Ok?
    ensures AllAgeHold(AgePreds(RawDict(ops)).value, ageMin, ageMax) <==> lo <= ageMin && ageMax <= hi
  {
    var ps := AgePreds(RawDict(ops)).value;
    assert ps == [Cmp("age_max", "$lte", Number(hi)), Cmp("age_min", "$gte", Number(lo))];
    assert AgeHolds(ps[0], ageMin, ageMax) <==> ageMax <= hi;
    assert AgeHolds(ps[1], ageMin, ageMax) <==> ageMin >= lo;
  }

  /** A document of the store, as the fields the agent reads from it. */
  datatype Doc = Doc(
    name: Option<string>,
    title: Option<string>,
    productName: Option<string>,
    category: Option<string>,
    brand: Option<string>,
    description: Option<string>,
    price: Option<Atom>,
    rating: Option<Atom>)

  /** The metadata stored beside a document. */
  datatype Meta = Meta(category: Option<string>, brand: Option<string>, price: Option<Atom>, rating: Option<Atom>)

  const NoMeta: Meta := Meta(None, None, None, None)

  /** A stored document: JSON text, an already decoded object, or another value. */
  datatype RawDoc = DocText(text: string) | DocObject(doc: Doc) | DocOther

  /** A query result: per query, the documents, metadata and ids (each may be missing). */
  datatype ChromaResults = ChromaResults(
    documents: Option<seq<seq<RawDoc>>>,
    metadatas: Option<seq<seq<Meta>>>,
    ids: Option<seq<seq<string>>>)

  /** The option holds a non-empty string, so Python's `or` stops at it. */
  predicate Filled(o: Option<string>)
  {
    o.Some? && o.value != ""
  }

  /** Python `a or b or ... or default` over optional strings: the first
      filled option, else the default. */
  function FirstText(options: seq<Option<string>>, default: string): (r: string)
    ensures (forall i :: 0 <= i < |options| ==> !Filled(options[i])) ==> r == default
    ensures forall i :: 0 <= i < |options| && Filled(options[i]) && (forall j :: 0 <= j < i ==> !Filled(options[j])) ==>
              r == options[i].value
    ensures default != "" ==> r != ""
  {
    if options == [] then default
    else if Filled(options[0]) then options[0].value
    else
      var r := FirstText(options[1..], default);
      assert forall i :: 1 <= i < |options| ==> options[i] == options[1..][i - 1];
      r
  }

  /** Python `a or b or 0` over optional scalars. */
  function FirstAtom(a: Option<Atom>, b: Option<Atom>): Atom
  {
    if a.Some? && AtomTruthy(a.value) then a.value
    else if b.Some? && AtomTruthy(b.value) then b.value
    else Number(0.0)
  }

  /** Python `float(x)`; `parseFloat` converts a string, `None` when it raises. */
  function ToReal(a: Atom, parseFloat: string -> Option<real>): Option<real>
  {
    match a
    case Number(x) => Some(x)
    case Str(s) => parseFloat(s)
  }

  /** The number a string of decimal digits denotes. */
  function DecimalValue(s: string): nat
  {
    if s == [] then 0
    else
      var d := s[|s| - 1] as int - '0' as int;
      10 * DecimalValue(s[..|s| - 1]) + (if 0 <= d then d else 0)
  }

  /** The decimal digits of `n` (Python `str` of a non-negative int): they
      denote `n` and have no leading zero. */
  function NatText(n: nat): (r: string)
    ensures |r| >= 1
    ensures forall i :: 0 <= i < |r| ==> '0' <= r[i] <= '9'
    ensures DecimalValue(r) == n
    ensures |r| > 1 ==> r[0] != '0'
    decreases n
  {
    if n < 10 then Digit(n)
    else
      var p := NatText(n / 10);
      var r := p + Digit(n % 10);
      assert r[..|r| - 1] == p;
      r
  }

  /** The id of the `i`-th document: `ids[i]`, or `"prod_{i}"` past the end. */
  function IdAt(ids: seq<string>, i: nat): string
  {
    if i < |ids| then ids[i] else "prod_" + NatText(i)
  }

  /** The keywords searched for in a description, in order. */
  const CommonFeatures: seq<string> :=
    ["wireless", "bluetooth", "portable", "waterproof", "noise cancellation",
     "gaming", "smart", "led", "battery", "rechargeable"]

  /** The words of `words` that occur in `d`, in the order of `words`. */
  function KeywordsIn(d: string, words: seq<string>): (r: seq<string>)
    ensures |r| <= |words|
    ensures forall w :: w in r <==> w in words && Contains(d, w)
    ensures SubsequenceOf(r, words)
  {
    if words == [] then []
    else
      var init := words[..|words| - 1];
      var w := words[|words| - 1];
      assert words == init + [w];
      var found := KeywordsIn(d, init);
      if Contains(d, w) then
        assert (found + [w])[..|found|] == found;
        found + [w]
      else
        found
  }

  /** The category the features start with: the metadata's, else the document's. */
  function FeatureCategory(doc: Doc, meta: Meta): Option<string>
  {
    if meta.category.Some? && meta.category.value != "" then meta.category
    else if doc.category.Some? && doc.category.value != "" then doc.category
    else None
  }

  /** `_extract_features_from_doc`, stated as a function: the category in
      lower case with spaces turned to dashes, when there is one, then the
      keywords found in the lower-cased description. */
  function DocFeatures(doc: Doc, meta: Meta): (r: seq<string>)
    ensures |r| <= 11
    ensures forall i :: 0 <= i < |r| && (i > 0 || FeatureCategory(doc, meta).None?) ==> r[i] in CommonFeatures
  {
    var cat := FeatureCategory(doc, meta);
    (if cat.Some? then [ReplaceChar(Lower(cat.value), ' ', '-')] else [])
    + KeywordsIn(Lower(FirstText([doc.description], "")), CommonFeatures)
  }

  /** The category comes first, each keyword at most once, and a keyword is
      listed exactly when the description mentions it, whatever its case. */
  lemma DocFeaturesShape(doc: Doc, meta: Meta)
    ensures var fs := DocFeatures(doc, meta);
            var cat := FeatureCategory(doc, meta);
            var d := Lower(FirstText([doc.description], ""));
            && |fs| <= 11
            && (cat.Some? ==> fs[0] == ReplaceChar(Lower(cat.value), ' ', '-'))
            && (cat.Some? ==> fs[1..] == KeywordsIn(d, CommonFeatures))
            && (cat.None? ==> fs == KeywordsIn(d, CommonFeatures))
            && (cat.None? ==> forall w :: w in fs <==> w in CommonFeatures && Contains(d, w))
  {
  }

  /** `_extract_features_from_doc`: the category, then a loop over the
      keyword list. */
  method ExtractFeaturesFromDoc(doc: Doc, meta: Meta) returns (features: seq<string>)
    ensures features == DocFeatures(doc, meta)
  {
    features := [];
    var category := FeatureCategory(doc, meta);
    if category.Some? {
      features := features + [ReplaceChar(Lower(category.value), ' ', '-')];
    }
    var description := Lower(FirstText([doc.description], ""));
    var found := KeywordScan(description, CommonFeatures);
    features := features + found;
  }

  /** `for feat in words: if feat in description: features.append(feat)`. */
  method KeywordScan(description: string, words: seq<string>) returns (found: seq<string>)
    ensures found == KeywordsIn(description, words)
  {
    found := [];
    var i := 0;
    while i < |words|
      invariant 0 <= i <= |words|
      invariant found == KeywordsIn(description, words[..i])
    {
      assert words[..i + 1][..i] == words[..i];
      if Contains(description, words[i]) {
        found := found + [words[i]];
      }
      i := i + 1;
    }
    assert words[..|words|] == words;
  }

  /** The stored document as an object: the decoded JSON text, the object
      itself, or `None` when decoding raises or the value is not an object. */
  function DocOf(raw: RawDoc, parse: string -> Option<Doc>): Option<Doc>
  {
    match raw
    case DocText(t) => parse(t)
    case DocObject(d) => Some(d)
    case DocOther => None
  }

  /** `metadatas[i] if i < len(metadatas) else {}`. */
  function MetaAt(metas: seq<Meta>, i: nat): Meta
  {
    if i < |metas| then metas[i] else NoMeta
  }

  /** One document as a product, or `None` when its conversion raises (the
      JSON text does not decode to an object, the value is not an object, or
      a price or rating does not convert to a float). Each field comes from
      the first source that holds it: the name from `name`, `title`,
      `product_name`, else `"Unknown Product"`; category and brand from the
      metadata, then the document, else `"General"` and `"Unknown Brand"`. */
  function Convert(i: nat, raw: RawDoc, metas: seq<Meta>, ids: seq<string>,
                   parse: string -> Option<Doc>, parseFloat: string -> Option<real>): (r: Option<Product>)
    ensures r.Some? <==> && DocOf(raw, parse).Some?
                         && ToReal(FirstAtom(MetaAt(metas, i).price, DocOf(raw, parse).value.price), parseFloat).Some?
                         && ToReal(FirstAtom(MetaAt(metas, i).rating, DocOf(raw, parse).value.rating), parseFloat).Some?
    ensures r.Some? ==> var d, m := DocOf(raw, parse).value, MetaAt(metas, i);
                        && r.value.id == IdAt(ids, i)
                        && r.value.name == FirstText([d.name, d.title, d.productName], "Unknown Product")
                        && r.value.category == FirstText([m.category, d.category], "General")
                        && r.value.brand == FirstText([m.brand, d.brand], "Unknown Brand")
                        && r.value.price == ToReal(FirstAtom(m.price, d.price), parseFloat).value
                        && r.value.rating == ToReal(FirstAtom(m.rating, d.rating), parseFloat).value
                        && r.value.features == DocFeatures(d, m)
                        && r.value.description == FirstText([d.description], "")
    ensures r.Some? ==> r.value.name != "" && r.value.category != "" && r.value.brand != ""
  {
    var doc := DocOf(raw, parse);
    if doc.None? then None
    else
      var d := doc.value;
      var meta := MetaAt(metas, i);
      var price := ToReal(FirstAtom(meta.price, d.price), parseFloat);
      var rating := ToReal(FirstAtom(meta.rating, d.rating), parseFloat);
      if price.None? || rating.None? then None
      else Some(Product(
        IdAt(ids, i),
        FirstText([d.name, d.title, d.productName], "Unknown Product"),
        FirstText([meta.category, d.category], "General"),
        FirstText([meta.brand, d.brand], "Unknown Brand"),
        price.value,
        rating.value,
        DocFeatures(d, meta),
        FirstText([d.description], "")))
  }

  /** The outcome of converting each of the first `n` documents, at its own
      index. */
  function Conversions(docs: seq<RawDoc>, n: nat, metas: seq<Meta>, ids: seq<string>,
                       parse: string -> Option<Doc>, parseFloat: string -> Option<real>): (os: seq<Option<Product>>)
    requires n <= |docs|
    ensures |os| == n
  {
    if n == 0 then []
    else Conversions(docs, n - 1, metas, ids, parse, parseFloat) + [Convert(n - 1, docs[n - 1], metas, ids, parse, parseFloat)]
  }

  lemma {:induction false} ConversionAt(docs: seq<RawDoc>, n: nat, metas: seq<Meta>, ids: seq<string>,
                                        parse: string -> Option<Doc>, parseFloat: string -> Option<real>, i: nat)
    requires i < n <= |docs|
    ensures Conversions(docs, n, metas, ids, parse, parseFloat)[i] == Convert(i, docs[i], metas, ids, parse, parseFloat)
  {
    if i < n - 1 {
      ConversionAt(docs, n - 1, metas, ids, parse, parseFloat, i);
    }
  }

  /** The products among the first `n` conversions, in order, skipping the
      conversions that raised. */
  function ConvertedPrefix(os: seq<Option<Product>>, n: nat): (r: seq<Product>)
    requires n <= |os|
    ensures |r| <= n
  {
    if n == 0 then []
    else
      var init := ConvertedPrefix(os, n - 1);
      match os[n - 1]
      case Some(p) => init + [p]
      case None => init
  }

  /** One more conversion appends its product, or nothing when it raised. */
  lemma ConvertedPrefixStep(os: seq<Option<Product>>, i: nat, o: Option<Product>)
    requires i < |os| && os[i] == o
    ensures ConvertedPrefix(os, i + 1) == ConvertedPrefix(os, i) + (if o.Some? then [o.value] else [])
  {
  }

  /** Every product kept comes from a conversion that did not raise. */
  lemma {:induction false} ConvertedFrom(os: seq<Option<Product>>, n: nat, p: Product)
    requires n <= |os|
    requires p in ConvertedPrefix(os, n)
    ensures exists i :: 0 <= i < n && os[i] == Some(p)
  {
    var init := ConvertedPrefix(os, n - 1);
    if p in init {
      ConvertedFrom(os, n - 1, p);
      var i :| 0 <= i < n - 1 && os[i] == Some(p);
      assert 0 <= i < n && os[i] == Some(p);
    } else {
      assert os[n - 1] == Some(p);
    }
  }

  /** The documents, metadata and ids of the first query, with the fallbacks
      of `_transform_results` for missing metadata and ids. */
  predicate HasDocuments(results: ChromaResults)
  {
    results.documents.Some? && results.documents.value != [] && results.documents.value[0] != []
  }

  function MetasOf(results: ChromaResults): seq<Meta>
  {
    if results.metadatas.Some? && results.metadatas.value != [] then results.metadatas.value[0] else []
  }

  function IdsOf(results: ChromaResults): seq<string>
  {
    if results.ids.Some? && results.ids.value != [] then results.ids.value[0] else []
  }

  /** `_transform_results`, stated as a function. */
  function Transformed(results: ChromaResults, parse: string -> Option<Doc>,
                       parseFloat: string -> Option<real>): (r: seq<Product>)
    ensures !HasDocuments(results) ==> r == []
    ensures HasDocuments(results) ==> |r| <= |results.documents.value[0]|
  {
    if !HasDocuments(results) then []
    else
      var docs := results.documents.value[0];
      var os := Conversions(docs, |docs|, MetasOf(results), IdsOf(results), parse, parseFloat);
      ConvertedPrefix(os, |os|)
  }

  /** Every product has a name, a category and a brand. */
  lemma TransformedProducts(results: ChromaResults, parse: string -> Option<Doc>,
                            parseFloat: string -> Option<real>)
    ensures forall p :: p in Transformed(results, parse, parseFloat) ==>
              p.name != "" && p.category != "" && p.brand != ""
  {
    if HasDocuments(results) {
      var docs := results.documents.value[0];
      var os := Conversions(docs, |docs|, MetasOf(results), IdsOf(results), parse, parseFloat);
      forall p | p in ConvertedPrefix(os, |os|)
        ensures p.name != "" && p.category != "" && p.brand != ""
      {
        ConvertedFrom(os, |os|, p);
        var i :| 0 <= i < |os| && os[i] == Some(p);
        ConversionAt(docs, |docs|, MetasOf(results), IdsOf(results), parse, parseFloat, i);
      }
    }
  }

  /** When no conversion raises, there is one product per document, in
      order. */
  lemma {:induction false} AllConverted(os: seq<Option<Product>>, n: nat)
    requires n <= |os|
    requires forall i :: 0 <= i < n ==> os[i].Some?
    ensures var r := ConvertedPrefix(os, n);
            |r| == n && forall i :: 0 <= i < n ==> r[i] == os[i].value
  {
    if n > 0 {
      AllConverted(os, n - 1);
    }
  }

  /** When every document converts, product `i` is document `i` converted,
      with the document's id or `prod_{i}`. */
  lemma AllDocumentsConverted(results: ChromaResults, parse: string -> Option<Doc>,
                              parseFloat: string -> Option<real>)
    requires HasDocuments(results)
    requires var docs := results.documents.value[0];
             forall i :: 0 <= i < |docs| ==>
               Convert(i, docs[i], MetasOf(results), IdsOf(results), parse, parseFloat).Some?
    ensures var docs := results.documents.value[0];
            var r := Transformed(results, parse, parseFloat);
            |r| == |docs| &&
            forall i :: 0 <= i < |docs| ==>
              r[i] == Convert(i, docs[i], MetasOf(results), IdsOf(results), parse, parseFloat).value &&
              r[i].id == IdAt(IdsOf(results), i)
  {
    var docs := results.documents.value[0];
    var os := Conversions(docs, |docs|, MetasOf(results), IdsOf(results), parse, parseFloat);
    forall i | 0 <= i < |docs|
      ensures os[i] == Convert(i, docs[i], MetasOf(results), IdsOf(results), parse, parseFloat)
    {
      ConversionAt(docs, |docs|, MetasOf(results), IdsOf(results), parse, parseFloat, i);
    }
    AllConverted(os, |os|);
  }

  /** The body of the `try` block of `_transform_results` for document `i`:
      `None` when it raises. */
  method ConvertDocument(i: nat, raw: RawDoc, metas: seq<Meta>, ids: seq<string>,
                         parse: string -> Option<Doc>, parseFloat: string -> Option<real>)
    returns (product: Option<Product>)
    ensures product == Convert(i, raw, metas, ids, parse, parseFloat)
  {
    var doc: Option<Doc>;
    match raw {
      case DocText(t) => doc := parse(t);
      case DocObject(d) => doc := Some(d);
      case DocOther => doc := None;
    }
    if doc.None? {
      return None;
    }
    var d := doc.value;
    var metadata := if i < |metas| then metas[i] else NoMeta;
    var price := ToReal(FirstAtom(metadata.price, d.price), parseFloat);
    var rating := ToReal(FirstAtom(metadata.rating, d.rating), parseFloat);
    if price.None? || rating.None? {
      return None;
    }
    var features := ExtractFeaturesFromDoc(d, metadata);
    product := Some(Product(
      IdAt(ids, i),
      FirstText([d.name, d.title, d.productName], "Unknown Product"),
      FirstText([metadata.category, d.category], "General"),
      FirstText([metadata.brand, d.brand], "Unknown Brand"),
      price.value,
      rating.value,
      features,
      FirstText([d.description], "")));
  }

  /** `_transform_results`: a loop over the documents of the first query
      appending products and skipping the ones whose conversion raises. */
  method TransformResults(results: ChromaResults, parse: string -> Option<Doc>,
                          parseFloat: string -> Option<real>) returns (products: seq<Product>)
    ensures products == Transformed(results, parse, parseFloat)
  {
    products := [];
    if !HasDocuments(results) {
      return;
    }
    var documents := results.documents.value[0];
    var metadatas := MetasOf(results);
    var ids := IdsOf(results);
    ghost var os := Conversions(documents, |documents|, metadatas, ids, parse, parseFloat);
    var i := 0;
    while i < |documents|
      invariant 0 <= i <= |documents|
      invariant products == ConvertedPrefix(os, i)
    {
      var product := ConvertDocument(i, documents[i], metadatas, ids, parse, parseFloat);
      ConversionAt(documents, |documents|, metadatas, ids, parse, parseFloat, i);
      ConvertedPrefixStep(os, i, product);
      if product.Some? {
        products := products + [product.value];
      }
      i := i + 1;
    }
  }

  /** A failure of `_safe_json_loads`. */
  datatype JsonError = NoJsonObject | InvalidJson

  /** The code-fence removal: a leading three backticks (with an optional
      `json`), a trailing three backticks, then whitespace. */
  function StripFences(t: string): (r: string)
    ensures |r| <= |t|
    ensures Strip(r) == r
  {
    var a := if StartsWith(t, "```json") then t[7..] else if StartsWith(t, "```") then t[3..] else t;
    var b := if EndsWith(a, "```") then a[..|a| - 3] else a;
    StripIdempotent(b);
    Strip(b)
  }

  /** The text `_safe_json_loads` decodes: stripped, and without code fences
      when it starts with three backticks. */
  function Unfenced(text: string): string
  {
    var t0 := Strip(text);
    if StartsWith(t0, "```") then StripFences(t0) else t0
  }

  /** Decoding the cleaned text `t`, and on failure the span from its first `{`
      to its last `}`. */
  function DecodeCleaned<T>(t: string, parse: string -> Option<T>): Result<T, JsonError>
  {
    match parse(t)
    case Some(v) => Ok(v)
    case None =>
      match BraceSpan(t)
      case None => Err(NoJsonObject)
      case Some(span) =>
        match parse(span)
        case Some(v) => Ok(v)
        case None => Err(InvalidJson)
  }

  /** `_safe_json_loads`: strip, remove code fences, decode; on failure decode
      the span from the first `{` to the last `}`. */
  function SafeJsonLoads<T>(text: string, parse: string -> Option<T>): (r: Result<T, JsonError>)
    ensures parse(Unfenced(text)).Some? ==> r == Ok(parse(Unfenced(text)).value)
    ensures r == Err(NoJsonObject) <==> parse(Unfenced(text)).None? && !HasBracePair(Unfenced(text))
  {
    DecodeCleaned(Unfenced(text), parse)
  }

  /** Removing the fences of a JSON code block leaves its stripped content. */
  lemma FencesRemoved(s: string)
    ensures Strip("```json" + s + "```") == "```json" + s + "```"
    ensures StripFences("```json" + s + "```") == Strip(s)
  {
    var fenced := "```json" + s + "```";
    StripNoop(fenced);
    assert StartsWith(fenced, "```json");
    var a := fenced[7..];
    assert a == s + "```";
    assert EndsWith(a, "```");
    assert a[..|a| - 3] == s;
  }

  /** A reply fenced as a JSON code block decodes like its content. */
  lemma FencedReplyUnwrapped<T>(s: string, parse: string -> Option<T>)
    requires !StartsWith(Strip(s), "```")
    ensures SafeJsonLoads("```json" + s + "```", parse) == SafeJsonLoads(Strip(s), parse)
  {
    var fenced := "```json" + s + "```";
    FencesRemoved(s);
    assert StartsWith(fenced, "```");
    assert Unfenced(fenced) == Strip(s);
    StripIdempotent(s);
    assert Unfenced(Strip(s)) == Strip(s);
  }

  /** Stripping cannot create a `{ ... }` span. */
  lemma StripNoBraces(s: string)
    requires !HasBracePair(s)
    ensures !HasBracePair(Strip(s))
  {
    NoBracePairInSlice(s, LeadingSpaces(s), LeadingSpaces(s) + |Strip(s)|);
  }

  /** Removing code fences cannot create a `{ ... }` span. */
  lemma StripFencesNoBraces(t: string)
    requires !HasBracePair(t)
    ensures !HasBracePair(StripFences(t))
  {
    var lo := if StartsWith(t, "```json") then 7 else if StartsWith(t, "```") then 3 else 0;
    var a := t[lo..];
    var hi := if EndsWith(a, "```") then |t| - 3 else |t|;
    assert (if EndsWith(a, "```") then a[..|a| - 3] else a) == t[lo..hi];
    NoBracePairInSlice(t, lo, hi);
    StripNoBraces(t[lo..hi]);
  }

  /** Without any `{ ... }` span and with an undecodable text the result is
      the "no JSON object" error. */
  lemma NoBracesNoObject<T>(text: string, parse: string -> Option<T>)
    requires !HasBracePair(text)
    requires forall t :: parse(t).None?
    ensures SafeJsonLoads(text, parse) == Err(NoJsonObject)
  {
    var t0 := Strip(text);
    StripNoBraces(text);
    if StartsWith(t0, "```") {
      StripFencesNoBraces(t0);
    }
    assert !HasBracePair(Unfenced(text));
  }
}
