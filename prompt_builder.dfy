/** Prompt assembly (`agent/prompt_builder.py`): the rule-based product score,
    the filtering and ranking of candidate products, and the text sections of
    the final recommendation prompt. The system prompt, the product catalogue
    and the JSON rendering of products and numbers are parameters. */
module PromptBuilding {
  import opened Types
  import opened Text

  /** A set hard filter the product violates: below the minimum price, above
      the maximum price, outside the included brands, among the excluded
      brands, or below the minimum rating. */
  predicate Violates(p: Product, f: Filters)
    requires WellFormed(f)
  {
    || (IsSet(f, PriceMin) && p.price < NumberAt(f, PriceMin))
    || (IsSet(f, PriceMax) && p.price > NumberAt(f, PriceMax))
    || (IsSet(f, BrandInclude) && p.brand !in TextsAt(f, BrandInclude))
    || (IsSet(f, BrandExclude) && p.brand in TextsAt(f, BrandExclude))
    || (IsSet(f, RatingMin) && p.rating < NumberAt(f, RatingMin))
  }

  /** Each string lower-cased. */
  function Lowered(s: seq<string>): (r: seq<string>)
    ensures |r| == |s|
    ensures forall i :: 0 <= i < |s| ==> r[i] == Lower(s[i])
  {
    seq(|s|, i requires 0 <= i < |s| => Lower(s[i]))
  }

  /** `any(q in pf for pf in pfs)`. */
  predicate AnyContains(pfs: seq<string>, q: string)
  {
    exists j :: 0 <= j < |pfs| && Contains(pfs[j], q)
  }

  /** The number of requested features that occur in some product feature. */
  function MatchCount(qs: seq<string>, pfs: seq<string>): (n: nat)
    ensures n <= |qs|
    ensures n == 0 <==> forall i :: 0 <= i < |qs| ==> !AnyContains(pfs, qs[i])
    ensures n == |qs| <==> forall i :: 0 <= i < |qs| ==> AnyContains(pfs, qs[i])
  {
    if qs == [] then 0
    else
      var init := qs[..|qs| - 1];
      assert forall i :: 0 <= i < |init| ==> init[i] == qs[i];
      MatchCount(init, pfs) + (if AnyContains(pfs, qs[|qs| - 1]) then 1 else 0)
  }

  /** The category factor: one half when a category is set and is not a
      case-insensitive substring of the product's category. */
  function CategoryFactor(p: Product, f: Filters): real
    requires WellFormed(f)
  {
    if IsSet(f, Category) && !Contains(Lower(p.category), Lower(TextAt(f, Category))) then 0.5 else 1.0
  }

  /** The matched requested features, compared case-insensitively. */
  function FeatureMatches(p: Product, f: Filters): nat
    requires WellFormed(f)
  {
    MatchCount(Lowered(TextsAt(f, Features)), Lowered(p.features))
  }

  /** The feature factor: 0.3 when features are requested and none matches,
      otherwise 1 + 0.2 per match. */
  function FeatureFactor(p: Product, f: Filters): real
    requires WellFormed(f)
  {
    if !IsSet(f, Features) then 1.0
    else if FeatureMatches(p, f) == 0 then 0.3
    else 1.0 + FeatureMatches(p, f) as real * 0.2
  }

  /** The score `_match_score` computes, stated as a formula. */
  function Score(p: Product, f: Filters): (r: real)
    requires WellFormed(f)
    ensures r == 0.0 <==> Violates(p, f)
    ensures 0.0 <= r
  {
    if Violates(p, f) then 0.0
    else
      var c := CategoryFactor(p, f);
      var x := FeatureFactor(p, f);
      assert 0.0 < c * x by {
        assert 0.5 <= c && 0.3 <= x;
      }
      c * x
  }

  /** `_match_score`: early returns for the hard filters, a local score scaled
      by the category check and by the count of matched features. */
  method MatchScore(p: Product, f: Filters) returns (score: real)
    requires WellFormed(f)
    ensures score == Score(p, f)
  {
    score := 1.0;
    if IsSet(f, PriceMin) && p.price < NumberAt(f, PriceMin) {
      return 0.0;
    }
    if IsSet(f, PriceMax) && p.price > NumberAt(f, PriceMax) {
      return 0.0;
    }
    if IsSet(f, BrandInclude) && p.brand !in TextsAt(f, BrandInclude) {
      return 0.0;
    }
    if IsSet(f, BrandExclude) && p.brand in TextsAt(f, BrandExclude) {
      return 0.0;
    }
    if IsSet(f, Category) && !Contains(Lower(p.category), Lower(TextAt(f, Category))) {
      score := score * 0.5;
    }
    if IsSet(f, RatingMin) && p.rating < NumberAt(f, RatingMin) {
      return 0.0;
    }
    assert !Violates(p, f);
    assert score == CategoryFactor(p, f);
    var factor := FeatureScale(p, f);
    score := score * factor;
  }

  /** The feature step of `_match_score`: the factor is 0.3 when no requested
      feature matches, otherwise 1 + 0.2 per match. */
  method FeatureScale(p: Product, f: Filters) returns (factor: real)
    requires WellFormed(f)
    ensures factor == FeatureFactor(p, f)
  {
    factor := 1.0;
    if IsSet(f, Features) {
      var matches := CountMatches(Lowered(TextsAt(f, Features)), Lowered(p.features));
      if matches == 0 {
        factor := 0.3;
      } else {
        factor := 1.0 + matches as real * 0.2;
      }
    }
  }

  /** `sum(1 for q in qs if any(q in pf for pf in pfs))`. */
  method CountMatches(qs: seq<string>, pfs: seq<string>) returns (matches: nat)
    ensures matches == MatchCount(qs, pfs)
  {
    matches := 0;
    var i := 0;
    while i < |qs|
      invariant 0 <= i <= |qs|
      invariant matches == MatchCount(qs[..i], pfs)
    {
      if AnyContains(pfs, qs[i]) {
        matches := matches + 1;
      }
      assert qs[..i + 1][..i] == qs[..i];
      i := i + 1;
    }
    assert qs[..|qs|] == qs;
  }

  /** A product that violates no hard filter scores between 0.15 (wrong
      category, no feature matched) and 1 + 0.2 per requested feature. */
  lemma ScoreBounds(p: Product, f: Filters)
    requires WellFormed(f)
    ensures !Violates(p, f) ==>
              0.15 <= Score(p, f) <= 1.0 + 0.2 * |TextsAt(f, Features)| as real
  {
    if !Violates(p, f) {
      var c := CategoryFactor(p, f);
      var x := FeatureFactor(p, f);
      assert 0.5 <= c <= 1.0;
      assert 0.3 <= x <= 1.0 + 0.2 * |TextsAt(f, Features)| as real;
      assert 0.15 <= c * x by {
        assert c * x - 0.15 == (c - 0.5) * x + 0.5 * (x - 0.3);
        assert (c - 0.5) * x >= 0.0;
      }
      assert c * x <= x by {
        assert x - c * x == (1.0 - c) * x;
        assert (1.0 - c) * x >= 0.0;
      }
    }
  }

  /** The seven filter keys in the order the prompt lists them. */
  const FilterOrder: seq<string> := [PriceMin, PriceMax, BrandInclude, BrandExclude, Category, Features, RatingMin]

  /** No filter key holds a truthy value. */
  predicate NoneSet(f: Filters)
  {
    forall k :: k in FilterOrder ==> !IsSet(f, k)
  }

  /** With no truthy filter the score is exactly 1.0. */
  lemma NoFiltersScoreOne(p: Product, f: Filters)
    requires WellFormed(f)
    requires NoneSet(f)
    ensures Score(p, f) == 1.0
  {
    assert !IsSet(f, PriceMin) && !IsSet(f, PriceMax) && !IsSet(f, BrandInclude) && !IsSet(f, BrandExclude);
    assert !IsSet(f, Category) && !IsSet(f, Features) && !IsSet(f, RatingMin);
  }

  /** A bound of zero is falsy, so it scores exactly like an unset bound. */
  lemma ZeroBoundIgnored(p: Product, f: Filters, k: string)
    requires WellFormed(f)
    requires k == PriceMin || k == PriceMax || k == RatingMin
    ensures WellFormed(f[k := One(Number(0.0))]) && WellFormed(f[k := Null])
    ensures Score(p, f[k := One(Number(0.0))]) == Score(p, f[k := Null])
  {
    var z := f[k := One(Number(0.0))];
    var n := f[k := Null];
    assert forall key :: key != k ==> Get(z, key) == Get(f, key) == Get(n, key);
    assert !IsSet(z, k) && !IsSet(n, k);
  }

  /** In particular a maximum price of zero lets every product through, with
      the full score, whatever its price. */
  lemma ZeroPriceMaxAdmitsAll(p: Product)
    ensures WellFormed(map[PriceMax := One(Number(0.0))])
    ensures Score(p, map[PriceMax := One(Number(0.0))]) == 1.0
  {
    var f := map[PriceMax := One(Number(0.0))];
    assert forall k :: k != PriceMax ==> Get(f, k) == Null;
    NoFiltersScoreOne(p, f);
  }

  /** A product paired with its score and its index in the input list. */
  datatype Scored = Scored(score: real, pos: nat, product: Product)

  /** The order of a stable sort by descending score: a higher score first,
      and on a tie the earlier input first. */
  predicate Before(a: Scored, b: Scored)
  {
    a.score > b.score || (a.score == b.score && a.pos < b.pos)
  }

  predicate SortedDesc(s: seq<Scored>)
  {
    forall i, j :: 0 <= i < j < |s| ==> Before(s[i], s[j])
  }

  /** Insert `x` after every element that goes before it. */
  function Insert(x: Scored, s: seq<Scored>): (r: seq<Scored>)
    ensures multiset(r) == multiset(s) + multiset{x}
  {
    if s == [] || Before(x, s[0]) then [x] + s
    else
      assert s == [s[0]] + s[1..];
      [s[0]] + Insert(x, s[1..])
  }

  lemma {:induction false} InsertSorted(x: Scored, s: seq<Scored>)
    requires SortedDesc(s)
    requires forall y :: y in s ==> y.pos != x.pos
    ensures SortedDesc(Insert(x, s))
  {
    if s == [] || Before(x, s[0]) {
      var r := [x] + s;
      forall i, j | 0 <= i < j < |r|
        ensures Before(r[i], r[j])
      {
        if i == 0 && j > 1 {
          assert Before(s[0], s[j - 1]);
        }
      }
    } else {
      assert Before(s[0], x);
      var t := s[1..];
      assert SortedDesc(t);
      InsertSorted(x, t);
      var it := Insert(x, t);
      forall j | 0 <= j < |it|
        ensures Before(s[0], it[j])
      {
        assert it[j] in multiset(it);
        assert it[j] in multiset(t) || it[j] == x;
        if it[j] != x {
          assert it[j] in t;
          var m :| 0 <= m < |t| && t[m] == it[j];
          assert s[m + 1] == it[j];
        }
      }
      var r := [s[0]] + it;
      forall i, j | 0 <= i < j < |r|
        ensures Before(r[i], r[j])
      {
        if i == 0 {
          assert r[j] == it[j - 1];
        } else {
          assert r[i] == it[i - 1] && r[j] == it[j - 1];
        }
      }
    }
  }

  /** Python's stable `sort(key=score, reverse=True)`, as an insertion sort. */
  function SortByScore(s: seq<Scored>): (r: seq<Scored>)
    ensures multiset(r) == multiset(s)
  {
    if s == [] then []
    else
      assert s == s[..|s| - 1] + [s[|s| - 1]];
      Insert(s[|s| - 1], SortByScore(s[..|s| - 1]))
  }

  /** With distinct input positions, the sorted list is ordered by descending
      score, ties in input order. */
  lemma {:induction false} SortByScoreSorted(s: seq<Scored>)
    requires forall i, j :: 0 <= i < j < |s| ==> s[i].pos < s[j].pos
    ensures SortedDesc(SortByScore(s))
  {
    if s != [] {
      var init := s[..|s| - 1];
      var x := s[|s| - 1];
      SortByScoreSorted(init);
      var sorted := SortByScore(init);
      forall y | y in sorted
        ensures y.pos != x.pos
      {
        assert y in multiset(sorted);
        assert y in init;
      }
      InsertSorted(x, sorted);
    }
  }

  /** The products with a positive score, paired with that score and their
      input index, in input order. */
  function Positives(products: seq<Product>, f: Filters): (r: seq<Scored>)
    requires WellFormed(f)
    ensures |r| <= |products|
  {
    if products == [] then []
    else
      var n := |products| - 1;
      var init := Positives(products[..n], f);
      var s := Score(products[n], f);
      if s > 0.0 then init + [Scored(s, n, products[n])] else init
  }

  /** Exactly the products with a positive score, each with its score and
      index, in input order. */
  lemma {:induction false} PositivesShape(products: seq<Product>, f: Filters)
    requires WellFormed(f)
    ensures var r := Positives(products, f);
            && (forall x :: x in r <==>
                  x.pos < |products| && x.product == products[x.pos]
                  && x.score == Score(x.product, f) && x.score > 0.0)
            && (forall i, j :: 0 <= i < j < |r| ==> r[i].pos < r[j].pos)
  {
    if products != [] {
      var n := |products| - 1;
      var front := products[..n];
      PositivesShape(front, f);
      var init := Positives(front, f);
      var r := Positives(products, f);
      forall x
        ensures x in init <==> x.pos < n && x.product == products[x.pos]
                               && x.score == Score(x.product, f) && x.score > 0.0
      {
        if x.pos < n {
          assert front[x.pos] == products[x.pos];
        }
      }
      forall i | 0 <= i < |init|
        ensures init[i].pos < n
      {
        assert init[i] in init;
      }
    }
  }

  /** One more product extends the positives by its entry when its score is
      positive. */
  lemma PositivesStep(products: seq<Product>, i: nat, f: Filters)
    requires WellFormed(f) && i < |products|
    ensures var s := Score(products[i], f);
            Positives(products[..i + 1], f)
              == Positives(products[..i], f) + (if s > 0.0 then [Scored(s, i, products[i])] else [])
  {
    assert products[..i + 1][..i] == products[..i];
  }

  function ProductsOf(s: seq<Scored>): (r: seq<Product>)
    ensures |r| == |s|
    ensures forall i :: 0 <= i < |s| ==> r[i] == s[i].product
  {
    seq(|s|, i requires 0 <= i < |s| => s[i].product)
  }

  /** The positive-score products sorted as `_apply_filters_to_products` sorts them. */
  function RankedScored(products: seq<Product>, f: Filters): seq<Scored>
    requires WellFormed(f)
  {
    SortByScore(Positives(products, f))
  }

  /** The products `_apply_filters_to_products` returns. */
  function Ranked(products: seq<Product>, f: Filters): (r: seq<Product>)
    requires WellFormed(f)
    ensures |r| <= |products|
    ensures forall i :: 0 <= i < |r| ==> r[i] in products && Score(r[i], f) > 0.0
  {
    RankedOrder(products, f);
    ProductsOf(RankedScored(products, f))
  }

  /** The ranking keeps exactly the products with a positive score, each once,
      in descending score order with ties in input order. */
  lemma RankedOrder(products: seq<Product>, f: Filters)
    requires WellFormed(f)
    ensures var rs := RankedScored(products, f);
            && |rs| <= |products|
            && (forall i :: 0 <= i < |rs| ==>
                  rs[i].pos < |products| && rs[i].product == products[rs[i].pos]
                  && rs[i].score == Score(products[rs[i].pos], f) > 0.0)
            && (forall k :: 0 <= k < |products| && Score(products[k], f) > 0.0 ==>
                  Scored(Score(products[k], f), k, products[k]) in rs)
            && (forall i, j :: 0 <= i < j < |rs| ==>
                  rs[i].score > rs[j].score || (rs[i].score == rs[j].score && rs[i].pos < rs[j].pos))
  {
    var ps := Positives(products, f);
    var rs := RankedScored(products, f);
    PositivesShape(products, f);
    SortByScoreSorted(ps);
    assert SortedDesc(rs);
    RankedSameEntries(ps);
  }

  /** Sorting keeps the entries: the same length, and the same members. */
  lemma RankedSameEntries(ps: seq<Scored>)
    ensures |SortByScore(ps)| == |ps|
    ensures forall x :: x in SortByScore(ps) <==> x in ps
  {
    var rs := SortByScore(ps);
    assert |rs| == |multiset(rs)| == |multiset(ps)| == |ps|;
    forall x
      ensures x in rs <==> x in ps
    {
      assert x in rs <==> x in multiset(rs);
      assert x in ps <==> x in multiset(ps);
    }
  }

  /** `_apply_filters_to_products`: score every product, keep the positive
      ones, sort them by descending score. */
  method ApplyFiltersToProducts(products: seq<Product>, f: Filters) returns (r: seq<Product>)
    requires WellFormed(f)
    ensures r == Ranked(products, f)
  {
    var filtered: seq<Scored> := [];
    var i := 0;
    while i < |products|
      invariant 0 <= i <= |products|
      invariant filtered == Positives(products[..i], f)
    {
      var score := MatchScore(products[i], f);
      PositivesStep(products, i, f);
      if score > 0.0 {
        filtered := filtered + [Scored(score, i, products[i])];
      }
      i := i + 1;
    }
    assert products[..|products|] == products;
    r := ProductsOf(SortByScore(filtered));
  }

  /** The default `top_k` of `_get_top_products`. */
  const TopK: int := 10

  /** `_get_top_products`: the same scoring and sort over the whole catalogue,
      then the first `top_k` entries. */
  method GetTopProducts(catalog: seq<Product>, f: Filters, topK: int) returns (r: seq<Product>)
    requires WellFormed(f)
    ensures r == PySliceTo(Ranked(catalog, f), topK)
  {
    var ranked := ApplyFiltersToProducts(catalog, f);
    r := PySliceTo(ranked, topK);
  }

  /** The default top products are at most ten catalogue products, all with a
      positive score, in descending score order. */
  lemma TopProductsBounded(catalog: seq<Product>, f: Filters)
    requires WellFormed(f)
    ensures var top := PySliceTo(Ranked(catalog, f), TopK);
            && |top| <= 10
            && (forall i :: 0 <= i < |top| ==> top[i] in catalog && Score(top[i], f) > 0.0)
            && (forall i, j :: 0 <= i < j < |top| ==> Score(top[i], f) >= Score(top[j], f))
  {
    RankedOrder(catalog, f);
    var rs := RankedScored(catalog, f);
    var top := PySliceTo(Ranked(catalog, f), TopK);
    forall i | 0 <= i < |top|
      ensures top[i] == rs[i].product && top[i] in catalog
    {
      assert catalog[rs[i].pos] == top[i];
    }
  }

  /** The filter keys in `keys` that hold a truthy value, in order. */
  function SetKeys(f: Filters, keys: seq<string>): (r: seq<string>)
    ensures |r| <= |keys|
    ensures forall k :: k in r <==> k in keys && IsSet(f, k)
    ensures SubsequenceOf(r, keys)
  {
    if keys == [] then []
    else
      var rest := SetKeys(f, keys[1..]);
      assert keys == [keys[0]] + keys[1..];
      SubsequencePrepend(keys[0], rest, keys[1..]);
      if IsSet(f, keys[0]) then
        assert SubsequenceOf([keys[0]] + rest, keys);
        [keys[0]] + rest
      else
        assert SubsequenceOf(rest, keys);
        rest
  }

  /** The label that opens the prompt line of each filter key. */
  function Label(k: string): (r: string)
    ensures |r| > 0 && r[0] == '-'
  {
    if k == PriceMin then "- Minimum Price: $"
    else if k == PriceMax then "- Maximum Price: $"
    else if k == BrandInclude then "- Brands (include): "
    else if k == BrandExclude then "- Brands (exclude): "
    else if k == Category then "- Category: "
    else if k == Features then "- Features: "
    else "- Minimum Rating: "
  }

  /** The line of one truthy filter: its label, then the number (rendered by
      `show`, as Python renders a float), the category, or the list joined
      with ", ". */
  function KeyLine(f: Filters, k: string, show: real -> string): string
    requires WellFormed(f)
    requires k in FilterOrder && IsSet(f, k)
  {
    Label(k) + (if k == PriceMin || k == PriceMax || k == RatingMin then show(NumberAt(f, k))
                else if k == Category then TextAt(f, k)
                else Join(", ", TextsAt(f, k)))
  }

  /** The checks of `_format_filters`, one per key of `keys`, in order. */
  function FilterLines(f: Filters, keys: seq<string>, show: real -> string): (r: seq<string>)
    requires WellFormed(f)
    requires forall k :: k in keys ==> k in FilterOrder
    ensures |r| == |SetKeys(f, keys)|
  {
    if keys == [] then []
    else (if IsSet(f, keys[0]) then [KeyLine(f, keys[0], show)] else []) + FilterLines(f, keys[1..], show)
  }

  /** `_format_filters`. */
  function FormatFilters(f: Filters, show: real -> string): (r: string)
    requires WellFormed(f)
    ensures r == "No specific filters." <==> SetKeys(f, FilterOrder) == []
  {
    var lines := FilterLines(f, FilterOrder, show);
    FilterLinesInOrder(f, FilterOrder, show);
    if lines == [] then "No specific filters."
    else
      JoinStartsWithFirst("\n", lines);
      assert lines[0][0] == '-';
      assert Join("\n", lines)[0] == '-';
      Join("\n", lines)
  }

  /** The line of each key of `ks`, in order. */
  function KeyLines(f: Filters, ks: seq<string>, show: real -> string): (r: seq<string>)
    requires WellFormed(f)
    requires forall k :: k in ks ==> k in FilterOrder && IsSet(f, k)
    ensures |r| == |ks| && forall i :: 0 <= i < |ks| ==> r[i] == KeyLine(f, ks[i], show)
  {
    if ks == [] then []
    else
      var rest := KeyLines(f, ks[1..], show);
      var r := [KeyLine(f, ks[0], show)] + rest;
      assert forall i :: 1 <= i < |ks| ==> r[i] == rest[i - 1] && ks[i] == ks[1..][i - 1];
      r
  }

  /** `_format_filters` writes exactly one line per truthy filter, in the key
      order of `keys`. */
  lemma {:induction false} FilterLinesInOrder(f: Filters, keys: seq<string>, show: real -> string)
    requires WellFormed(f)
    requires forall k :: k in keys ==> k in FilterOrder
    ensures var lines := FilterLines(f, keys, show);
            var set_ := SetKeys(f, keys);
            lines == KeyLines(f, set_, show) &&
            |lines| == |set_| && forall i :: 0 <= i < |set_| ==> lines[i] == KeyLine(f, set_[i], show)
  {
    if keys != [] {
      FilterLinesInOrder(f, keys[1..], show);
      var rest := FilterLines(f, keys[1..], show);
      var restKeys := SetKeys(f, keys[1..]);
      if IsSet(f, keys[0]) {
        var ks := [keys[0]] + restKeys;
        assert SetKeys(f, keys) == ks;
        assert ks[1..] == restKeys;
        assert KeyLines(f, ks, show) == [KeyLine(f, keys[0], show)] + rest;
      } else {
        assert SetKeys(f, keys) == restKeys;
      }
    }
  }

  const AgentTag: string := "  Agent: "

  /** The lines of one turn numbered `n`: a header, the user line, and the
      agent line when the reply is non-empty, cut to 100 characters plus "...". */
  function TurnLines(t: Turn, n: nat): (lines: seq<string>)
    requires n < 10
    ensures |lines| == if t.agent != "" then 3 else 2
    ensures lines[0] == "Turn " + Digit(n) + ":" && lines[1] == "  User: " + t.user
    ensures t.agent != "" ==> lines[2] == AgentTag + Prefix(t.agent, 100) + "..."
    ensures forall i :: 0 <= i < |lines| && StartsWith(lines[i], AgentTag) ==>
              |lines[i]| <= |AgentTag| + 100 + 3 && EndsWith(lines[i], "...")
  {
    var head := ["Turn " + Digit(n) + ":", "  User: " + t.user];
    assert !StartsWith(head[0], AgentTag) && !StartsWith(head[1], AgentTag) by {
      assert head[0][0] == 'T' && head[1][2] == 'U';
    }
    head + (if t.agent != "" then [AgentTag + Prefix(t.agent, 100) + "..."] else [])
  }

  /** The lines of each turn, numbered from `start`. */
  function SummaryBlocks(turns: seq<Turn>, start: nat): (blocks: seq<seq<string>>)
    requires 1 <= start && start + |turns| <= 10
    ensures |blocks| == |turns|
    ensures forall i :: 0 <= i < |turns| ==> blocks[i] == TurnLines(turns[i], start + i)
  {
    if turns == [] then []
    else
      var rest := SummaryBlocks(turns[1..], start + 1);
      assert forall i :: 1 <= i < |turns| ==> turns[i] == turns[1..][i - 1];
      [TurnLines(turns[0], start)] + rest
  }

  /** Each turn's lines, numbered from `start`, one turn after the other. */
  function SummaryLines(turns: seq<Turn>, start: nat): seq<string>
    requires 1 <= start && start + |turns| <= 10
  {
    Flatten(SummaryBlocks(turns, start))
  }

  /** `_format_conversation_summary`: the placeholder exactly for an empty
      history, otherwise a text opening with the first shown turn's header. */
  function FormatConversationSummary(history: seq<Turn>): (r: string)
    ensures r == "No previous conversation." <==> history == []
    ensures history != [] ==> StartsWith(r, "Turn 1:")
  {
    if history == [] then "No previous conversation."
    else
      var blocks := SummaryBlocks(LastN(history, 3), 1);
      var lines := SummaryLines(LastN(history, 3), 1);
      assert lines == blocks[0] + Flatten(blocks[1..]);
      JoinStartsWithFirst("\n", lines);
      assert lines[0] == "Turn 1:";
      assert Join("\n", lines)[0] == 'T';
      Join("\n", lines)
  }

  /** A non-empty history is summarised by its last (at most three) turns, in
      order and numbered from 1: the lines of the `i`-th shown turn are
      `TurnLines` of that turn, with number `i + 1`, and nothing else is shown. */
  lemma SummaryShowsLastTurns(history: seq<Turn>)
    requires history != []
    ensures var recent := LastN(history, 3);
            var blocks := SummaryBlocks(recent, 1);
            var lines := Flatten(blocks);
            && FormatConversationSummary(history) == Join("\n", lines)
            && |recent| == (if |history| < 3 then |history| else 3)
            && (forall i :: 0 <= i < |recent| ==> recent[i] == history[|history| - |recent| + i])
            && |lines| == BlockOffset(blocks, |recent|)
            && (forall i :: 0 <= i < |recent| ==> HoldsAt(lines, TurnLines(recent[i], 1 + i), BlockOffset(blocks, i)))
  {
    var recent := LastN(history, 3);
    var blocks := SummaryBlocks(recent, 1);
    FlattenLength(blocks);
    forall i | 0 <= i < |recent|
      ensures HoldsAt(Flatten(blocks), TurnLines(recent[i], 1 + i), BlockOffset(blocks, i))
    {
      FlattenBlockAt(blocks, i);
    }
  }

  /** Each product's JSON dump, in order. */
  function Dumps(products: seq<Product>, dumps: Product -> string): (parts: seq<string>)
    ensures |parts| == |products|
    ensures forall i :: 0 <= i < |products| ==> parts[i] == dumps(products[i])
  {
    if products == [] then []
    else
      var rest := Dumps(products[1..], dumps);
      assert forall i :: 1 <= i < |products| ==> products[i] == products[1..][i - 1];
      [dumps(products[0])] + rest
  }

  /** `_format_products`; `dumps` is `json.dumps(p, indent=2)`. */
  function FormatProducts(products: seq<Product>, dumps: Product -> string): (r: string)
    ensures products == [] ==> r == "No products available."
    ensures products != [] ==> StartsWith(r, dumps(products[0]))
  {
    if products == [] then "No products available."
    else
      var parts := Dumps(products, dumps);
      JoinStartsWithFirst("\n\n", parts);
      Join("\n\n", parts)
  }

  /** Where product `i`'s dump starts in the formatted list. */
  function DumpStart(products: seq<Product>, dumps: Product -> string, i: nat): nat
    requires i <= |products|
  {
    JoinOffset("\n\n", Dumps(products, dumps), i)
  }

  /** A non-empty product list is written as every product's dump, in order,
      each at its offset and followed by a blank line except the last. */
  lemma ProductsListed(products: seq<Product>, dumps: Product -> string)
    requires products != []
    ensures |FormatProducts(products, dumps)| + 2 == DumpStart(products, dumps, |products|)
    ensures forall i :: 0 <= i < |products| ==>
              HoldsAt(FormatProducts(products, dumps), dumps(products[i]), DumpStart(products, dumps, i))
    ensures forall i :: 0 <= i < |products| - 1 ==>
              HoldsAt(FormatProducts(products, dumps), "\n\n", DumpStart(products, dumps, i) + |dumps(products[i])|)
  {
    var parts := Dumps(products, dumps);
    var r := FormatProducts(products, dumps);
    assert r == Join("\n\n", parts);
    JoinLength("\n\n", parts);
    forall i | 0 <= i < |products|
      ensures HoldsAt(r, dumps(products[i]), DumpStart(products, dumps, i))
      ensures i < |products| - 1 ==> HoldsAt(r, "\n\n", DumpStart(products, dumps, i) + |dumps(products[i])|)
    {
      assert parts[i] == dumps(products[i]);
      JoinPartAt("\n\n", parts, i);
      if i + 1 < |products| {
        JoinSepAfter("\n\n", parts, i);
      }
    }
  }


  /** Line `i` of the JSON output schema and its instructions
      (`_get_output_schema`); there are 22 lines, the first and the last
      empty, so that the text opens and ends with a newline. */
  function SchemaLine(i: nat): string
  {
    match i
    case 0 => ""
    case 1 => "{"
    case 2 => "  \"recommendations\": ["
    case 3 => "    {"
    case 4 => "      \"product_id\": \"string\","
    case 5 => "      \"product_name\": \"string\","
    case 6 => "      \"reasoning\": \"string\""
    case 7 => "    }"
    case 8 => "  ],"
    case 9 => "  \"summary\": \"string\","
    case 10 => "  \"follow_up_questions\": [\"string\"]"
    case 11 => "}"
    case 12 => ""
    case 13 => "Return JSON with:"
    case 14 => "- recommendations: array of product recommendations (max 5)"
    case 15 => "- Each recommendation must have:"
    case 16 => "  - product_id: must exist in the available products"
    case 17 => "  - product_name: the name of the product (from the available products)"
    case 18 => "  - reasoning: explanation for why this product is recommended"
    case 19 => "- summary: brief explanation of recommendations"
    case 20 => "- follow_up_questions: array of 2-3 suggested follow-up questions to help the user refine their search or learn more (e.g., \"Would you like to see products under $50?\", \"Are you looking for wireless options?\", \"Do you need this for a specific use case?\")"
    case 21 => ""
    case _ => ""
  }

  /** The JSON output schema and its instructions, one text: its lines
      joined with newlines. */
  const OutputSchema: string :=
    SchemaLine(0) + "\n" + SchemaLine(1) + "\n" + SchemaLine(2) + "\n" + SchemaLine(3) + "\n" +
    SchemaLine(4) + "\n" + SchemaLine(5) + "\n" + SchemaLine(6) + "\n" + SchemaLine(7) + "\n" +
    SchemaLine(8) + "\n" + SchemaLine(9) + "\n" + SchemaLine(10) + "\n" + SchemaLine(11) + "\n" +
    SchemaLine(12) + "\n" + SchemaLine(13) + "\n" + SchemaLine(14) + "\n" + SchemaLine(15) + "\n" +
    SchemaLine(16) + "\n" + SchemaLine(17) + "\n" + SchemaLine(18) + "\n" + SchemaLine(19) + "\n" +
    SchemaLine(20) + "\n" + SchemaLine(21)

  /** `"\n" + "=" * 50 + "\n"`. */
  const Rule: string := "\n" + Repeat('=', 50) + "\n"

  /** A `PromptBuilder`: the system prompt and the mock catalogue its
      constructor loads from files. */
  datatype Builder = Builder(systemPrompt: string, allProducts: seq<Product>)

  /** The products shown in the prompt: the retriever's products filtered and
      ranked when given, otherwise the top products of the catalogue. */
  function ProductContext(products: Option<seq<Product>>, catalog: seq<Product>, f: Filters): seq<Product>
    requires WellFormed(f)
  {
    match products
    case Some(ps) => Ranked(ps, f)
    case None => PySliceTo(Ranked(catalog, f), TopK)
  }

  /** The parts `build` appends, in order: the system prompt, then for each
      section its heading and text closed by a rule, and the output schema
      last. */
  function PromptParts(b: Builder, query: string, history: seq<Turn>, f: Filters,
                       products: Option<seq<Product>>, show: real -> string, dumps: Product -> string): seq<string>
    requires WellFormed(f)
  {
    [b.systemPrompt, Rule,
     "CONVERSATION HISTORY:", FormatConversationSummary(history), Rule,
     "USER FILTERS:", FormatFilters(f, show), Rule,
     "AVAILABLE PRODUCTS:", FormatProducts(ProductContext(products, b.allProducts, f), dumps), Rule,
     "CURRENT USER QUERY:", query, Rule,
     "OUTPUT FORMAT:", OutputSchema]
  }

  /** The prompt `build` returns: its parts joined with newlines. */
  function PromptText(b: Builder, query: string, history: seq<Turn>, f: Filters,
                      products: Option<seq<Product>>, show: real -> string, dumps: Product -> string): string
    requires WellFormed(f)
  {
    Join("\n", PromptParts(b, query, history, f, products, show, dumps))
  }

  /** `build`: the list of parts (the source appends them one by one) joined
      with newlines. */
  method Build(b: Builder, query: string, history: seq<Turn>, f: Filters,
               products: Option<seq<Product>>, show: real -> string, dumps: Product -> string)
    returns (prompt: string)
    requires WellFormed(f)
    ensures prompt == PromptText(b, query, history, f, products, show, dumps)
  {
    var summary := FormatConversationSummary(history);
    var filterText := FormatFilters(f, show);
    var top: seq<Product>;
    if products.Some? {
      top := ApplyFiltersToProducts(products.value, f);
    } else {
      top := GetTopProducts(b.allProducts, f, TopK);
    }
    var parts := [b.systemPrompt, Rule,
                  "CONVERSATION HISTORY:", summary, Rule,
                  "USER FILTERS:", filterText, Rule,
                  "AVAILABLE PRODUCTS:", FormatProducts(top, dumps), Rule,
                  "CURRENT USER QUERY:", query, Rule,
                  "OUTPUT FORMAT:", OutputSchema];
    prompt := Join("\n", parts);
  }
}
