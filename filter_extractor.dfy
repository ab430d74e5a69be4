/** Filter post-processing (`agent/filter_extractor.py`): merging newly
    extracted filters into existing ones, filling unset bounds from vague terms,
    the keyword-driven fallback for price and rating, and the history text
    given to the extraction model. The model call itself is a parameter: its
    parsed reply, or `None` when the call or the parse failed. */
module FilterExtraction {
  import opened Types
  import opened Text
  import Config

  // ---------------------------------------------------------------------------
  // _merge_filters

  /** The operand `x or []` of the concatenation in `_merge_filters`: a falsy
      value is the empty list, a truthy value is itself (a list or a scalar).
      Unlike `update_filters`, no scalar is wrapped into a one-element list. */
  datatype Operand = AsList(items: seq<Atom>) | AsScalar(atom: Atom)

  function OrEmpty(v: Value): (r: Operand)
    ensures r.AsScalar? <==> v.One? && AtomTruthy(v.atom)
    ensures !Truthy(v) ==> r == AsList([])
    ensures v.Many? ==> r == AsList(v.items)
  {
    match v
    case Null => AsList([])
    case Many(items) => AsList(items)
    case One(a) => if AtomTruthy(a) then AsScalar(a) else AsList([])
  }

  /** Each character of `s` as a one-character string: what `set(s)` iterates. */
  function Chars(s: string): (r: seq<Atom>)
    ensures |r| == |s|
    ensures forall i :: 0 <= i < |s| ==> r[i] == Str([s[i]])
  {
    seq(|s|, i requires 0 <= i < |s| => Str([s[i]]))
  }

  /** What `set(a + b)` iterates over, or `None` when it raises: two lists
      concatenate; two strings concatenate into a string whose characters the
      set collects; a list with a scalar raises `TypeError` at the `+`, and
      two numbers add up to a number that `set` cannot iterate. */
  function Concat(a: Operand, b: Operand): (r: Option<seq<Atom>>)
    ensures r.Some? <==> (a.AsList? && b.AsList?)
                         || (a.AsScalar? && a.atom.Str? && b.AsScalar? && b.atom.Str?)
    ensures a.AsList? && b.AsList? ==> r == Some(a.items + b.items)
  {
    if a.AsList? && b.AsList? then Some(a.items + b.items)
    else if a.AsScalar? && a.atom.Str? && b.AsScalar? && b.atom.Str? then Some(Chars(a.atom.s + b.atom.s))
    else None
  }

  /** The items `_merge_filters` deduplicates under the list key `k`. */
  function Joined(existing: Filters, k: string, v: Value): Option<seq<Atom>>
  {
    Concat(OrEmpty(Get(existing, k)), OrEmpty(v))
  }

  /** Merging the list key `k` raises. */
  predicate ClashesAt(existing: Filters, incoming: Filters, k: string)
  {
    k in incoming && incoming[k] != Null && k in ListKeys && Joined(existing, k, incoming[k]).None?
  }

  /** The value `_merge_filters` stores under a written key `k`. */
  function MergedEntry(existing: Filters, k: string, v: Value): Value
    requires v != Null
    requires k in ListKeys ==> Joined(existing, k, v).Some?
  {
    if k in ListKeys then Many(Dedup(Joined(existing, k, v).value))
    else v
  }

  /** The result of `_merge_filters(existing, incoming)`, or `None` when it raises. */
  function Merged(existing: Filters, incoming: Filters): (r: Option<Filters>)
    ensures r.None? <==> exists k :: ClashesAt(existing, incoming, k)
    ensures r.Some? ==> r.value.Keys == existing.Keys + Written(incoming)
    ensures r.Some? ==> forall k :: k in existing && k !in Written(incoming) ==> r.value[k] == existing[k]
    ensures r.Some? ==> forall k :: k in Written(incoming) && k !in ListKeys ==> r.value[k] == incoming[k]
  {
    if exists k :: k in incoming && ClashesAt(existing, incoming, k) then None
    else
      Some(map k | k in existing.Keys + Written(incoming) ::
             if k in Written(incoming) then MergedEntry(existing, k, incoming[k]) else existing[k])
  }

  /** For a list key, a successful merge stores a duplicate-free list: the
      union of the existing and the new list when the existing operand is a
      list. */
  lemma MergeUnitesLists(existing: Filters, incoming: Filters, k: string)
    requires Merged(existing, incoming).Some?
    requires k in ListKeys && k in incoming && incoming[k] != Null
    ensures k in Merged(existing, incoming).value
    ensures Merged(existing, incoming).value[k].Many?
    ensures Distinct(Merged(existing, incoming).value[k].items)
    ensures var a := OrEmpty(Get(existing, k));
            var b := OrEmpty(incoming[k]);
            a.AsList? ==> b.AsList? && Elems(Merged(existing, incoming).value[k].items) == Elems(a.items) + Elems(b.items)
  {
    assert k in Written(incoming);
    assert !ClashesAt(existing, incoming, k);
    var a := OrEmpty(Get(existing, k));
    var b := OrEmpty(incoming[k]);
    if a.AsList? {
      ElemsConcat(a.items, b.items);
    }
  }

  /** Two non-empty strings under a list key do not raise: `+` concatenates
      them and `list(set(..))` keeps the characters, each once. */
  lemma MergeConcatenatesStrings(existing: Filters, incoming: Filters, k: string, s: string, t: string)
    requires k in ListKeys && k in incoming
    requires Get(existing, k) == One(Str(s)) && s != ""
    requires incoming[k] == One(Str(t)) && t != ""
    ensures !ClashesAt(existing, incoming, k)
    ensures Merged(existing, incoming).Some? ==>
              var v := Merged(existing, incoming).value[k];
              v.Many? && Distinct(v.items)
              && forall x :: x in v.items <==> exists i :: 0 <= i < |s + t| && x == Str([(s + t)[i]])
  {
    if Merged(existing, incoming).Some? {
      assert k in Written(incoming);
      var c := Chars(s + t);
      assert Joined(existing, k, incoming[k]) == Some(c);
      var v := Merged(existing, incoming).value[k];
      assert v == Many(Dedup(c));
      forall x
        ensures x in v.items <==> exists i :: 0 <= i < |s + t| && x == Str([(s + t)[i]])
      {
        assert x in v.items <==> x in Elems(c);
        if x in c {
          var i :| 0 <= i < |c| && c[i] == x;
          assert x == Str([(s + t)[i]]);
        }
      }
    }
  }

  /** A non-empty string under a list key makes `_merge_filters` raise, where
      `update_filters` would have wrapped it into a one-element list, unless
      the existing value is a non-empty string too. */
  lemma MergeRejectsScalarList(existing: Filters, incoming: Filters, k: string, s: string)
    requires k in ListKeys && k in incoming && incoming[k] == One(Str(s)) && s != ""
    ensures !(Get(existing, k).One? && Get(existing, k).atom.Str? && Get(existing, k).atom.s != "") ==>
              Merged(existing, incoming) == None
  {
    if !(Get(existing, k).One? && Get(existing, k).atom.Str? && Get(existing, k).atom.s != "") {
      assert ClashesAt(existing, incoming, k);
    }
  }

  /** When every list value involved is a list (as the extraction schema
      declares), the merge succeeds. */
  lemma MergeOfListsSucceeds(existing: Filters, incoming: Filters)
    requires forall k :: k in ListKeys && k in incoming ==> incoming[k] == Null || incoming[k].Many?
    requires forall k :: k in ListKeys && k in existing ==> existing[k] == Null || existing[k].Many?
    ensures Merged(existing, incoming).Some?
  {
    forall k ensures !ClashesAt(existing, incoming, k) {
    }
  }

  /** `_merge_filters`: start from a copy of `existing` and merge each key of
      `incoming` into it; `existing` itself is a value and cannot change. */
  method MergeFilters(existing: Filters, incoming: Filters) returns (r: Option<Filters>)
    ensures r == Merged(existing, incoming)
  {
    var merged := existing;
    var pending := incoming.Keys;
    ghost var done: set<string> := {};
    assert Written(Restrict(incoming, done)) == {};
    assert Merged(existing, Restrict(incoming, done)).value == existing;
    while pending != {}
      invariant pending !! done && pending + done == incoming.Keys
      invariant forall j :: j in done ==> !ClashesAt(existing, incoming, j)
      invariant !(exists j :: ClashesAt(existing, Restrict(incoming, done), j))
      invariant Merged(existing, Restrict(incoming, done)) == Some(merged)
      decreases pending
    {
      var k :| k in pending;
      var v := incoming[k];
      MergeStep(existing, incoming, done, k);
      if v != Null {
        if k in ListKeys {
          var existingList := OrEmpty(Get(merged, k));
          var newList := OrEmpty(v);
          var joined := Concat(existingList, newList);
          if joined.None? {
            assert ClashesAt(existing, incoming, k);
            return None;
          }
          merged := merged[k := Many(Dedup(joined.value))];
        } else {
          merged := merged[k := v];
        }
      }
      pending := pending - {k};
      done := done + {k};
    }
    assert Restrict(incoming, done) == incoming;
    r := Some(merged);
  }

  /** One iteration of `_merge_filters`' loop. */
  lemma MergeStep(existing: Filters, incoming: Filters, done: set<string>, k: string)
    requires done <= incoming.Keys && k in incoming && k !in done
    requires Merged(existing, Restrict(incoming, done)).Some?
    ensures var before := Merged(existing, Restrict(incoming, done)).value;
            Get(before, k) == Get(existing, k)
    ensures !ClashesAt(existing, incoming, k) ==>
            var before := Merged(existing, Restrict(incoming, done)).value;
            var after := Merged(existing, Restrict(incoming, done + {k}));
            after == Some(if incoming[k] == Null then before
                          else before[k := MergedEntry(existing, k, incoming[k])])
  {
    var r0 := Restrict(incoming, done);
    var r1 := Restrict(incoming, done + {k});
    var before := Merged(existing, r0).value;
    WrittenRestrictStep(incoming, done, k);
    if !ClashesAt(existing, incoming, k) {
      NoClashStep(existing, incoming, done, k);
      var after := Merged(existing, r1).value;
      var expected := if incoming[k] == Null then before
                      else before[k := MergedEntry(existing, k, incoming[k])];
      assert after.Keys == expected.Keys;
      forall j | j in after
        ensures after[j] == expected[j]
      {
        if j != k && j in Written(r0) {
          assert r1[j] == r0[j];
        }
      }
      assert after == expected;
    }
  }

  /** A key that does not clash keeps the merge of one more key from raising. */
  lemma NoClashStep(existing: Filters, incoming: Filters, done: set<string>, k: string)
    requires done <= incoming.Keys && k in incoming && k !in done
    requires Merged(existing, Restrict(incoming, done)).Some?
    requires !ClashesAt(existing, incoming, k)
    ensures Merged(existing, Restrict(incoming, done + {k})).Some?
  {
    var r0 := Restrict(incoming, done);
    var r1 := Restrict(incoming, done + {k});
    forall j
      ensures !ClashesAt(existing, r1, j)
    {
      if j != k && j in r1 {
        assert r1[j] == r0[j];
        assert !ClashesAt(existing, r0, j);
      }
    }
  }

  // ---------------------------------------------------------------------------
  // _apply_vague_terms

  /** The mapping `t` is for `field` and its term occurs in `q`. */
  predicate Hits(q: string, field: string, t: Config.VagueMapping)
  {
    t.field == field && Contains(q, t.term)
  }

  /** `terms[i]` is the first mapping in `terms` that `Hits`. */
  predicate FirstHit(q: string, field: string, terms: seq<Config.VagueMapping>, i: int)
  {
    0 <= i < |terms| && Hits(q, field, terms[i])
    && forall j :: 0 <= j < i ==> !Hits(q, field, terms[j])
  }

  /** The value of the first mapping in `terms` (in order) for `field` whose
      term occurs in `q`, and `None` when there is none. */
  function FirstMatch(q: string, field: string, terms: seq<Config.VagueMapping>): (r: Option<real>)
    ensures r.Some? ==> exists i :: FirstHit(q, field, terms, i) && r.value == terms[i].value
    ensures r.None? ==> forall i :: 0 <= i < |terms| ==> !Hits(q, field, terms[i])
  {
    if terms == [] then None
    else if Hits(q, field, terms[0]) then
      assert FirstHit(q, field, terms, 0);
      Some(terms[0].value)
    else
      var rest := FirstMatch(q, field, terms[1..]);
      assert forall i :: 0 <= i < |terms[1..]| ==> terms[1..][i] == terms[i + 1];
      assert forall i :: FirstHit(q, field, terms[1..], i) ==> FirstHit(q, field, terms, i + 1);
      rest
  }

  /** The filter fields a vague term can set. */
  const BoundKeys: set<string> := {PriceMax, PriceMin, RatingMin}

  /** One iteration of `_apply_vague_terms`' loop: when the mapping's term
      occurs in `q`, its field is set unless it already holds a value. */
  function VagueStepApplied(q: string, f: Filters, t: Config.VagueMapping): Filters
  {
    if Contains(q, t.term) && t.field in BoundKeys && Get(f, t.field) == Null
    then f[t.field := One(Number(t.value))] else f
  }

  /** The filters once the mappings `terms` are applied, in order, to the
      lower-cased query `q`. */
  function VagueApplied(q: string, f: Filters, terms: seq<Config.VagueMapping>): (r: Filters)
    ensures f.Keys <= r.Keys <= f.Keys + BoundKeys
    ensures forall k :: k in f && (k !in BoundKeys || f[k] != Null) ==> r[k] == f[k]
    decreases |terms|
  {
    if terms == [] then f
    else VagueStepApplied(q, VagueApplied(q, f, terms[..|terms| - 1]), terms[|terms| - 1])
  }

  /** `Some(x)` as the number `x`, `None` as `None`. */
  function NumberValue(o: Option<real>): (v: Value)
    ensures o.None? <==> v == Null
    ensures o.Some? ==> v == One(Number(o.value))
  {
    match o
    case None => Null
    case Some(x) => One(Number(x))
  }

  /** Adding one mapping at the end changes a field's first match only when no
      earlier mapping matched it. */
  lemma {:induction false} FirstMatchAppend(q: string, field: string, terms: seq<Config.VagueMapping>, t: Config.VagueMapping)
    ensures FirstMatch(q, field, terms + [t]) ==
      if FirstMatch(q, field, terms).Some? then FirstMatch(q, field, terms)
      else if Hits(q, field, t) then Some(t.value) else None
  {
    if terms == [] {
      assert (terms + [t])[1..] == [];
    } else {
      assert (terms + [t])[1..] == terms[1..] + [t];
      FirstMatchAppend(q, field, terms[1..], t);
    }
  }

  /** Applying the mappings in order leaves every set bound and every other key
      as it was, and gives an unset bound the value of the first mapping for
      it whose term occurs in the query: earlier terms win. */
  lemma {:induction false} VagueFirstMatch(q: string, f: Filters, terms: seq<Config.VagueMapping>, k: string)
    ensures Get(VagueApplied(q, f, terms), k)
         == (if k !in BoundKeys || Get(f, k) != Null then Get(f, k) else NumberValue(FirstMatch(q, k, terms)))
    ensures k in VagueApplied(q, f, terms) <==> k in f || (k in BoundKeys && FirstMatch(q, k, terms).Some?)
    decreases |terms|
  {
    if terms != [] {
      var init := terms[..|terms| - 1];
      var t := terms[|terms| - 1];
      assert terms == init + [t];
      VagueFirstMatch(q, f, init, k);
      FirstMatchAppend(q, k, init, t);
      var before := VagueApplied(q, f, init);
      assert VagueApplied(q, f, terms) == VagueStepApplied(q, before, t);
    }
  }

  /** `_apply_vague_terms`: for each vague term in `VAGUE_TERMS` order that occurs
      in the lower-cased query, set the bound it maps to unless that bound is
      already set. */
  method ApplyVagueTerms(query: string, filters: Filters) returns (r: Filters)
    ensures r == VagueApplied(Lower(query), filters, Config.VagueTerms)
  {
    var q := Lower(query);
    r := filters;
    var i := 0;
    while i < |Config.VagueTerms|
      invariant 0 <= i <= |Config.VagueTerms|
      invariant r == VagueApplied(q, filters, Config.VagueTerms[..i])
    {
      var t := Config.VagueTerms[i];
      assert Config.VagueTerms[..i + 1][..i] == Config.VagueTerms[..i];
      ghost var prev := r;
      if Contains(q, t.term) {
        if t.field == PriceMax && Get(r, PriceMax) == Null {
          r := r[PriceMax := One(Number(t.value))];
        }
        if t.field == PriceMin && Get(r, PriceMin) == Null {
          r := r[PriceMin := One(Number(t.value))];
        }
        if t.field == RatingMin && Get(r, RatingMin) == Null {
          r := r[RatingMin := One(Number(t.value))];
        }
      }
      assert r == VagueStepApplied(q, prev, t);
      i := i + 1;
    }
    assert Config.VagueTerms[..i] == Config.VagueTerms;
  }

  /** "cheap" in an otherwise unconstrained query sets `price_max` to 50. */
  lemma CheapSetsPriceMax(f: Filters)
    requires Get(f, PriceMax) == Null
    ensures Get(VagueApplied(Lower("I want something cheap"), f, Config.VagueTerms), PriceMax)
         == One(Number(50.0))
  {
    var q := Lower("I want something cheap");
    assert q[17..22] == "cheap";
    ContainsSlice(q, 17, 22);
    assert Hits(q, PriceMax, Config.VagueTerms[0]);
    VagueFirstMatch(q, f, Config.VagueTerms, PriceMax);
  }

  // ---------------------------------------------------------------------------
  // _regex_extract

  /** What the two regular expressions of `_regex_extract` find in the query:
      every number (`\$?(\d+(?:\.\d+)?)`) and every number followed by "star" or
      "rating", each converted with `float`. */
  datatype QueryNumbers = QueryNumbers(prices: seq<real>, ratings: seq<real>)

  /** A rating match contains digits, so a query without numbers has no rating match. */
  predicate Tokenised(n: QueryNumbers)
  {
    n.prices == [] ==> n.ratings == []
  }

  /** `min(xs)`. */
  function SeqMin(xs: seq<real>): (m: real)
    requires xs != []
    ensures m in xs && forall x :: x in xs ==> m <= x
  {
    if |xs| == 1 then xs[0]
    else
      var rest := SeqMin(xs[1..]);
      assert forall x :: x in xs ==> x == xs[0] || x in xs[1..];
      if xs[0] <= rest then xs[0] else rest
  }

  /** `max(xs)`. */
  function SeqMax(xs: seq<real>): (m: real)
    requires xs != []
    ensures m in xs && forall x :: x in xs ==> x <= m
  {
    if |xs| == 1 then xs[0]
    else
      var rest := SeqMax(xs[1..]);
      assert forall x :: x in xs ==> x == xs[0] || x in xs[1..];
      if xs[0] >= rest then xs[0] else rest
  }

  predicate SaysBelow(q: string)
  {
    Contains(q, "under") || Contains(q, "less than") || Contains(q, "below")
  }

  predicate SaysAbove(q: string)
  {
    Contains(q, "over") || Contains(q, "more than") || Contains(q, "above")
  }

  /** `_regex_extract`: a copy of `existing` with the price and rating rules applied. */
  function RegexExtract(query: string, n: QueryNumbers, existing: Filters): (r: Filters)
    ensures existing.Keys <= r.Keys <= existing.Keys + BoundKeys
    ensures forall k :: k in existing && k !in BoundKeys ==> r[k] == existing[k]
  {
    var q := Lower(query);
    var priced :=
      if n.prices == [] then existing
      else if SaysBelow(q) then existing[PriceMax := One(Number(SeqMin(n.prices)))]
      else if SaysAbove(q) then existing[PriceMin := One(Number(SeqMax(n.prices)))]
      else if |n.prices| == 1 then existing[PriceMax := One(Number(n.prices[0]))]
      else existing;
    if n.ratings != [] then priced[RatingMin := One(Number(n.ratings[0]))] else priced
  }

  /** The price rules: "under"/"less than"/"below" caps the price at the
      smallest number; otherwise "over"/"more than"/"above" floors it at the
      largest; otherwise a single number caps it. Keys other than the bounds
      are copied unchanged. */
  lemma RegexPriceRules(query: string, n: QueryNumbers, existing: Filters)
    requires n.prices != []
    ensures var r := RegexExtract(query, n, existing);
            var q := Lower(query);
            && (SaysBelow(q) ==>
                  exists x :: r[PriceMax] == One(Number(x)) && x in n.prices
                    && forall y :: y in n.prices ==> x <= y)
            && (!SaysBelow(q) && SaysAbove(q) ==>
                  exists x :: r[PriceMin] == One(Number(x)) && x in n.prices
                    && forall y :: y in n.prices ==> y <= x)
            && (!SaysBelow(q) && !SaysAbove(q) && |n.prices| == 1 ==>
                  r[PriceMax] == One(Number(n.prices[0])))
            && (!SaysBelow(q) && !SaysAbove(q) && |n.prices| > 1 ==>
                  Get(r, PriceMax) == Get(existing, PriceMax) && Get(r, PriceMin) == Get(existing, PriceMin))
            && forall k :: k !in BoundKeys ==> (k in r <==> k in existing) && Get(r, k) == Get(existing, k)
  {
    var q := Lower(query);
    if SaysBelow(q) {
      assert RegexExtract(query, n, existing)[PriceMax] == One(Number(SeqMin(n.prices)));
    } else if SaysAbove(q) {
      assert RegexExtract(query, n, existing)[PriceMin] == One(Number(SeqMax(n.prices)));
    }
  }

  /** The rating rule: the first number followed by "star" or "rating" becomes
      `rating_min`; without such a number `rating_min` is untouched. */
  lemma RegexRatingRule(query: string, n: QueryNumbers, existing: Filters)
    ensures n.ratings != [] ==> RegexExtract(query, n, existing)[RatingMin] == One(Number(n.ratings[0]))
    ensures n.ratings == [] ==> Get(RegexExtract(query, n, existing), RatingMin) == Get(existing, RatingMin)
  {
  }

  /** A query without numbers leaves the existing filters exactly as they were. */
  lemma RegexWithoutNumbers(query: string, n: QueryNumbers, existing: Filters)
    requires Tokenised(n) && n.prices == []
    ensures RegexExtract(query, n, existing) == existing
  {
  }

  // ---------------------------------------------------------------------------
  // _format_history

  /** `"Turn {i}: {user}"` for each turn, numbered from `start`. */
  function UserLines(turns: seq<Turn>, start: nat): (lines: seq<string>)
    requires 1 <= start && start + |turns| <= 10
    ensures |lines| == |turns|
    ensures forall i :: 0 <= i < |turns| ==>
              lines[i] == "Turn " + Digit(start + i) + ": " + turns[i].user
  {
    if turns == [] then []
    else ["Turn " + Digit(start) + ": " + turns[0].user] + UserLines(turns[1..], start + 1)
  }

  /** `_format_history`: a placeholder for an empty history, otherwise one line
      per turn for at most the last three turns. */
  function FormatHistory(history: seq<Turn>): (r: string)
    ensures history == [] ==> r == "No previous conversation."
    ensures history != [] ==> StartsWith(r, "Turn " + Digit(1) + ": " + LastN(history, 3)[0].user)
  {
    if history == [] then "No previous conversation."
    else
      var lines := UserLines(LastN(history, 3), 1);
      JoinStartsWithFirst("\n", lines);
      Join("\n", lines)
  }

  /** The lines name at most the last three turns, numbered from 1, and each
      line gives back its turn's user text after the fixed 8-character prefix. */
  lemma HistoryLinesRecoverTurns(history: seq<Turn>)
    requires history != []
    ensures var recent := LastN(history, 3);
            var lines := UserLines(recent, 1);
            |lines| == (if |history| < 3 then |history| else 3)
            && forall i :: 0 <= i < |lines| ==>
                 |lines[i]| >= 8 && lines[i][8..] == recent[i].user
                 && recent[i] == history[|history| - |recent| + i]
  {
  }

  // ---------------------------------------------------------------------------
  // extract

  /** The extraction model's parsed reply (`FilterOutput`). */
  datatype FilterOutput = FilterOutput(
    priceMin: Option<real>,
    priceMax: Option<real>,
    brandInclude: Option<seq<string>>,
    brandExclude: Option<seq<string>>,
    category: Option<string>,
    features: Option<seq<string>>,
    ratingMin: Option<real>)

  /** `parsed.x or []`: a missing list is the empty list. */
  function ListValue(o: Option<seq<string>>): (v: Value)
    ensures v.Many? && forall a :: a in v.items ==> a.Str?
  {
    match o
    case None => Many([])
    case Some(xs) => Many(seq(|xs|, i requires 0 <= i < |xs| => Str(xs[i])))
  }

  /** The seven-key dictionary built from the model's reply; list keys are never `None`. */
  function FromOutput(p: FilterOutput): (f: Filters)
    ensures f.Keys == {PriceMin, PriceMax, BrandInclude, BrandExclude, Category, Features, RatingMin}
    ensures WellFormed(f)
    ensures forall k :: k in ListKeys ==> f[k].Many?
  {
    map[PriceMin := NumberValue(p.priceMin),
        PriceMax := NumberValue(p.priceMax),
        BrandInclude := ListValue(p.brandInclude),
        BrandExclude := ListValue(p.brandExclude),
        Category := (match p.category case None => Null case Some(c) => One(Str(c))),
        Features := ListValue(p.features),
        RatingMin := NumberValue(p.ratingMin)]
  }

  /** What `extract` returns: on the model path the reply, completed by vague
      terms and merged into `existing`; when the model call or the parse fails,
      or the merge raises, the keyword fallback. */
  function Extracted(query: string, n: QueryNumbers, reply: Option<FilterOutput>, existing: Filters): (r: Filters)
    ensures existing.Keys <= r.Keys
  {
    match reply
    case None => RegexExtract(query, n, existing)
    case Some(p) =>
      match Merged(existing, VagueApplied(Lower(query), FromOutput(p), Config.VagueTerms))
      case Some(m) => m
      case None => RegexExtract(query, n, existing)
  }

  /** `extract`. */
  method Extract(query: string, n: QueryNumbers, reply: Option<FilterOutput>, existing: Filters)
    returns (r: Filters)
    ensures r == Extracted(query, n, reply, existing)
  {
    match reply {
      case None =>
        r := RegexExtract(query, n, existing);
      case Some(p) =>
        var filters := FromOutput(p);
        filters := ApplyVagueTerms(query, filters);
        var merged := MergeFilters(existing, filters);
        if merged.Some? {
          r := merged.value;
        } else {
          r := RegexExtract(query, n, existing);
        }
    }
  }

  /** The seven keys of the extraction schema. */
  const FilterKeys: set<string> := {PriceMin, PriceMax, BrandInclude, BrandExclude, Category, Features, RatingMin}

  /** Extraction never drops a key of the existing filters, and a key outside
      the seven schema keys keeps its value. With a successful model reply the
      earlier bounds and category survive unless the reply sets them. */
  lemma ExtractKeepsExisting(query: string, n: QueryNumbers, reply: Option<FilterOutput>, existing: Filters)
    ensures var r := Extracted(query, n, reply, existing);
            existing.Keys <= r.Keys
            && forall k :: k in existing && k !in FilterKeys ==> r[k] == existing[k]
  {
    if reply.Some? {
      var v := VagueApplied(Lower(query), FromOutput(reply.value), Config.VagueTerms);
      forall k | k !in FilterKeys
        ensures k !in Written(v)
      {
        VagueFirstMatch(Lower(query), FromOutput(reply.value), Config.VagueTerms, k);
      }
    }
  }

  /** On the model path, when the stored list keys hold lists, the merge cannot
      raise: every bound the reply sets overrides the stored one, and the
      category the reply names replaces the stored one. */
  lemma ExtractModelPathOverrides(query: string, n: QueryNumbers, p: FilterOutput, existing: Filters)
    requires forall k :: k in ListKeys && k in existing ==> existing[k] == Null || existing[k].Many?
    ensures var r := Extracted(query, n, Some(p), existing);
            && (p.priceMin.Some? ==> Get(r, PriceMin) == One(Number(p.priceMin.value)))
            && (p.priceMax.Some? ==> Get(r, PriceMax) == One(Number(p.priceMax.value)))
            && (p.ratingMin.Some? ==> Get(r, RatingMin) == One(Number(p.ratingMin.value)))
            && (p.category.Some? ==> Get(r, Category) == One(Str(p.category.value)))
  {
    var q := Lower(query);
    var v := VagueApplied(q, FromOutput(p), Config.VagueTerms);
    forall k | k in ListKeys && k in v
      ensures v[k] == Null || v[k].Many?
    {
      VagueFirstMatch(q, FromOutput(p), Config.VagueTerms, k);
    }
    MergeOfListsSucceeds(existing, v);
    VagueFirstMatch(q, FromOutput(p), Config.VagueTerms, PriceMin);
    VagueFirstMatch(q, FromOutput(p), Config.VagueTerms, PriceMax);
    VagueFirstMatch(q, FromOutput(p), Config.VagueTerms, RatingMin);
    VagueFirstMatch(q, FromOutput(p), Config.VagueTerms, Category);
  }

  /** Vague terms only ever write numbers under the bound keys. */
  lemma {:induction false} VagueAppliedWellFormed(q: string, f: Filters, terms: seq<Config.VagueMapping>)
    requires WellFormed(f)
    ensures WellFormed(VagueApplied(q, f, terms))
    decreases |terms|
  {
    if terms != [] {
      VagueAppliedWellFormed(q, f, terms[..|terms| - 1]);
    }
  }

  /** A merge that does not raise keeps every schema key at its declared type. */
  lemma MergedWellFormed(existing: Filters, incoming: Filters)
    requires WellFormed(existing) && WellFormed(incoming)
    requires Merged(existing, incoming).Some?
    ensures WellFormed(Merged(existing, incoming).value)
  {
    var r := Merged(existing, incoming).value;
    WellFormedByKey(existing);
    WellFormedByKey(incoming);
    forall k
      ensures ValueTyped(k, Get(r, k))
    {
      assert ValueTyped(k, Get(existing, k)) && ValueTyped(k, Get(incoming, k));
      if k in Written(incoming) && k in ListKeys {
        assert !ClashesAt(existing, incoming, k);
        var a := OrEmpty(Get(existing, k)).items;
        var b := OrEmpty(incoming[k]).items;
        ElemsConcat(a, b);
        forall x: Atom | x in Dedup(a + b)
          ensures x.Str?
        {
          assert x in Elems(Dedup(a + b));
        }
      }
    }
    WellFormedByKey(r);
  }

  /** Extraction from well-typed filters gives well-typed filters: the bounds
      stay numbers, the category a string, the list keys lists of strings. */
  lemma ExtractedWellFormed(query: string, n: QueryNumbers, reply: Option<FilterOutput>, existing: Filters)
    requires WellFormed(existing)
    ensures WellFormed(Extracted(query, n, reply, existing))
  {
    if reply.Some? {
      var v := VagueApplied(Lower(query), FromOutput(reply.value), Config.VagueTerms);
      VagueAppliedWellFormed(Lower(query), FromOutput(reply.value), Config.VagueTerms);
      if Merged(existing, v).Some? {
        MergedWellFormed(existing, v);
      }
    }
  }
}
