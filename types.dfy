/** Values shared by the agent's components: conversation turns, the filter
    dictionary, products and recommendations. */
module Types {

  datatype Option<T> = None | Some(value: T)

  datatype Result<T, E> = Ok(value: T) | Err(error: E)

  /** One conversation turn: `{"user": ..., "agent": ...}`. */
  datatype Turn = Turn(user: string, agent: string)

  /** A scalar stored in a filter dictionary. */
  datatype Atom = Number(x: real) | Str(s: string)

  /** A filter dictionary value: `None`, a scalar, or a list of scalars. */
  datatype Value = Null | One(atom: Atom) | Many(items: seq<Atom>)

  /** A filter dictionary (Python `dict`): key to value. A key mapped to `Null`
      and an absent key are different entries, as in Python. */
  type Filters = map<string, Value>

  const PriceMin: string := "price_min"
  const PriceMax: string := "price_max"
  const BrandInclude: string := "brand_include"
  const BrandExclude: string := "brand_exclude"
  const Category: string := "category"
  const Features: string := "features"
  const RatingMin: string := "rating_min"

  /** The keys whose values are lists and are merged by union. */
  const ListKeys: set<string> := {BrandInclude, BrandExclude, Features}

  /** The keys of `incoming` whose value is not `None`: the keys a merge writes. */
  function Written(incoming: Filters): set<string>
  {
    set k | k in incoming && incoming[k] != Null
  }

  /** The entries of `m` whose keys are in `keys`. */
  function Restrict(m: Filters, keys: set<string>): (r: Filters)
    requires keys <= m.Keys
    ensures r.Keys == keys
    ensures forall k :: k in keys ==> r[k] == m[k]
  {
    map k | k in keys :: m[k]
  }

  /** Restricting to one more key writes that key too, unless its value is `None`. */
  lemma WrittenRestrictStep(incoming: Filters, done: set<string>, k: string)
    requires done <= incoming.Keys && k in incoming && k !in done
    ensures k !in Written(Restrict(incoming, done))
    ensures Written(Restrict(incoming, done + {k}))
         == if incoming[k] == Null then Written(Restrict(incoming, done))
            else Written(Restrict(incoming, done)) + {k}
  {
    var r0 := Restrict(incoming, done);
    var r1 := Restrict(incoming, done + {k});
    var w := if incoming[k] == Null then Written(r0) else Written(r0) + {k};
    forall j
      ensures j in Written(r1) <==> j in w
    {
      if j == k {} else if j in done {} else {}
    }
  }

  /** Python's `filters.get(k)`. */
  function Get(f: Filters, k: string): Value
  {
    if k in f then f[k] else Null
  }

  /** Python truthiness of a scalar: non-zero number, non-empty string. */
  predicate AtomTruthy(a: Atom)
  {
    match a
    case Number(x) => x != 0.0
    case Str(s) => s != ""
  }

  /** Python truthiness of a filter value. */
  predicate Truthy(v: Value)
  {
    match v
    case Null => false
    case One(a) => AtomTruthy(a)
    case Many(items) => items != []
  }

  /** `filters.get(k)` is truthy. */
  predicate IsSet(f: Filters, k: string)
  {
    Truthy(Get(f, k))
  }

  function Elems<T>(s: seq<T>): set<T>
  {
    set x | x in s
  }

  predicate Distinct<T(==)>(s: seq<T>)
  {
    forall i, j :: 0 <= i < j < |s| ==> s[i] != s[j]
  }

  lemma ElemsConcat<T>(a: seq<T>, b: seq<T>)
    ensures Elems(a + b) == Elems(a) + Elems(b)
  {
    assert forall x :: x in a + b <==> x in a || x in b;
  }

  /** `r` is `words` with some entries dropped, the rest in their order. */
  predicate SubsequenceOf<T(==)>(r: seq<T>, words: seq<T>)
    decreases |words|
  {
    if r == [] then true
    else if words == [] then false
    else (r[|r| - 1] == words[|words| - 1] && SubsequenceOf(r[..|r| - 1], words[..|words| - 1]))
         || SubsequenceOf(r, words[..|words| - 1])
  }

  /** A subsequence stays one when an element is put in front of the list,
      whether or not it is kept. */
  lemma {:induction false} SubsequencePrepend<T>(x: T, r: seq<T>, words: seq<T>)
    requires SubsequenceOf(r, words)
    ensures SubsequenceOf(r, [x] + words)
    ensures SubsequenceOf([x] + r, [x] + words)
    decreases |words|
  {
    var xw := [x] + words;
    if words == [] {
      assert [x] + r == [x] + r[..0];
      assert r == [] && ([x] + r)[..0] == [] && xw[..0] == [];
    } else {
      var init := words[..|words| - 1];
      assert xw[..|xw| - 1] == [x] + init && xw[|xw| - 1] == words[|words| - 1];
      if r == [] {
        SubsequencePrepend(x, r, init);
        assert [x] + r == [x];
      } else {
        var xr := [x] + r;
        assert xr[..|xr| - 1] == [x] + r[..|r| - 1] && xr[|xr| - 1] == r[|r| - 1];
        if r[|r| - 1] == words[|words| - 1] && SubsequenceOf(r[..|r| - 1], init) {
          SubsequencePrepend(x, r[..|r| - 1], init);
        } else {
          SubsequencePrepend(x, r, init);
        }
      }
    }
  }

  /** `list(set(s))`: the elements of `s`, each once. Python leaves the order of
      the resulting list unspecified; this model keeps first occurrences. */
  function Dedup<T(==)>(s: seq<T>): (r: seq<T>)
    ensures Elems(r) == Elems(s)
    ensures Distinct(r)
  {
    if s == [] then []
    else
      var d := Dedup(s[..|s| - 1]);
      assert s == s[..|s| - 1] + [s[|s| - 1]];
      ElemsConcat(s[..|s| - 1], [s[|s| - 1]]);
      if s[|s| - 1] in d then d else d + [s[|s| - 1]]
  }

  /** A list without repetitions is its own deduplication. */
  lemma {:induction false} DedupDistinct<T>(s: seq<T>)
    requires Distinct(s)
    ensures Dedup(s) == s
  {
    if s != [] {
      DedupDistinct(s[..|s| - 1]);
      assert s[|s| - 1] !in s[..|s| - 1];
      assert s == s[..|s| - 1] + [s[|s| - 1]];
    }
  }

  /** Appending elements already present and deduplicating changes nothing. */
  lemma {:induction false} DedupAbsorbs<T>(x: seq<T>, b: seq<T>)
    requires Distinct(x)
    requires Elems(b) <= Elems(x)
    ensures Dedup(x + b) == x
  {
    if b == [] {
      assert x + b == x;
      DedupDistinct(x);
    } else {
      var b' := b[..|b| - 1];
      assert Elems(b') <= Elems(b);
      DedupAbsorbs(x, b');
      assert (x + b)[..|x + b| - 1] == x + b';
      assert b[|b| - 1] in Elems(b);
    }
  }

  /** The filter value types declared by the extraction schema: numbers for the
      bounds, a string for the category, lists of strings for the list keys. */
  predicate NumberOrNull(v: Value)
  {
    v == Null || (v.One? && v.atom.Number?)
  }

  predicate TextOrNull(v: Value)
  {
    v == Null || (v.One? && v.atom.Str?)
  }

  predicate TextListOrNull(v: Value)
  {
    v == Null || (v.Many? && forall a :: a in v.items ==> a.Str?)
  }

  predicate WellFormed(f: Filters)
  {
    && NumberOrNull(Get(f, PriceMin))
    && NumberOrNull(Get(f, PriceMax))
    && NumberOrNull(Get(f, RatingMin))
    && TextOrNull(Get(f, Category))
    && TextListOrNull(Get(f, BrandInclude))
    && TextListOrNull(Get(f, BrandExclude))
    && TextListOrNull(Get(f, Features))
  }

  /** The schema's type for the value stored under `k`; other keys are untyped. */
  predicate ValueTyped(k: string, v: Value)
  {
    if k == PriceMin || k == PriceMax || k == RatingMin then NumberOrNull(v)
    else if k == Category then TextOrNull(v)
    else if k in ListKeys then TextListOrNull(v)
    else true
  }

  /** Well-formedness, key by key. */
  lemma WellFormedByKey(f: Filters)
    ensures WellFormed(f) <==> forall k :: ValueTyped(k, Get(f, k))
  {
    if forall k :: ValueTyped(k, Get(f, k)) {
      assert ValueTyped(PriceMin, Get(f, PriceMin)) && ValueTyped(PriceMax, Get(f, PriceMax));
      assert ValueTyped(RatingMin, Get(f, RatingMin)) && ValueTyped(Category, Get(f, Category));
      assert ValueTyped(BrandInclude, Get(f, BrandInclude)) && ValueTyped(BrandExclude, Get(f, BrandExclude));
      assert ValueTyped(Features, Get(f, Features));
    }
  }

  /** The number stored under a numeric key. */
  function NumberAt(f: Filters, k: string): real
    requires NumberOrNull(Get(f, k)) && Get(f, k) != Null
  {
    Get(f, k).atom.x
  }

  /** The string stored under the category key. */
  function TextAt(f: Filters, k: string): string
    requires TextOrNull(Get(f, k)) && Get(f, k) != Null
  {
    Get(f, k).atom.s
  }

  /** The strings stored under a list key (`[]` when unset). */
  function TextsAt(f: Filters, k: string): (r: seq<string>)
    requires TextListOrNull(Get(f, k))
    ensures Get(f, k) != Null ==> |r| == |Get(f, k).items|
  {
    match Get(f, k)
    case Null => []
    case Many(items) => seq(|items|, i requires 0 <= i < |items| => items[i].s)
  }

  /** A catalogue product in the agent's format. */
  datatype Product = Product(
    id: string,
    name: string,
    category: string,
    brand: string,
    price: real,
    rating: real,
    features: seq<string>,
    description: string)

  /** One validated recommendation. */
  datatype Recommendation = Recommendation(productId: string, productName: string, reasoning: string)
}
