/** String primitives the agent relies on: Python's `lower`, `upper`, `strip`,
    the `in` substring test, `join`, negative slicing and `replace`, restricted
    to the ASCII range (see README, "Left out"). */
module Text {
  import opened Types

  /** Python's `str.lower()` on one character (ASCII letters only). */
  function LowerChar(c: char): char
  {
    if 'A' <= c <= 'Z' then (c as int + 32) as char else c
  }

  /** Python's `str.upper()` on one character (ASCII letters only). */
  function UpperChar(c: char): char
  {
    if 'a' <= c <= 'z' then (c as int - 32) as char else c
  }

  function Lower(s: string): (r: string)
    ensures |r| == |s|
    ensures forall i :: 0 <= i < |s| ==> r[i] == LowerChar(s[i])
  {
    seq(|s|, i requires 0 <= i < |s| => LowerChar(s[i]))
  }

  function Upper(s: string): (r: string)
    ensures |r| == |s|
    ensures forall i :: 0 <= i < |s| ==> r[i] == UpperChar(s[i])
  {
    seq(|s|, i requires 0 <= i < |s| => UpperChar(s[i]))
  }

  /** The ASCII characters for which Python's `str.isspace()` holds. */
  predicate IsSpace(c: char)
  {
    c == ' ' || 9 <= c as int <= 13 || 28 <= c as int <= 31
  }

  /** Number of leading whitespace characters. */
  function LeadingSpaces(s: string): (n: nat)
    ensures n <= |s|
    ensures forall i :: 0 <= i < n ==> IsSpace(s[i])
    ensures n < |s| ==> !IsSpace(s[n])
  {
    if s == [] || !IsSpace(s[0]) then 0 else 1 + LeadingSpaces(s[1..])
  }

  /** Number of trailing whitespace characters. */
  function TrailingSpaces(s: string): (n: nat)
    ensures n <= |s|
    ensures forall i :: |s| - n <= i < |s| ==> IsSpace(s[i])
    ensures n < |s| ==> !IsSpace(s[|s| - n - 1])
  {
    if s == [] || !IsSpace(s[|s| - 1]) then 0 else 1 + TrailingSpaces(s[..|s| - 1])
  }

  /** Python's `str.strip()`: the longest slice of `s` that neither starts nor
      ends with whitespace, with only whitespace cut on either side. */
  function Strip(s: string): (r: string)
    ensures LeadingSpaces(s) + |r| <= |s|
    ensures r == s[LeadingSpaces(s)..LeadingSpaces(s) + |r|]
    ensures forall k :: LeadingSpaces(s) + |r| <= k < |s| ==> IsSpace(s[k])
    ensures r != [] ==> !IsSpace(r[0]) && !IsSpace(r[|r| - 1])
  {
    var a := LeadingSpaces(s);
    var t := s[a..];
    var b := TrailingSpaces(t);
    assert forall k :: |t| - b <= k < |t| ==> IsSpace(t[k]);
    t[..|t| - b]
  }

  lemma {:induction false} NoLeadingSpaces(s: string)
    requires s == [] || !IsSpace(s[0])
    ensures LeadingSpaces(s) == 0
  {
  }

  lemma {:induction false} NoTrailingSpaces(s: string)
    requires s == [] || !IsSpace(s[|s| - 1])
    ensures TrailingSpaces(s) == 0
  {
  }

  /** A string that neither starts nor ends with whitespace is its own strip. */
  lemma StripNoop(s: string)
    requires s == [] || (!IsSpace(s[0]) && !IsSpace(s[|s| - 1]))
    ensures Strip(s) == s
  {
    NoLeadingSpaces(s);
    assert s[0..] == s;
    NoTrailingSpaces(s);
  }

  /** Stripping twice is stripping once. */
  lemma StripIdempotent(s: string)
    ensures Strip(Strip(s)) == Strip(s)
  {
    StripNoop(Strip(s));
  }

  /** Lower-casing keeps a stripped string stripped. */
  lemma StripLower(s: string)
    requires Strip(s) == s
    ensures Strip(Lower(s)) == Lower(s)
  {
    StripNoop(Lower(s));
  }

  /** `p` is a prefix of `s`. */
  predicate StartsWith(s: string, p: string)
  {
    |p| <= |s| && s[..|p|] == p
  }

  /** `s` ends with `p`. */
  predicate EndsWith(s: string, p: string)
  {
    |p| <= |s| && s[|s| - |p|..] == p
  }

  /** `p` occurs in `s` starting at index `i`. */
  predicate OccursAt(s: string, p: string, i: int)
  {
    0 <= i <= |s| - |p| && s[i..i + |p|] == p
  }

  /** Python's `p in s` for strings: `p` occurs in `s` as a contiguous substring. */
  predicate Contains(s: string, p: string)
    decreases |s|
  {
    StartsWith(s, p) || (s != [] && Contains(s[1..], p))
  }

  /** `Contains` agrees with the positional definition of a substring, in both directions. */
  lemma {:induction false} ContainsAt(s: string, p: string)
    ensures Contains(s, p) <==> exists i :: OccursAt(s, p, i)
    decreases |s|
  {
    if StartsWith(s, p) {
      assert OccursAt(s, p, 0);
    } else if s == [] {
      assert |p| > 0;
    } else {
      ContainsAt(s[1..], p);
      if Contains(s[1..], p) {
        var i :| OccursAt(s[1..], p, i);
        assert s[i + 1..i + 1 + |p|] == s[1..][i..i + |p|];
        assert OccursAt(s, p, i + 1);
      }
      if exists i :: OccursAt(s, p, i) {
        var i :| OccursAt(s, p, i);
        assert i != 0;
        assert s[1..][i - 1..i - 1 + |p|] == s[i..i + |p|];
        assert OccursAt(s[1..], p, i - 1);
      }
    }
  }

  /** A string is contained in any string it is a slice of. */
  lemma ContainsSlice(s: string, i: nat, j: nat)
    requires i <= j <= |s|
    ensures Contains(s, s[i..j])
  {
    ContainsAt(s, s[i..j]);
    assert OccursAt(s, s[i..j], i);
  }

  /** Python's `sep.join(parts)`. */
  function Join(sep: string, parts: seq<string>): string
  {
    if parts == [] then ""
    else if |parts| == 1 then parts[0]
    else parts[0] + sep + Join(sep, parts[1..])
  }

  /** A join of non-empty parts starts with the first part. */
  lemma JoinStartsWithFirst(sep: string, parts: seq<string>)
    requires parts != []
    ensures StartsWith(Join(sep, parts), parts[0])
  {
  }

  /** `r` holds `t` at offset `o`. */
  predicate HoldsAt<T(==)>(r: seq<T>, t: seq<T>, o: nat)
  {
    o + |t| <= |r| && r[o..o + |t|] == t
  }

  /** The blocks one after the other. */
  function Flatten<T>(blocks: seq<seq<T>>): seq<T>
  {
    if blocks == [] then [] else blocks[0] + Flatten(blocks[1..])
  }

  /** Where block `i` starts in `Flatten(blocks)`: after every earlier block. */
  function BlockOffset<T>(blocks: seq<seq<T>>, i: nat): nat
    requires i <= |blocks|
  {
    if i == 0 then 0 else BlockOffset(blocks, i - 1) + |blocks[i - 1]|
  }

  /** Dropping the first block moves every later offset back by its length. */
  lemma {:induction false} BlockOffsetShift<T>(blocks: seq<seq<T>>, i: nat)
    requires 1 <= i <= |blocks|
    ensures BlockOffset(blocks, i) == |blocks[0]| + BlockOffset(blocks[1..], i - 1)
  {
    if i > 1 {
      BlockOffsetShift(blocks, i - 1);
      assert blocks[1..][i - 2] == blocks[i - 1];
    }
  }

  /** The flattening is exactly as long as its blocks together. */
  lemma {:induction false} FlattenLength<T>(blocks: seq<seq<T>>)
    ensures |Flatten(blocks)| == BlockOffset(blocks, |blocks|)
  {
    if blocks != [] {
      FlattenLength(blocks[1..]);
      BlockOffsetShift(blocks, |blocks|);
    }
  }

  /** Block `i` sits at its offset in the flattening. */
  lemma {:induction false} FlattenBlockAt<T>(blocks: seq<seq<T>>, i: nat)
    requires i < |blocks|
    ensures HoldsAt(Flatten(blocks), blocks[i], BlockOffset(blocks, i))
    decreases |blocks|
  {
    var head, rest := blocks[0], Flatten(blocks[1..]);
    assert Flatten(blocks) == head + rest;
    if i == 0 {
      assert (head + rest)[..|head|] == head;
    } else {
      FlattenBlockAt(blocks[1..], i - 1);
      BlockOffsetShift(blocks, i);
      assert blocks[1..][i - 1] == blocks[i];
      var lo, n := BlockOffset(blocks[1..], i - 1), |blocks[i]|;
      assert (head + rest)[|head| + lo..|head| + lo + n] == rest[lo..lo + n];
    }
  }

  /** Python's `c * n` for one character. */
  function Repeat(c: char, n: nat): (r: string)
    ensures |r| == n && forall i :: 0 <= i < n ==> r[i] == c
  {
    if n == 0 then [] else [c] + Repeat(c, n - 1)
  }

  /** Where part `i` starts in `Join(sep, parts)`: each earlier part and its
      separator come before it. */
  function JoinOffset(sep: string, parts: seq<string>, i: nat): nat
    requires i <= |parts|
  {
    if i == 0 then 0 else JoinOffset(sep, parts, i - 1) + |parts[i - 1]| + |sep|
  }

  /** Dropping the first part moves every later offset back by that part and a separator. */
  lemma {:induction false} JoinOffsetShift(sep: string, parts: seq<string>, i: nat)
    requires 1 <= i <= |parts|
    ensures JoinOffset(sep, parts, i) == |parts[0]| + |sep| + JoinOffset(sep, parts[1..], i - 1)
  {
    if i > 1 {
      JoinOffsetShift(sep, parts, i - 1);
    }
  }

  /** The length of a join: every part and every separator but one. */
  lemma {:induction false} JoinLength(sep: string, parts: seq<string>)
    requires parts != []
    ensures |Join(sep, parts)| + |sep| == JoinOffset(sep, parts, |parts|)
  {
    if |parts| > 1 {
      JoinLength(sep, parts[1..]);
      JoinOffsetShift(sep, parts, |parts|);
    }
  }

  /** A slice of the second half of a concatenation. */
  lemma SliceAfter(a: string, b: string, lo: nat, hi: nat)
    requires lo <= hi <= |b|
    ensures (a + b)[|a| + lo..|a| + hi] == b[lo..hi]
  {
  }

  /** Part `i` of a join sits at its offset. */
  lemma {:induction false} JoinPartAt(sep: string, parts: seq<string>, i: nat)
    requires i < |parts|
    ensures var j, o := Join(sep, parts), JoinOffset(sep, parts, i);
            o + |parts[i]| <= |j| && j[o..o + |parts[i]|] == parts[i]
    decreases |parts|
  {
    if |parts| == 1 {
      assert Join(sep, parts) == parts[0];
    } else {
      var head := parts[0] + sep;
      var jr := Join(sep, parts[1..]);
      assert Join(sep, parts) == head + jr;
      if i == 0 {
        assert (head + jr)[..|parts[0]|] == parts[0];
      } else {
        JoinPartAt(sep, parts[1..], i - 1);
        JoinOffsetShift(sep, parts, i);
        var o' := JoinOffset(sep, parts[1..], i - 1);
        SliceAfter(head, jr, o', o' + |parts[i]|);
      }
    }
  }

  /** The separator follows every part but the last. */
  lemma {:induction false} JoinSepAfter(sep: string, parts: seq<string>, i: nat)
    requires i + 1 < |parts|
    ensures var j, e := Join(sep, parts), JoinOffset(sep, parts, i) + |parts[i]|;
            e + |sep| <= |j| && j[e..e + |sep|] == sep
    decreases |parts|
  {
    var head := parts[0] + sep;
    var jr := Join(sep, parts[1..]);
    assert Join(sep, parts) == head + jr;
    if i == 0 {
      assert (head + jr)[|parts[0]|..|head|] == sep;
    } else {
      JoinSepAfter(sep, parts[1..], i - 1);
      JoinOffsetShift(sep, parts, i);
      var e' := JoinOffset(sep, parts[1..], i - 1) + |parts[i]|;
      SliceAfter(head, jr, e', e' + |sep|);
    }
  }

  /** Python's `s[-n:]` for `n > 0`: the last `n` elements, or all of them. */
  function LastN<T>(s: seq<T>, n: nat): (r: seq<T>)
    ensures |r| == if |s| <= n then |s| else n
    ensures r == s[|s| - |r|..]
  {
    if |s| <= n then s else s[|s| - n..]
  }

  /** Python's `s[:k]` for a non-negative `k`. */
  function Prefix<T>(s: seq<T>, k: nat): (r: seq<T>)
    ensures |r| == if |s| <= k then |s| else k
    ensures r == s[..|r|]
  {
    if |s| <= k then s else s[..k]
  }

  /** Python's `s[:k]` for any integer `k` (a negative `k` counts from the end). */
  function PySliceTo<T>(s: seq<T>, k: int): (r: seq<T>)
    ensures |r| == if k >= 0 then (if |s| <= k then |s| else k) else (if |s| + k <= 0 then 0 else |s| + k)
    ensures r == s[..|r|]
  {
    if k >= 0 then Prefix(s, k)
    else if |s| + k <= 0 then []
    else s[..|s| + k]
  }

  /** Python's `s.replace(a, b)` for single characters. */
  function ReplaceChar(s: string, a: char, b: char): (r: string)
    ensures |r| == |s|
    ensures forall i :: 0 <= i < |s| ==> r[i] == (if s[i] == a then b else s[i])
  {
    seq(|s|, i requires 0 <= i < |s| => if s[i] == a then b else s[i])
  }

  /** The decimal text of a one-digit number (turn numbers in formatted history are 1 to 3). */
  function Digit(d: nat): (r: string)
    requires d < 10
    ensures |r| == 1 && '0' <= r[0] <= '9'
  {
    [('0' as int + d) as char]
  }

  /** The index of the first occurrence of `c` in `s`. */
  function FirstIndexOf(s: string, c: char): (r: Option<nat>)
    ensures r.Some? ==> r.value < |s| && s[r.value] == c && forall k :: 0 <= k < r.value ==> s[k] != c
    ensures r.None? ==> forall k :: 0 <= k < |s| ==> s[k] != c
  {
    if s == [] then None
    else if s[0] == c then Some(0)
    else match FirstIndexOf(s[1..], c)
      case None => None
      case Some(i) => Some(i + 1)
  }

  /** The index of the last occurrence of `c` in `s`. */
  function LastIndexOf(s: string, c: char): (r: Option<nat>)
    ensures r.Some? ==> r.value < |s| && s[r.value] == c && forall k :: r.value < k < |s| ==> s[k] != c
    ensures r.None? ==> forall k :: 0 <= k < |s| ==> s[k] != c
  {
    if s == [] then None
    else if s[|s| - 1] == c then Some(|s| - 1)
    else LastIndexOf(s[..|s| - 1], c)
  }

  /** The text holds an opening brace before a closing one. */
  predicate HasBracePair(s: string)
  {
    exists i, j :: 0 <= i < j < |s| && s[i] == '{' && s[j] == '}'
  }

  /** `s[lo..hi + 1]` runs from the first `{` of `s` to its last `}`. */
  predicate IsBraceSpan(s: string, lo: int, hi: int)
  {
    0 <= lo < hi < |s| && s[lo] == '{' && s[hi] == '}'
    && (forall k :: 0 <= k < lo ==> s[k] != '{')
    && (forall k :: hi < k < |s| ==> s[k] != '}')
  }

  /** What the regular expression `\{.*\}` (with `.` matching newlines) finds:
      the span from the first `{` to the last `}`, when a `}` follows some `{`. */
  function BraceSpan(s: string): (r: Option<string>)
    ensures r.None? <==> !HasBracePair(s)
    ensures r.Some? ==> exists lo, hi :: IsBraceSpan(s, lo, hi) && r.value == s[lo..hi + 1]
  {
    var i := FirstIndexOf(s, '{');
    var j := LastIndexOf(s, '}');
    if i.Some? && j.Some? && i.value < j.value then
      assert IsBraceSpan(s, i.value, j.value);
      Some(s[i.value..j.value + 1])
    else None
  }

  /** On a text that starts with `{` and ends with `}`, the span is the whole text. */
  lemma BraceSpanWhole(s: string)
    requires |s| >= 2 && s[0] == '{' && s[|s| - 1] == '}'
    ensures BraceSpan(s) == Some(s)
  {
    assert FirstIndexOf(s, '{') == Some(0);
    assert LastIndexOf(s, '}') == Some(|s| - 1);
    assert s[0..|s| - 1 + 1] == s;
  }

  /** A slice of a text without a brace pair has none either. */
  lemma NoBracePairInSlice(s: string, lo: nat, hi: nat)
    requires lo <= hi <= |s| && !HasBracePair(s)
    ensures !HasBracePair(s[lo..hi])
  {
    forall i, j | 0 <= i < j < hi - lo
      ensures !(s[lo..hi][i] == '{' && s[lo..hi][j] == '}')
    {
      assert s[lo..hi][i] == s[lo + i] && s[lo..hi][j] == s[lo + j];
    }
  }
}
