/**
 * Shared vocabulary for the crew-hub model: optional values, the few
 * JavaScript string operations the components rely on (startsWith,
 * includes, replace with a string pattern, toLowerCase, trim), list
 * helpers (filter, count, sum, a stable sort by an integer key) and the
 * exact-integer forms of Math.round, Math.floor and Math.ceil that the
 * percentage and day arithmetic use.
 */
module Util {

  datatype Option<T> = None | Some(value: T)

  // ---------------------------------------------------------------------
  // Strings
  // ---------------------------------------------------------------------

  /** `s.startsWith(p)` */
  predicate StartsWith(s: string, p: string) {
    |p| <= |s| && s[..|p|] == p
  }

  /** Index of the first occurrence of `t` in `s` (JavaScript `indexOf`). */
  function IndexOf(s: string, t: string): (r: Option<nat>)
    ensures r.Some? ==> r.value + |t| <= |s| && s[r.value..r.value + |t|] == t
    ensures r.Some? ==> forall i :: 0 <= i < r.value ==> !StartsWith(s[i..], t)
    ensures r.None? ==> forall i :: 0 <= i <= |s| ==> !StartsWith(s[i..], t)
    decreases |s|
  {
    if StartsWith(s, t) then Some(0)
    else if |s| == 0 then None
    else
      match IndexOf(s[1..], t)
      case None =>
        forall i | 1 <= i <= |s| ensures !StartsWith(s[i..], t) {
          assert s[i..] == s[1..][i - 1..];
        }
        None
      case Some(k) =>
        forall i | 1 <= i <= k ensures !StartsWith(s[i..], t) {
          assert s[i..] == s[1..][i - 1..];
        }
        assert s[k + 1..k + 1 + |t|] == s[1..][k..k + |t|];
        Some(k + 1)
  }

  /** `s.includes(t)` */
  predicate Contains(s: string, t: string) {
    IndexOf(s, t).Some?
  }

  /** `s.replace(pattern, with)` with a string pattern: only the first occurrence is replaced. */
  function ReplaceFirst(s: string, pattern: string, with: string): (r: string)
    ensures !Contains(s, pattern) ==> r == s
    ensures Contains(s, pattern) ==>
              exists i :: && 0 <= i && i + |pattern| <= |s| && s[i..i + |pattern|] == pattern
                          && (forall j :: 0 <= j < i ==> !StartsWith(s[j..], pattern))
                          && r == s[..i] + with + s[i + |pattern|..]
  {
    match IndexOf(s, pattern)
    case None => s
    case Some(i) => s[..i] + with + s[i + |pattern|..]
  }

  /** Replacing a prefix that is there strips exactly that prefix. */
  lemma ReplacePrefix(s: string, p: string)
    requires StartsWith(s, p)
    ensures ReplaceFirst(s, p, "") == s[|p|..]
  {
    assert s[0..] == s;
    assert IndexOf(s, p) == Some(0);
  }

  /** The empty string is contained in every string. */
  lemma ContainsEmpty(s: string)
    ensures Contains(s, "")
  {
    assert s[..0] == "";
    assert StartsWith(s, "");
  }

  function LowerChar(c: char): (r: char)
    ensures 'A' <= c <= 'Z' ==> r as int == c as int + 32
    ensures !('A' <= c <= 'Z') ==> r == c
  {
    if 'A' <= c <= 'Z' then (c as int + 32) as char else c
  }

  /** `s.toLowerCase()` restricted to the ASCII letters. */
  function ToLower(s: string): (r: string)
    ensures |r| == |s|
    ensures forall i :: 0 <= i < |s| ==> r[i] == LowerChar(s[i])
  {
    seq(|s|, i requires 0 <= i < |s| => LowerChar(s[i]))
  }

  /** The characters `String.prototype.trim` removes: ECMAScript WhiteSpace and LineTerminator. */
  predicate IsJsSpace(c: char) {
    c == ' ' || c == '\t' || c == '\n' || c == '\r' || c == '\U{000B}' || c == '\U{000C}'
    || c == '\U{00A0}' || c == '\U{1680}' || ('\U{2000}' <= c <= '\U{200A}')
    || c == '\U{2028}' || c == '\U{2029}' || c == '\U{202F}' || c == '\U{205F}'
    || c == '\U{3000}' || c == '\U{FEFF}'
  }

  function TrimStart(s: string): (r: string)
    ensures |r| <= |s| && r == s[|s| - |r|..]
    ensures forall i :: 0 <= i < |s| - |r| ==> IsJsSpace(s[i])
    ensures r != [] ==> !IsJsSpace(r[0])
  {
    if s != [] && IsJsSpace(s[0]) then
      var r := TrimStart(s[1..]);
      assert s[1..][|s| - 1 - |r|..] == s[|s| - |r|..];
      r
    else s
  }

  function TrimEnd(s: string): (r: string)
    ensures |r| <= |s| && r == s[..|r|]
    ensures forall i :: |r| <= i < |s| ==> IsJsSpace(s[i])
    ensures r != [] ==> !IsJsSpace(r[|r| - 1])
  {
    if s != [] && IsJsSpace(s[|s| - 1]) then
      var r := TrimEnd(s[..|s| - 1]);
      assert s[..|s| - 1][..|r|] == s[..|r|];
      r
    else s
  }

  /** `r` is the slice of `s` starting at `a`, and everything cut off around it is white space. */
  predicate CutsOnlySpace(s: string, r: string, a: int) {
    && 0 <= a && a + |r| <= |s| && r == s[a..a + |r|]
    && (forall i :: 0 <= i < a ==> IsJsSpace(s[i]))
    && (forall i :: a + |r| <= i < |s| ==> IsJsSpace(s[i]))
  }

  /** `s.trim()`: the longest slice of `s` with no JavaScript white space at either end. */
  function Trim(s: string): (r: string)
    ensures |r| <= |s|
    ensures r != [] ==> !IsJsSpace(r[0]) && !IsJsSpace(r[|r| - 1])
    ensures exists a :: CutsOnlySpace(s, r, a)
  {
    TrimCutsOnlySpace(s);
    TrimEnd(TrimStart(s))
  }

  /** Trimming cuts white space only, from both ends of one slice. */
  lemma TrimCutsOnlySpace(s: string)
    ensures CutsOnlySpace(s, TrimEnd(TrimStart(s)), |s| - |TrimStart(s)|)
  {
    CutsCompose(s, TrimStart(s), TrimEnd(TrimStart(s)));
  }

  /** A white-space-only cut at the front followed by one at the back is one cut around a slice. */
  lemma CutsCompose(s: string, t: string, r: string)
    requires |t| <= |s| && t == s[|s| - |t|..]
    requires forall i :: 0 <= i < |s| - |t| ==> IsJsSpace(s[i])
    requires |r| <= |t| && r == t[..|r|]
    requires forall i :: |r| <= i < |t| ==> IsJsSpace(t[i])
    ensures CutsOnlySpace(s, r, |s| - |t|)
  {
    var a := |s| - |t|;
    assert s[a..][..|r|] == s[a..a + |r|];
    forall i | a + |r| <= i < |s|
      ensures IsJsSpace(s[i])
    {
      assert s[i] == t[i - a];
    }
  }

  /** A string trims to nothing exactly when every character of it is white space. */
  lemma {:induction false} TrimEmptyIff(s: string)
    ensures Trim(s) == "" <==> forall i :: 0 <= i < |s| ==> IsJsSpace(s[i])
  {
    var a := TrimStart(s);
    if a != [] {
      assert !IsJsSpace(a[0]);
      assert TrimEnd(a) != [];
      assert !IsJsSpace(s[|s| - |a|]);
    }
  }

  // ---------------------------------------------------------------------
  // Lists
  // ---------------------------------------------------------------------

  /** `r` is obtained from `s` by deleting elements, keeping the order of the rest. */
  predicate IsSubsequence<T(==)>(r: seq<T>, s: seq<T>)
    decreases |s|
  {
    r == [] || (s != [] && ((r[0] == s[0] && IsSubsequence(r[1..], s[1..])) || IsSubsequence(r, s[1..])))
  }

  /** `s.filter(p)` */
  function Filter<T(==)>(s: seq<T>, p: T -> bool): (r: seq<T>)
    ensures |r| <= |s|
    ensures forall i :: 0 <= i < |r| ==> p(r[i]) && r[i] in s
    ensures forall i :: 0 <= i < |s| && p(s[i]) ==> s[i] in r
  {
    if s == [] then []
    else
      var rest := Filter(s[1..], p);
      assert forall i :: 1 <= i < |s| ==> s[i] == s[1..][i - 1];
      if p(s[0]) then [s[0]] + rest else rest
  }

  /** The filtered list keeps the original relative order. */
  lemma {:induction false} FilterIsSubsequence<T>(s: seq<T>, p: T -> bool)
    ensures IsSubsequence(Filter(s, p), s)
  {
    if s != [] {
      FilterIsSubsequence(s[1..], p);
      var rest := Filter(s[1..], p);
      if p(s[0]) {
        assert Filter(s, p) == [s[0]] + rest;
        assert ([s[0]] + rest)[1..] == rest;
      }
    }
  }

  /** Filtering a list with one more element at the end. */
  lemma {:induction false} FilterSnoc<T>(s: seq<T>, x: T, p: T -> bool)
    ensures Filter(s + [x], p) == Filter(s, p) + (if p(x) then [x] else [])
  {
    if s != [] {
      assert (s + [x])[0] == s[0];
      assert (s + [x])[1..] == s[1..] + [x];
      FilterSnoc(s[1..], x, p);
    } else {
      assert s + [x] == [x];
      assert [x][1..] == [];
    }
  }

  /** The number of elements satisfying `p`. */
  function Count<T(==)>(s: seq<T>, p: T -> bool): (n: nat)
    ensures n <= |s|
    ensures n == |Filter(s, p)|
    ensures n == 0 <==> forall i :: 0 <= i < |s| ==> !p(s[i])
    ensures n == |s| <==> forall i :: 0 <= i < |s| ==> p(s[i])
  {
    if s == [] then 0
    else
      var rest := Count(s[1..], p);
      assert forall i :: 1 <= i < |s| ==> s[i] == s[1..][i - 1];
      (if p(s[0]) then 1 else 0) + rest
  }

  lemma {:induction false} CountAppend<T>(a: seq<T>, b: seq<T>, p: T -> bool)
    ensures Count(a + b, p) == Count(a, p) + Count(b, p)
  {
    if a != [] {
      assert (a + b)[0] == a[0];
      assert (a + b)[1..] == a[1..] + b;
      assert Count(a + b, p) == (if p(a[0]) then 1 else 0) + Count((a + b)[1..], p);
      CountAppend(a[1..], b, p);
    } else {
      assert a + b == b;
    }
  }

  /** `s.reduce((sum, x) => sum + f(x), 0)` */
  function Sum<T>(s: seq<T>, f: T -> int): int {
    if s == [] then 0 else f(s[0]) + Sum(s[1..], f)
  }

  lemma {:induction false} SumAppend<T>(a: seq<T>, b: seq<T>, f: T -> int)
    ensures Sum(a + b, f) == Sum(a, f) + Sum(b, f)
  {
    if a != [] {
      assert (a + b)[0] == a[0];
      assert (a + b)[1..] == a[1..] + b;
      assert Sum(a + b, f) == f(a[0]) + Sum((a + b)[1..], f);
      SumAppend(a[1..], b, f);
    } else {
      assert a + b == b;
    }
  }

  /** The sum over a list splits into the sum over the elements that pass `p` and those that do not. */
  lemma {:induction false} SumPartition<T>(s: seq<T>, f: T -> int, p: T -> bool)
    ensures Sum(s, f) == Sum(Filter(s, p), f) + Sum(Filter(s, x => !p(x)), f)
  {
    if s != [] {
      SumPartition(s[1..], f, p);
      if p(s[0]) {
        assert Filter(s, p) == [s[0]] + Filter(s[1..], p);
        assert ([s[0]] + Filter(s[1..], p))[1..] == Filter(s[1..], p);
      } else {
        assert Filter(s, x => !p(x)) == [s[0]] + Filter(s[1..], x => !p(x));
        assert ([s[0]] + Filter(s[1..], x => !p(x)))[1..] == Filter(s[1..], x => !p(x));
      }
    }
  }

  predicate SortedBy<T>(s: seq<T>, key: T -> int) {
    forall i, j :: 0 <= i < j < |s| ==> key(s[i]) <= key(s[j])
  }

  /** Puts `x` in front of the first element whose key is not smaller than its own. */
  function InsertBy<T(==)>(x: T, s: seq<T>, key: T -> int): (r: seq<T>)
    ensures multiset(r) == multiset{x} + multiset(s)
    ensures |r| == |s| + 1
  {
    if s == [] || key(x) <= key(s[0]) then [x] + s
    else
      assert s == [s[0]] + s[1..];
      [s[0]] + InsertBy(x, s[1..], key)
  }

  /** A lower bound on `x` and on every element of `s` bounds every element of the insertion. */
  lemma {:induction false} InsertByBounded<T>(x: T, s: seq<T>, key: T -> int, b: int)
    requires b <= key(x) && forall i :: 0 <= i < |s| ==> b <= key(s[i])
    ensures forall k :: 0 <= k < |InsertBy(x, s, key)| ==> b <= key(InsertBy(x, s, key)[k])
  {
    if s != [] && key(s[0]) < key(x) {
      InsertByBounded(x, s[1..], key, b);
      assert InsertBy(x, s, key) == [s[0]] + InsertBy(x, s[1..], key);
    }
  }

  /** Inserting into a sorted sequence keeps it sorted. */
  lemma {:induction false} InsertBySorted<T>(x: T, s: seq<T>, key: T -> int)
    requires SortedBy(s, key)
    ensures SortedBy(InsertBy(x, s, key), key)
  {
    if s != [] && key(s[0]) < key(x) {
      var rest := InsertBy(x, s[1..], key);
      InsertBySorted(x, s[1..], key);
      InsertByBounded(x, s[1..], key, key(s[0]));
      assert InsertBy(x, s, key) == [s[0]] + rest;
    }
  }

  /**
   * `s.sort((a, b) => key(a) - key(b))`: an insertion sort that keeps equal
   * keys in their original order (Array.prototype.sort is stable).
   */
  function SortBy<T(==)>(s: seq<T>, key: T -> int): (r: seq<T>)
    ensures SortedBy(r, key)
    ensures multiset(r) == multiset(s)
    ensures |r| == |s|
  {
    if s == [] then []
    else
      assert s == [s[0]] + s[1..];
      InsertBySorted(s[0], SortBy(s[1..], key), key);
      InsertBy(s[0], SortBy(s[1..], key), key)
  }

  // ---------------------------------------------------------------------
  // Arithmetic
  // ---------------------------------------------------------------------

  /**
   * `Math.round((part / whole) * 100)` for `whole > 0`, computed exactly:
   * `Math.round(x)` is `floor(x + 1/2)`, so halves round up.
   */
  function RoundPercent(part: nat, whole: nat): (r: int)
    requires whole > 0
    ensures 2 * whole * r <= 200 * part + whole < 2 * whole * (r + 1)
  {
    var n, d := 200 * part + whole, 2 * whole;
    assert d * (n / d) + n % d == n;
    n / d
  }

  /** A rounded share of a whole lies between 0 and 100, and is 0 or 100 at the ends. */
  lemma PercentBounds(part: nat, whole: nat)
    requires 0 < whole && part <= whole
    ensures 0 <= RoundPercent(part, whole) <= 100
    ensures part == 0 ==> RoundPercent(part, whole) == 0
    ensures part == whole ==> RoundPercent(part, whole) == 100
  {
    var r := RoundPercent(part, whole);
    if r < 0 {
      MulNonPos(2 * whole, r + 1);
    }
    if r > 100 {
      MulMono(2 * whole, 101, r);
    }
    if part == 0 && r >= 1 {
      MulMono(2 * whole, 1, r);
    }
    if part == whole && r <= 99 {
      MulMono(2 * whole, r + 1, 100);
    }
  }

  /** The rounded share is the nearest whole percentage: it is off by at most one half. */
  lemma PercentNearest(part: nat, whole: nat)
    requires 0 < whole
    ensures -(whole as int) <= 2 * (100 * part - whole * RoundPercent(part, whole)) <= whole
  {
  }

  lemma MulMono(a: int, x: int, y: int)
    requires a >= 0 && x <= y
    ensures a * x <= a * y
  {
  }

  lemma MulNonPos(a: int, x: int)
    requires a >= 0 && x <= 0
    ensures a * x <= 0
  {
  }

  /** `Math.ceil(d / q)` for a positive divisor, correct for negative `d`. */
  function CeilDiv(d: int, q: int): (r: int)
    requires q > 0
    ensures (r - 1) * q < d <= r * q
  {
    var m := -d;
    assert q * (m / q) + m % q == m;
    -(m / q)
  }

  /** `Math.floor(ms / 60000)`: whole minutes in a span of milliseconds, rounding down. */
  function WholeMinutes(ms: int): (r: int)
    ensures r * 60000 <= ms < (r + 1) * 60000
  {
    assert 60000 * (ms / 60000) + ms % 60000 == ms;
    ms / 60000
  }
}
