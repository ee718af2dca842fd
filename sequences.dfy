/** Python and pandas positional operations on sequences: slicing with negative
    and out-of-range bounds, `shift`, `fillna`, truncation of a float to an int,
    and `clip(0, 1)`. */
module Sequences {
  import opened Wrappers

  /** Where a Python slice bound `i` lands in a sequence of length `n`: a
      negative bound counts from the end, and the result is clamped to [0, n]. */
  function Bound(i: int, n: nat): (r: nat)
    ensures r <= n
    ensures 0 <= i <= n ==> r == i
    ensures i > n ==> r == n
    ensures i < 0 ==> r == (if n + i < 0 then 0 else n + i)
  {
    if i < 0 then (if n + i < 0 then 0 else n + i) else if i > n then n else i
  }

  /** `s[:k]` */
  function Take<T>(s: seq<T>, k: int): seq<T> {
    s[..Bound(k, |s|)]
  }

  /** `s[k:]` */
  function Drop<T>(s: seq<T>, k: int): seq<T> {
    s[Bound(k, |s|)..]
  }

  /** `s[a:b]` */
  function Slice<T>(s: seq<T>, a: int, b: int): (r: seq<T>)
    ensures 0 <= a <= b <= |s| ==> r == s[a..b]
  {
    var i := Bound(a, |s|);
    var j := Bound(b, |s|);
    if i <= j then s[i..j] else []
  }

  /** `s[-k:]`: note that `k == 0` gives the whole sequence. */
  function Last<T>(s: seq<T>, k: int): seq<T> {
    Drop(s, -k)
  }

  /** For every bound, `s[:k] + s[k:] == s`. */
  lemma TakeDropPartition<T>(s: seq<T>, k: int)
    ensures Take(s, k) + Drop(s, k) == s
    ensures |Take(s, k)| + |Drop(s, k)| == |s|
    ensures 0 <= k <= |s| ==> |Take(s, k)| == k
  {
  }

  /** `s[-k:]` for `1 <= k` holds the last min(k, |s|) elements, in order. */
  lemma LastShape<T>(s: seq<T>, k: int)
    requires k >= 1
    ensures |Last(s, k)| == (if k <= |s| then k else |s|)
    ensures forall i :: 0 <= i < |Last(s, k)| ==> Last(s, k)[i] == s[|s| - |Last(s, k)| + i]
  {
  }

  /** pandas `Series.shift(d)` by position: element `i` moves to `i + d`, and the
      vacated positions are missing. */
  function Shift<T>(s: seq<T>, d: int): (r: seq<Option<T>>)
    ensures |r| == |s|
    ensures forall i :: 0 <= i < |s| ==> r[i] == if 0 <= i - d < |s| then Some(s[i - d]) else None
  {
    seq(|s|, i requires 0 <= i < |s| => if 0 <= i - d < |s| then Some(s[i - d]) else None)
  }

  /** pandas `fillna(v)` */
  function FillMissing<T>(s: seq<Option<T>>, v: T): (r: seq<T>)
    ensures |r| == |s|
    ensures forall i :: 0 <= i < |s| ==> r[i] == if s[i].Some? then s[i].value else v
  {
    seq(|s|, i requires 0 <= i < |s| => if s[i].Some? then s[i].value else v)
  }

  /** Python `int(x)` of a float: truncation toward zero. */
  function Trunc(x: real): (r: int)
    ensures x >= 0.0 ==> r == x.Floor
    ensures r as real <= x < r as real + 1.0 || r as real - 1.0 < x <= r as real
  {
    if x >= 0.0 then x.Floor else -((-x).Floor)
  }

  /** numpy `clip(x, 0, 1)` */
  function Clip(x: real): (r: real)
    ensures 0.0 <= r <= 1.0
    ensures 0.0 <= x <= 1.0 ==> r == x
    ensures x < 0.0 ==> r == 0.0
    ensures x > 1.0 ==> r == 1.0
  {
    if x < 0.0 then 0.0 else if x > 1.0 then 1.0 else x
  }

  function ClipAll(s: seq<real>): (r: seq<real>)
    ensures |r| == |s|
    ensures forall i :: 0 <= i < |s| ==> r[i] == Clip(s[i])
    ensures forall i :: 0 <= i < |r| ==> 0.0 <= r[i] <= 1.0
  {
    seq(|s|, i requires 0 <= i < |s| => Clip(s[i]))
  }

  function Min(a: int, b: int): int {
    if a <= b then a else b
  }

  function Max(a: int, b: int): int {
    if a >= b then a else b
  }

  /** Euclidean division brackets its dividend. */
  lemma DivBounds(a: int, b: int)
    requires b >= 1
    ensures (a / b) * b <= a < (a / b) * b + b
  {
  }

  /** Multiplying by a natural number keeps the order. */
  lemma MulMonotone(a: int, b: int, c: nat)
    requires a <= b
    ensures a * c <= b * c
  {
  }

  /** The position of the last occurrence of `x` in `s`, if any. */
  function IndexOf<T(==)>(s: seq<T>, x: T): (r: Option<nat>)
    ensures r.Some? ==> r.value < |s| && s[r.value] == x
    ensures r.None? <==> x !in s
  {
    if |s| == 0 then None
    else if s[|s| - 1] == x then Some(|s| - 1)
    else IndexOf(s[..|s| - 1], x)
  }

  /** In a sequence without repetitions, the position of an element is unique. */
  lemma IndexOfDistinct<T>(s: seq<T>, i: nat)
    requires Distinct(s) && i < |s|
    ensures IndexOf(s, s[i]) == Some(i)
  {
  }

  /** The elements of a sequence are pairwise distinct. */
  predicate Distinct<T(==)>(s: seq<T>) {
    forall i, j :: 0 <= i < j < |s| ==> s[i] != s[j]
  }

  /** The decimal digits of a natural number, as `str(n)` writes them. */
  function NatToString(n: nat): (r: string)
    ensures |r| >= 1
    ensures forall i :: 0 <= i < |r| ==> '0' <= r[i] <= '9'
  {
    if n < 10 then [Digit(n)] else NatToString(n / 10) + [Digit(n % 10)]
  }

  /** Different numbers are written differently. */
  lemma {:induction false} NatToStringInjective(a: nat, b: nat)
    requires NatToString(a) == NatToString(b)
    ensures a == b
  {
    var s := NatToString(a);
    if a >= 10 && b >= 10 {
      assert NatToString(a / 10) == s[..|s| - 1] == NatToString(b / 10);
      assert Digit(a % 10) == s[|s| - 1] == Digit(b % 10);
      NatToStringInjective(a / 10, b / 10);
    } else if a < 10 && b < 10 {
      assert Digit(a) == s[0] == Digit(b);
    }
  }

  function Digit(d: nat): (c: char)
    requires d < 10
    ensures '0' <= c <= '9'
  {
    (48 + d) as char
  }
}
