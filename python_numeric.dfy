/**
 * Python's numeric conversions and list slicing, written out the way the
 * signal analysis relies on them.
 */
module PythonNumeric {
  /** `int(x)` on a float: truncation toward zero. */
  function Trunc(x: real): (r: int)
    ensures x >= 0.0 ==> 0 <= r && r as real <= x < r as real + 1.0
    ensures x < 0.0 ==> r <= 0 && r as real - 1.0 < x <= r as real
  {
    if x >= 0.0 then x.Floor else -((-x).Floor)
  }

  /** `round(x)` on a float: to the nearest integer, halves to the even neighbour. */
  function RoundHalfEven(x: real): (r: int)
    ensures x - 0.5 <= r as real <= x + 0.5
    ensures r as real == x - 0.5 || r as real == x + 0.5 ==> r % 2 == 0
  {
    var f := x.Floor;
    var d := x - f as real;
    if d < 0.5 then f
    else if d > 0.5 then f + 1
    else if f % 2 == 0 then f
    else f + 1
  }

  lemma RoundOfInteger(n: int)
    ensures RoundHalfEven(n as real) == n
  {
  }

  function AbsInt(x: int): nat
  {
    if x < 0 then -x else x
  }

  /** A slice bound as Python reads it: negative counts from the end, then clamped to the list. */
  function SliceBound(i: int, len: nat): (r: nat)
    ensures r <= len
    ensures 0 <= i <= len ==> r == i
    ensures i > len ==> r == len
    ensures 0 - len <= i < 0 ==> r == len + i
    ensures i < 0 - len ==> r == 0
  {
    if i < 0 then (if len + i < 0 then 0 else len + i)
    else if i > len then len
    else i
  }

  /**
   * `s[lo:hi]` for any integer bounds: the elements from the clamped lower
   * bound up to the clamped upper one, in order, and none when the bounds cross.
   */
  function PySlice<T>(s: seq<T>, lo: int, hi: int): (r: seq<T>)
    ensures var a := SliceBound(lo, |s|); var b := SliceBound(hi, |s|);
      && |r| == (if a <= b then b - a else 0)
      && forall k :: 0 <= k < |r| ==> r[k] == s[a + k]
  {
    var a := SliceBound(lo, |s|);
    var b := SliceBound(hi, |s|);
    if a <= b then s[a..b] else []
  }

  /** Slicing with bounds that are already valid indices is plain subsequence. */
  lemma PySliceInRange<T>(s: seq<T>, lo: int, hi: int)
    requires 0 <= lo <= hi <= |s|
    ensures PySlice(s, lo, hi) == s[lo..hi]
  {
  }

  /** `len(range(0, stop, step))` for a positive step. */
  function RangeLen(stop: int, step: int): (r: nat)
    requires step > 0
    ensures stop <= 0 ==> r == 0
    ensures stop > 0 ==> (r - 1) * step < stop <= r * step
  {
    if stop <= 0 then 0 else (stop + step - 1) / step
  }
}
