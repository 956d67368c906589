/**
 * The delta analysis of an interval list: for growing numbers of
 * consecutive events, the shortest and the longest time those events take,
 * and the steps between the shortest times.
 */
module DeltaAnalysis {
  import opened Wrappers
  import PythonNumeric

  function Abs(x: real): real { if x < 0.0 then -x else x }

  /** `numpy.absolute` of the interval list. */
  function AbsAll(s: seq<real>): (r: seq<real>)
    ensures |r| == |s| && forall i :: 0 <= i < |s| ==> r[i] == Abs(s[i]) && r[i] >= 0.0
  {
    seq(|s|, i requires 0 <= i < |s| => Abs(s[i]))
  }

  function Sum(s: seq<real>): real
  {
    if s == [] then 0.0 else Sum(s[..|s| - 1]) + s[|s| - 1]
  }

  /** A sum of non-negative values is non-negative. */
  lemma {:induction false} SumNonNegative(s: seq<real>)
    requires forall i :: 0 <= i < |s| ==> s[i] >= 0.0
    ensures Sum(s) >= 0.0
  {
    if s != [] {
      SumNonNegative(s[..|s| - 1]);
    }
  }

  /** `__duration_for_events`: the time the `k` events from `index` on take. */
  function WindowSum(a: seq<real>, index: nat, k: nat): real
    requires index + k <= |a|
  {
    Sum(a[index..index + k])
  }

  /** The largest number of consecutive events looked at: 60, or fewer when the list is shorter. */
  const MaxEventAmountLimit: nat := 60

  function EventLimit(n: nat): (r: nat)
    ensures r <= n && r <= MaxEventAmountLimit && (r == n || r == MaxEventAmountLimit)
  {
    if n < MaxEventAmountLimit then n else MaxEventAmountLimit
  }

  /** The window sums of `k` events at the starts `index`, `index + step`, ... up to `|a| - k`. */
  function Durations(a: seq<real>, k: nat, step: nat, index: nat): (r: seq<real>)
    requires step > 0 && k <= |a|
    decreases |a| - index
    ensures index + k <= |a| ==> r != []
  {
    if index + k > |a| then [] else [WindowSum(a, index, k)] + Durations(a, k, step, index + step)
  }

  /** `min` of a non-empty list. */
  function SeqMin(s: seq<real>): real
    requires s != []
  {
    if |s| == 1 then s[0]
    else
      var rest := SeqMin(s[1..]);
      if s[0] <= rest then s[0] else rest
  }

  /** `max` of a non-empty list. */
  function SeqMax(s: seq<real>): real
    requires s != []
  {
    if |s| == 1 then s[0]
    else
      var rest := SeqMax(s[1..]);
      if s[0] >= rest then s[0] else rest
  }

  /** The minimum is at most every entry, and is one of them. */
  lemma {:induction false} SeqMinIsLeast(s: seq<real>)
    requires s != []
    ensures forall i :: 0 <= i < |s| ==> SeqMin(s) <= s[i]
    ensures SeqMin(s) in s
  {
    if |s| > 1 {
      SeqMinIsLeast(s[1..]);
      assert forall i :: 1 <= i < |s| ==> s[i] == s[1..][i - 1];
    }
  }

  /** The maximum is at least every entry, and is one of them. */
  lemma {:induction false} SeqMaxIsGreatest(s: seq<real>)
    requires s != []
    ensures forall i :: 0 <= i < |s| ==> s[i] <= SeqMax(s)
    ensures SeqMax(s) in s
  {
    if |s| > 1 {
      SeqMaxIsGreatest(s[1..]);
      assert forall i :: 1 <= i < |s| ==> s[i] == s[1..][i - 1];
    }
  }

  /** The shortest and longest times of `k`, `k + step`, ... events below `limit`. */
  datatype Levels = Levels(mins: seq<real>, maxs: seq<real>)

  function LevelsFrom(a: seq<real>, k: nat, limit: nat, step: nat): (r: Levels)
    requires step > 0 && limit <= |a|
    decreases limit - k
    ensures |r.mins| == |r.maxs|
  {
    if k >= limit then Levels([], [])
    else
      var d := Durations(a, k, step, 0);
      var rest := LevelsFrom(a, k + step, limit, step);
      Levels([SeqMin(d)] + rest.mins, [SeqMax(d)] + rest.maxs)
  }

  /**
   * The minimum and maximum lists of `__generate_delta_lists`: one entry per
   * event amount in `range(start, min(60, len(a)), step)`.
   */
  function DeltaLists(intervals: seq<real>, start: nat, step: nat): (r: Levels)
    requires start >= 1 && step >= 1
    ensures |r.mins| == |r.maxs|
  {
    var a := AbsAll(intervals);
    LevelsFrom(a, start, EventLimit(|a|), step)
  }

  /** Entry `j` of the lists belongs to the event amount `k + j * step`: they are the shortest and the longest window. */
  lemma {:induction false} LevelsEntry(a: seq<real>, k: nat, limit: nat, step: nat, j: nat) returns (amount: nat)
    requires step > 0 && limit <= |a| && j < |LevelsFrom(a, k, limit, step).mins|
    ensures amount == k + j * step && amount < limit
    ensures var r := LevelsFrom(a, k, limit, step); var d := Durations(a, amount, step, 0);
      d != [] && r.mins[j] == SeqMin(d) && r.maxs[j] == SeqMax(d)
    decreases limit - k
  {
    if j == 0 {
      amount := k;
    } else {
      amount := LevelsEntry(a, k + step, limit, step, j - 1);
      assert (j - 1) * step + step == j * step;
    }
  }

  /** Each shortest time is at most the matching longest time. */
  lemma MinAtMostMax(intervals: seq<real>, start: nat, step: nat, j: nat)
    requires start >= 1 && step >= 1 && j < |DeltaLists(intervals, start, step).mins|
    ensures DeltaLists(intervals, start, step).mins[j] <= DeltaLists(intervals, start, step).maxs[j]
  {
    var a := AbsAll(intervals);
    var amount := LevelsEntry(a, start, EventLimit(|a|), step, j);
    var d := Durations(a, amount, step, 0);
    SeqMinIsLeast(d);
    SeqMaxIsGreatest(d);
    assert SeqMin(d) <= d[0] <= SeqMax(d);
  }

  /** Every window sum, and so every entry of both lists, is non-negative. */
  lemma {:induction false} DurationsNonNegative(a: seq<real>, k: nat, step: nat, index: nat)
    requires step > 0 && k <= |a| && forall i :: 0 <= i < |a| ==> a[i] >= 0.0
    ensures forall i :: 0 <= i < |Durations(a, k, step, index)| ==> Durations(a, k, step, index)[i] >= 0.0
    decreases |a| - index
  {
    if index + k <= |a| {
      DurationsNonNegative(a, k, step, index + step);
      SumNonNegative(a[index..index + k]);
    }
  }

  /** Every shortest time is non-negative. */
  lemma MinsNonNegative(intervals: seq<real>, start: nat, step: nat, j: nat)
    requires start >= 1 && step >= 1 && j < |DeltaLists(intervals, start, step).mins|
    ensures DeltaLists(intervals, start, step).mins[j] >= 0.0
  {
    var a := AbsAll(intervals);
    var limit := EventLimit(|a|);
    var amount := LevelsEntry(a, start, limit, step, j);
    var d := Durations(a, amount, step, 0);
    DurationsNonNegative(a, amount, step, 0);
    var m := SeqMin(d);
    SeqMinIsLeast(d);
    var i :| 0 <= i < |d| && d[i] == m;
    assert DeltaLists(intervals, start, step).mins[j] == m;
  }

  /** Entry `m` of the window sums from `index` on is the window starting `m` steps later, at `i`. */
  lemma {:induction false} DurationsAt(a: seq<real>, k: nat, step: nat, index: nat, m: nat) returns (i: nat)
    requires step > 0 && k <= |a| && m < |Durations(a, k, step, index)|
    ensures i == index + m * step && i + k <= |a|
    ensures Durations(a, k, step, index)[m] == WindowSum(a, i, k)
    decreases |a| - index
  {
    if m == 0 {
      i := index;
    } else {
      i := DurationsAt(a, k, step, index + step, m - 1);
      assert index + step + (m - 1) * step == index + m * step;
    }
  }

  /** Every window on the grid of starts that fits in the list is among the window sums. */
  lemma {:induction false} DurationsCover(a: seq<real>, k: nat, step: nat, index: nat, m: nat, i: nat)
    requires step > 0 && k <= |a| && i == index + m * step && i + k <= |a|
    ensures m < |Durations(a, k, step, index)|
    decreases |a| - index
  {
    if m > 0 {
      assert index + step + (m - 1) * step == i;
      DurationsCover(a, k, step, index + step, m - 1, i);
    }
  }

  /** With non-negative entries a prefix never sums to more than the whole. */
  lemma {:induction false} SumPrefixAtMost(s: seq<real>, n: nat)
    requires n <= |s| && forall i :: 0 <= i < |s| ==> s[i] >= 0.0
    ensures Sum(s[..n]) <= Sum(s)
  {
    if n < |s| {
      var p := s[..|s| - 1];
      SumPrefixAtMost(p, n);
      assert p[..n] == s[..n];
    } else {
      assert s[..n] == s;
    }
  }

  /** A window of more events from the same start takes at least as long. */
  lemma WindowGrows(a: seq<real>, i: nat, k: nat, k': nat)
    requires k <= k' && i + k' <= |a| && forall n :: 0 <= n < |a| ==> a[n] >= 0.0
    ensures WindowSum(a, i, k) <= WindowSum(a, i, k')
  {
    var w := a[i..i + k'];
    SumPrefixAtMost(w, k);
    assert w[..k] == a[i..i + k];
  }

  /**
   * The shortest window of `k + step` events takes at least as long as the
   * shortest window of `k` events: it contains the window of `k` events at
   * its own start, and that window is among the shorter amount's windows.
   */
  lemma ShortestGrows(a: seq<real>, k: nat, step: nat)
    requires step > 0 && k + step <= |a| && forall n :: 0 <= n < |a| ==> a[n] >= 0.0
    ensures SeqMin(Durations(a, k, step, 0)) <= SeqMin(Durations(a, k + step, step, 0))
  {
    var d := Durations(a, k, step, 0);
    var d' := Durations(a, k + step, step, 0);
    SeqMinIsLeast(d');
    var m :| 0 <= m < |d'| && d'[m] == SeqMin(d');
    var i := DurationsAt(a, k + step, step, 0, m);
    DurationsCover(a, k, step, 0, m, i);
    var i2 := DurationsAt(a, k, step, 0, m);
    assert i2 == i;
    WindowGrows(a, i, k, k + step);
    assert d[m] <= d'[m];
    SeqMinIsLeast(d);
    assert SeqMin(d) <= d[m];
  }

  /** The shortest time never decreases from one event amount to the next. */
  lemma MinsAscending(intervals: seq<real>, start: nat, step: nat, j: nat)
    requires start >= 1 && step >= 1 && j + 1 < |DeltaLists(intervals, start, step).mins|
    ensures DeltaLists(intervals, start, step).mins[j] <= DeltaLists(intervals, start, step).mins[j + 1]
  {
    var a := AbsAll(intervals);
    var limit := EventLimit(|a|);
    var k := LevelsEntry(a, start, limit, step, j);
    var k' := LevelsEntry(a, start, limit, step, j + 1);
    assert k' == k + step by {
      assert (j + 1) * step == j * step + step;
    }
    ShortestGrows(a, k, step);
  }

  /** So the steps between the shortest times, which the analysis keeps, are never negative. */
  lemma MinIntervalsNonNegative(intervals: seq<real>, start: nat, step: nat)
    requires start >= 1 && step >= 1
    ensures forall i :: 0 <= i < |Steps(DeltaLists(intervals, start, step).mins)| ==>
      Steps(DeltaLists(intervals, start, step).mins)[i] >= 0.0
  {
    var mins := DeltaLists(intervals, start, step).mins;
    forall i | 0 <= i < |Steps(mins)|
      ensures Steps(mins)[i] >= 0.0
    {
      MinsAscending(intervals, start, step, i);
    }
  }

  /** The window loop for one event amount. */
  method WindowDurations(a: seq<real>, k: nat, step: nat) returns (d: seq<real>)
    requires step > 0 && k <= |a|
    ensures d == Durations(a, k, step, 0)
  {
    d := [];
    var index := 0;
    var maxAllowedIndex := |a| - k + 1;
    while index < maxAllowedIndex
      invariant d + Durations(a, k, step, index) == Durations(a, k, step, 0)
      decreases maxAllowedIndex - index
    {
      d := d + [Sum(a[index..index + k])];
      index := index + step;
    }
  }

  lemma AppendAssoc(s: seq<real>, x: real, t: seq<real>)
    ensures (s + [x]) + t == s + ([x] + t)
  {
  }

  /** The loop over the event amounts `k`, `k + step`, ... below `limit`. */
  method CollectLevels(a: seq<real>, start: nat, limit: nat, step: nat) returns (r: Levels)
    requires step > 0 && limit <= |a|
    ensures r == LevelsFrom(a, start, limit, step)
  {
    var mins: seq<real> := [];
    var maxs: seq<real> := [];
    var k := start;
    ghost var all := LevelsFrom(a, start, limit, step);
    ghost var rest := all;
    while k < limit
      invariant rest == LevelsFrom(a, k, limit, step)
      invariant mins + rest.mins == all.mins && maxs + rest.maxs == all.maxs
      decreases limit - k
    {
      var d := WindowDurations(a, k, step);
      var lo, hi := SeqMin(d), SeqMax(d);
      ghost var next := LevelsFrom(a, k + step, limit, step);
      assert rest == Levels([lo] + next.mins, [hi] + next.maxs);
      AppendAssoc(mins, lo, next.mins);
      AppendAssoc(maxs, hi, next.maxs);
      mins := mins + [lo];
      maxs := maxs + [hi];
      k := k + step;
      rest := next;
    }
    r := Levels(mins, maxs);
  }

  /** `__generate_delta_lists`: the absolute intervals and the event amount limit, then the loop. */
  method GenerateDeltaLists(intervals: seq<real>, start: nat, step: nat) returns (r: Levels)
    requires start >= 1 && step >= 1
    ensures r == DeltaLists(intervals, start, step)
  {
    var a := AbsAll(intervals);
    var limit := MaxEventAmountLimit;
    if |a| < limit {
      limit := |a|;
    }
    r := CollectLevels(a, start, limit, step);
  }

  /** `__get_durations_from_interval_list`: the steps between consecutive entries. */
  function Steps(s: seq<real>): (r: seq<real>)
    ensures |s| >= 1 ==> |r| == |s| - 1
    ensures s == [] ==> r == []
    ensures forall i :: 0 <= i < |r| ==> r[i] == s[i + 1] - s[i]
  {
    if |s| <= 1 then [] else seq(|s| - 1, i requires 0 <= i < |s| - 1 => s[i + 1] - s[i])
  }

  /** Adding up the steps gives back how far the last entry lies from the first. */
  lemma {:induction false} StepsTelescope(s: seq<real>)
    requires |s| >= 1
    ensures Sum(Steps(s)) == s[|s| - 1] - s[0]
  {
    if |s| > 1 {
      var p := s[..|s| - 1];
      var t := Steps(s);
      StepsTelescope(p);
      assert t[..|t| - 1] == Steps(p);
      assert Sum(t) == Sum(Steps(p)) + t[|t| - 1];
      assert t[|t| - 1] == s[|s| - 1] - p[|p| - 1] && p[0] == s[0];
    }
  }

  /** The loop of `__get_durations_from_interval_list`. */
  method GetDurationsFromIntervalList(s: seq<real>) returns (r: seq<real>)
    ensures r == Steps(s)
  {
    r := [];
    var i := 1;
    while i < |s|
      invariant 1 <= i <= if |s| >= 1 then |s| else 1
      invariant |r| == i - 1 && forall j :: 0 <= j < |r| ==> r[j] == s[j + 1] - s[j]
    {
      r := r + [s[i] - s[i - 1]];
      i := i + 1;
    }
  }

  /**
   * The analysis object: its constructor keeps the steps between the
   * shortest times, which the transmission block search reads.
   */
  class Analysis {
    var minIntervals: seq<real>

    constructor(intervals: seq<real>, start: nat, step: nat)
      requires start >= 1 && step >= 1
      ensures minIntervals == Steps(DeltaLists(intervals, start, step).mins)
    {
      var levels := GenerateDeltaLists(intervals, start, step);
      var steps := GetDurationsFromIntervalList(levels.mins);
      minIntervals := steps;
    }
  }

  // ---------------------------------------------------------------------------
  // The delta level array

  /** `[level] * n`: a negative count gives an empty list. */
  function Repeat(level: int, n: int): (r: seq<int>)
    ensures |r| == if n < 0 then 0 else n
    ensures forall i :: 0 <= i < |r| ==> r[i] == level
    decreases n
  {
    if n <= 0 then [] else Repeat(level, n - 1) + [level]
  }

  /** The number of samples item `i` stays on its level: `int(delta / time_resolution)`. */
  function BlockCount(items: seq<real>, i: nat, resolution: int): int
    requires i < |items| && resolution != 0
  {
    var delta := if i == 0 then items[0] else items[i] - items[i - 1];
    PythonNumeric.Trunc(delta / resolution as real)
  }

  /** The blocks of the first `n` items: block `i` repeats level `start + i * step`. */
  function LevelArray(items: seq<real>, n: nat, resolution: int, start: int, step: int): seq<int>
    requires n <= |items| && resolution != 0
  {
    if n == 0 then []
    else LevelArray(items, n - 1, resolution, start, step) + Repeat(start + (n - 1) * step, BlockCount(items, n - 1, resolution))
  }

  /**
   * `__generate_delta_level_array`: the concatenated blocks. A zero time
   * resolution divides by zero as soon as there is an item; which exception
   * that raises depends on the items' numeric type, so it is the common
   * `ArithmeticError`.
   */
  function DeltaLevelArray(items: seq<real>, resolution: int, start: int, step: int): (r: Result<seq<int>>)
    ensures r.Err? <==> items != [] && resolution == 0
  {
    if items == [] then Ok([])
    else if resolution == 0 then Err(ArithmeticError)
    else Ok(LevelArray(items, |items|, resolution, start, step))
  }

  /** Every entry of the level array is the level `start + i * step` of one of the items. */
  lemma {:induction false} LevelArrayLevels(items: seq<real>, n: nat, resolution: int, start: int, step: int, j: nat)
    requires n <= |items| && resolution != 0 && j < |LevelArray(items, n, resolution, start, step)|
    ensures exists i :: 0 <= i < n && LevelArray(items, n, resolution, start, step)[j] == start + i * step
  {
    var prev := LevelArray(items, n - 1, resolution, start, step);
    if j < |prev| {
      LevelArrayLevels(items, n - 1, resolution, start, step, j);
      var i :| 0 <= i < n - 1 && prev[j] == start + i * step;
      assert LevelArray(items, n, resolution, start, step)[j] == prev[j];
    } else {
      assert LevelArray(items, n, resolution, start, step)[j] == start + (n - 1) * step;
    }
  }

  predicate Sorted(s: seq<int>)
  {
    forall i, j :: 0 <= i < j < |s| ==> s[i] <= s[j]
  }

  predicate AtMost(s: seq<int>, bound: int)
  {
    forall i :: 0 <= i < |s| ==> s[i] <= bound
  }

  /** Appending a block of one level to a sorted prefix that stays below it keeps it sorted. */
  lemma AppendBlock(prev: seq<int>, level: int, n: int)
    requires Sorted(prev) && AtMost(prev, level)
    ensures Sorted(prev + Repeat(level, n)) && AtMost(prev + Repeat(level, n), level)
  {
    var r := prev + Repeat(level, n);
    forall i | 0 <= i < |r|
      ensures r[i] <= level
    {
      if i < |prev| {
        assert r[i] == prev[i];
      }
    }
    forall i, j | 0 <= i < j < |r|
      ensures r[i] <= r[j]
    {
      if j < |prev| {
        assert r[i] == prev[i] && r[j] == prev[j];
      }
    }
  }

  /** With a non-negative step the level array never decreases, and no level exceeds the last block's. */
  lemma {:induction false} LevelArraySorted(items: seq<real>, n: nat, resolution: int, start: int, step: int)
    requires n <= |items| && resolution != 0 && step >= 0
    ensures Sorted(LevelArray(items, n, resolution, start, step))
    ensures n > 0 ==> AtMost(LevelArray(items, n, resolution, start, step), start + (n - 1) * step)
  {
    if n > 0 {
      var level := start + (n - 1) * step;
      var prev := LevelArray(items, n - 1, resolution, start, step);
      LevelArraySorted(items, n - 1, resolution, start, step);
      if n > 1 {
        assert (n - 1) * step == (n - 2) * step + step;
        assert AtMost(prev, level);
      }
      AppendBlock(prev, level, BlockCount(items, n - 1, resolution));
    }
  }

  /** The loop of `__generate_delta_level_array`, extending the array block by block. */
  method GenerateDeltaLevelArray(resolution: int, items: seq<real>, start: int, step: int) returns (r: Result<seq<int>>)
    ensures r == DeltaLevelArray(items, resolution, start, step)
  {
    if items == [] {
      return Ok([]);
    }
    if resolution == 0 {
      return Err(ArithmeticError);
    }
    var levels: seq<int> := [];
    var level := start;
    var i := 0;
    while i < |items|
      invariant 0 <= i <= |items|
      invariant level == start + i * step
      invariant levels == LevelArray(items, i, resolution, start, step)
    {
      var count := BlockCount(items, i, resolution);
      levels := levels + Repeat(level, count);
      level := level + step;
      i := i + 1;
    }
    return Ok(levels);
  }
}
