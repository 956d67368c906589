/**
 * The aggregation of analysed lines into signal groups: each periodic line
 * (a clock candidate) collects the lines whose activity correlates with
 * it, and every line left over becomes a group of its own.
 *
 * The lists the source mutates in place (`remove` while iterating) are
 * values here: each step returns the list as it leaves it.
 */
module SignalGroupAggregator {
  import opened Wrappers
  import opened SignalAnalysisResult
  import opened SignalGroups

  /** A line's measurement duration. */
  function Duration(s: AnalysedSignal): int
  {
    s.signal.MeasurementDuration()
  }

  predicate IsPeriodic(s: AnalysedSignal)
  {
    s.eventProperties.signalType == PERIODIC
  }

  // ---------------------------------------------------------------------------
  // Sorting by duration

  /** `__get_max_duration`: the largest duration, starting from 0. */
  function MaxDuration(list: seq<AnalysedSignal>): (r: int)
    ensures r >= 0 && forall k :: 0 <= k < |list| ==> Duration(list[k]) <= r
    ensures r == 0 || exists k :: 0 <= k < |list| && Duration(list[k]) == r
  {
    if list == [] then 0
    else
      var rest := MaxDuration(list[..|list| - 1]);
      assert forall k :: 0 <= k < |list| - 1 ==> list[..|list| - 1][k] == list[k];
      if Duration(list[|list| - 1]) > rest then Duration(list[|list| - 1]) else rest
  }

  /** The loop of `__get_max_duration`. */
  method GetMaxDuration(list: seq<AnalysedSignal>) returns (m: int)
    ensures m == MaxDuration(list)
  {
    m := 0;
    var i := 0;
    while i < |list|
      invariant 0 <= i <= |list|
      invariant m == MaxDuration(list[..i])
    {
      assert list[..i + 1][..i] == list[..i];
      if Duration(list[i]) > m {
        m := Duration(list[i]);
      }
      i := i + 1;
    }
    assert list[..i] == list;
  }

  /** The first position of a line of the given duration. */
  function IndexOfDuration(list: seq<AnalysedSignal>, d: int): (r: Option<nat>)
    ensures r.None? <==> forall k :: 0 <= k < |list| ==> Duration(list[k]) != d
    ensures r.Some? ==> (r.value < |list| && Duration(list[r.value]) == d &&
      forall k :: 0 <= k < r.value ==> Duration(list[k]) != d)
  {
    if list == [] then None
    else if Duration(list[0]) == d then Some(0)
    else
      var rest := IndexOfDuration(list[1..], d);
      assert forall k :: 1 <= k < |list| ==> list[k] == list[1..][k - 1];
      if rest.None? then None else Some(rest.value + 1)
  }

  /** `__get_signal_of_duration`: the first line of that duration, or `None`. */
  method GetSignalOfDuration(list: seq<AnalysedSignal>, d: int) returns (r: Option<AnalysedSignal>)
    ensures IndexOfDuration(list, d).None? ==> r.None?
    ensures IndexOfDuration(list, d).Some? ==> r == Some(list[IndexOfDuration(list, d).value])
  {
    var i := 0;
    while i < |list|
      invariant 0 <= i <= |list|
      invariant forall k :: 0 <= k < i ==> Duration(list[k]) != d
    {
      if Duration(list[i]) == d {
        return Some(list[i]);
      }
      i := i + 1;
    }
    return None;
  }

  /** `list.remove(x)`: the first element equal to `x` is taken out. */
  function RemoveFirst(list: seq<AnalysedSignal>, x: AnalysedSignal): (r: seq<AnalysedSignal>)
    requires x in list
    ensures |r| == |list| - 1
    ensures multiset(r) == multiset(list) - multiset{x}
  {
    assert list == [list[0]] + list[1..];
    if list[0] == x then list[1..]
    else [list[0]] + RemoveFirst(list[1..], x)
  }

  predicate AscendingDurations(list: seq<AnalysedSignal>)
  {
    forall i, j :: 0 <= i < j < |list| ==> Duration(list[i]) <= Duration(list[j])
  }

  predicate DescendingDurations(list: seq<AnalysedSignal>)
  {
    forall i, j :: 0 <= i < j < |list| ==> Duration(list[i]) >= Duration(list[j])
  }

  function Reverse(list: seq<AnalysedSignal>): (r: seq<AnalysedSignal>)
    ensures |r| == |list| && forall k :: 0 <= k < |list| ==> r[k] == list[|list| - 1 - k]
  {
    seq(|list|, k requires 0 <= k < |list| => list[|list| - 1 - k])
  }

  lemma ReverseDescending(list: seq<AnalysedSignal>)
    requires DescendingDurations(list)
    ensures AscendingDurations(Reverse(list)) && multiset(Reverse(list)) == multiset(list)
  {
    var r := Reverse(list);
    forall i, j | 0 <= i < j < |r|
      ensures Duration(r[i]) <= Duration(r[j])
    {
      assert r[i] == list[|list| - 1 - i] && r[j] == list[|list| - 1 - j];
    }
    ReverseMultiset(list);
  }

  lemma {:induction false} ReverseMultiset(list: seq<AnalysedSignal>)
    ensures multiset(Reverse(list)) == multiset(list)
  {
    if list != [] {
      var init := list[..|list| - 1];
      ReverseMultiset(init);
      assert Reverse(list) == [list[|list| - 1]] + Reverse(init);
      assert list == init + [list[|list| - 1]];
    }
  }

  predicate NonNegativeDurations(list: seq<AnalysedSignal>)
  {
    forall k :: 0 <= k < |list| ==> Duration(list[k]) >= 0
  }

  /** With non-negative durations the largest one is attained, so a longest line is found. */
  lemma MaxAttained(list: seq<AnalysedSignal>)
    requires list != [] && NonNegativeDurations(list)
    ensures IndexOfDuration(list, MaxDuration(list)).Some?
  {
    if MaxDuration(list) == 0 {
      assert Duration(list[0]) == 0;
    }
  }

  /** `__get_signal_with_longtest_duration` where the durations are non-negative: the first line of the largest duration. */
  function Longest(list: seq<AnalysedSignal>): (r: AnalysedSignal)
    requires list != [] && NonNegativeDurations(list)
    ensures r in list && Duration(r) == MaxDuration(list)
  {
    MaxAttained(list);
    list[IndexOfDuration(list, MaxDuration(list)).value]
  }

  /** Every line left after a removal was in the list before. */
  lemma RemoveFirstFrom(list: seq<AnalysedSignal>, x: AnalysedSignal, y: AnalysedSignal)
    requires x in list && y in RemoveFirst(list, x)
    ensures y in list
  {
    assert y in multiset(RemoveFirst(list, x));
  }

  lemma RemoveFirstNonNegative(list: seq<AnalysedSignal>, x: AnalysedSignal)
    requires x in list && NonNegativeDurations(list)
    ensures NonNegativeDurations(RemoveFirst(list, x))
  {
    var rest := RemoveFirst(list, x);
    forall k | 0 <= k < |rest|
      ensures Duration(rest[k]) >= 0
    {
      RemoveFirstFrom(list, x, rest[k]);
    }
  }

  /** The order in which the loop of `__sort_signals` picks the lines: a longest remaining one first. */
  function PickOrder(list: seq<AnalysedSignal>): (r: seq<AnalysedSignal>)
    requires NonNegativeDurations(list)
    ensures |r| == |list|
    decreases |list|
  {
    if list == [] then []
    else
      var x := Longest(list);
      RemoveFirstNonNegative(list, x);
      [x] + PickOrder(RemoveFirst(list, x))
  }

  /** What `__sort_signals` returns: the picked lines, reversed. */
  function SortByDuration(list: seq<AnalysedSignal>): (r: seq<AnalysedSignal>)
    requires NonNegativeDurations(list)
    ensures multiset(r) == multiset(list)
  {
    PickOrderPermutation(list);
    ReverseMultiset(PickOrder(list));
    Reverse(PickOrder(list))
  }

  lemma {:induction false} PickOrderPermutation(list: seq<AnalysedSignal>)
    requires NonNegativeDurations(list)
    ensures multiset(PickOrder(list)) == multiset(list)
    decreases |list|
  {
    if list != [] {
      var x := Longest(list);
      RemoveFirstNonNegative(list, x);
      PickOrderPermutation(RemoveFirst(list, x));
    }
  }

  /** A line at least as long as every line of a descending list can go in front of it. */
  lemma PrependDescending(x: AnalysedSignal, t: seq<AnalysedSignal>)
    requires DescendingDurations(t) && forall j :: 0 <= j < |t| ==> Duration(t[j]) <= Duration(x)
    ensures DescendingDurations([x] + t)
  {
    var p := [x] + t;
    forall i, j | 0 <= i < j < |p|
      ensures Duration(p[i]) >= Duration(p[j])
    {
      assert p[j] == t[j - 1];
      if i > 0 {
        assert p[i] == t[i - 1];
      }
    }
  }

  /** A permutation of the list keeps its lines within the bound of the list's. */
  lemma PermutationBounded(list: seq<AnalysedSignal>, t: seq<AnalysedSignal>, d: int)
    requires multiset(t) == multiset(list) && forall k :: 0 <= k < |list| ==> Duration(list[k]) <= d
    ensures forall j :: 0 <= j < |t| ==> Duration(t[j]) <= d
  {
    forall j | 0 <= j < |t|
      ensures Duration(t[j]) <= d
    {
      assert t[j] in multiset(list);
    }
  }

  lemma {:induction false} PickOrderDescending(list: seq<AnalysedSignal>)
    requires NonNegativeDurations(list)
    ensures DescendingDurations(PickOrder(list))
    decreases |list|
  {
    if list != [] {
      var x := Longest(list);
      var rest := RemoveFirst(list, x);
      RemoveFirstNonNegative(list, x);
      PickOrderDescending(rest);
      PickOrderPermutation(rest);
      forall k | 0 <= k < |rest|
        ensures Duration(rest[k]) <= Duration(x)
      {
        RemoveFirstFrom(list, x, rest[k]);
      }
      PermutationBounded(rest, PickOrder(rest), Duration(x));
      PrependDescending(x, PickOrder(rest));
    }
  }

  /** `__sort_signals` returns a permutation of its input in ascending order of duration. */
  lemma SortByDurationSorted(list: seq<AnalysedSignal>)
    requires NonNegativeDurations(list)
    ensures multiset(SortByDuration(list)) == multiset(list)
    ensures AscendingDurations(SortByDuration(list))
  {
    PickOrderPermutation(list);
    PickOrderDescending(list);
    ReverseDescending(PickOrder(list));
  }

  /** One pass of the loop of `__sort_signals`: moving the longest line to the picked ones follows the pick order. */
  lemma PickStep(list: seq<AnalysedSignal>, remaining: seq<AnalysedSignal>, picked: seq<AnalysedSignal>, x: AnalysedSignal)
    requires NonNegativeDurations(list) && NonNegativeDurations(remaining) && remaining != []
    requires picked + PickOrder(remaining) == PickOrder(list)
    requires x == Longest(remaining)
    ensures NonNegativeDurations(RemoveFirst(remaining, x))
    ensures (picked + [x]) + PickOrder(RemoveFirst(remaining, x)) == PickOrder(list)
  {
    RemoveFirstNonNegative(remaining, x);
    var rest := PickOrder(RemoveFirst(remaining, x));
    assert PickOrder(remaining) == [x] + rest;
    ConcatAssoc(picked, [x], rest);
  }

  lemma ConcatAssoc<T>(a: seq<T>, b: seq<T>, c: seq<T>)
    ensures (a + b) + c == a + (b + c)
  {
  }

  /**
   * `__sort_signals`: the longest line is moved to the result until the
   * input is empty, and the result is reversed. The loop ends only when
   * every duration is non-negative: otherwise the largest duration stays 0,
   * no line has it, nothing is removed and the loop runs forever.
   */
  method SortSignals(list: seq<AnalysedSignal>) returns (sorted: seq<AnalysedSignal>)
    requires NonNegativeDurations(list)
    ensures sorted == SortByDuration(list)
    ensures multiset(sorted) == multiset(list) && AscendingDurations(sorted)
  {
    var remaining := list;
    var picked: seq<AnalysedSignal> := [];
    while |remaining| > 0
      invariant NonNegativeDurations(remaining)
      invariant picked + PickOrder(remaining) == PickOrder(list)
      decreases |remaining|
    {
      var maxDuration := GetMaxDuration(remaining);
      MaxAttained(remaining);
      var longest := GetSignalOfDuration(remaining, maxDuration);
      if longest.Some? {
        var x := longest.value;
        PickStep(list, remaining, picked, x);
        remaining := RemoveFirst(remaining, x);
        picked := picked + [x];
      } else {
        assert false;
      }
    }
    sorted := Reverse(picked);
    SortByDurationSorted(list);
  }

  // ---------------------------------------------------------------------------
  // Taking lines out of a list while iterating over it

  /** Which reading of the source a definition follows. */
  datatype AggregationRule = AsWritten | Intended

  /** Whether a pass takes a line out of the list, with the rating of the link, or stops with an error. */
  type Check = AnalysedSignal -> Result<(bool, Float64)>

  /** The outcome of a pass: the lines left, those taken out in the order taken, and their ratings. */
  datatype Pass = Pass(remaining: seq<AnalysedSignal>, taken: seq<AnalysedSignal>, ratings: seq<Float64>)

  /**
   * `for m in list: ... list.remove(m)` as Python runs it: the loop visits
   * position `i` of the list as it is at that time, so after a removal the
   * line that moves into the freed position is never visited.
   */
  function SweepAsWritten(list: seq<AnalysedSignal>, i: nat, check: Check, taken: seq<AnalysedSignal>, ratings: seq<Float64>): (r: Result<Pass>)
    ensures r.Ok? ==> |r.value.taken| - |taken| == |r.value.ratings| - |ratings|
    decreases |list| + 1 - i
  {
    if i >= |list| then Ok(Pass(list, taken, ratings))
    else
      var c := check(list[i]);
      if c.Err? then Err(c.error)
      else if c.value.0 then SweepAsWritten(RemoveFirst(list, list[i]), i + 1, check, taken + [list[i]], ratings + [c.value.1])
      else SweepAsWritten(list, i + 1, check, taken, ratings)
  }

  /** The state a pass over a copy moves to after visiting a line that passes its check (rating given) or not. */
  function Visit(acc: Pass, x: AnalysedSignal, c: (bool, Float64)): Pass
  {
    if c.0 then Pass(acc.remaining, acc.taken + [x], acc.ratings + [c.1])
    else Pass(acc.remaining + [x], acc.taken, acc.ratings)
  }

  /** The same pass over a copy of the list: every line is visited once. */
  function SweepIntended(list: seq<AnalysedSignal>, i: nat, check: Check, acc: Pass): (r: Result<Pass>)
    ensures r.Ok? && i <= |list| ==> |r.value.remaining| + |r.value.taken| == |acc.remaining| + |acc.taken| + (|list| - i)
    ensures r.Ok? ==> |r.value.taken| - |acc.taken| == |r.value.ratings| - |acc.ratings|
    decreases |list| - i
  {
    if i >= |list| then Ok(acc)
    else
      var c := check(list[i]);
      if c.Err? then Err(c.error)
      else SweepIntended(list, i + 1, check, Visit(acc, list[i], c.value))
  }

  function Sweep(list: seq<AnalysedSignal>, check: Check, rule: AggregationRule): Result<Pass>
  {
    match rule
    case AsWritten => SweepAsWritten(list, 0, check, [], [])
    case Intended => SweepIntended(list, 0, check, Pass([], [], []))
  }

  /** Every taken line passed the check, with its rating. */
  predicate TakenChecked(p: Pass, check: Check)
  {
    |p.ratings| == |p.taken| && forall k :: 0 <= k < |p.taken| ==> check(p.taken[k]) == Ok((true, p.ratings[k]))
  }

  /** Every line left failed the check. */
  predicate RemainingRefused(p: Pass, check: Check)
  {
    forall k :: 0 <= k < |p.remaining| ==> check(p.remaining[k]).Ok? && !check(p.remaining[k]).value.0
  }

  lemma AppendChecked(p: Pass, check: Check, x: AnalysedSignal, rating: Float64)
    requires TakenChecked(p, check) && check(x) == Ok((true, rating))
    ensures TakenChecked(Pass(p.remaining, p.taken + [x], p.ratings + [rating]), check)
  {
    var q := Pass(p.remaining, p.taken + [x], p.ratings + [rating]);
    forall k | 0 <= k < |q.taken|
      ensures check(q.taken[k]) == Ok((true, q.ratings[k]))
    {
      if k < |p.taken| {
        assert q.taken[k] == p.taken[k] && q.ratings[k] == p.ratings[k];
      }
    }
  }

  /** As written, a pass loses no line, takes only lines that pass the check, and fails only on a line whose check fails. */
  lemma {:induction false} SweepAsWrittenKeepsLines(list: seq<AnalysedSignal>, i: nat, check: Check, taken: seq<AnalysedSignal>, ratings: seq<Float64>)
    requires TakenChecked(Pass(list, taken, ratings), check)
    ensures var r := SweepAsWritten(list, i, check, taken, ratings);
      (r.Ok? ==> multiset(r.value.remaining) + multiset(r.value.taken) == multiset(list) + multiset(taken) &&
                 TakenChecked(r.value, check)) &&
      (r.Err? ==> exists x :: x in list && check(x) == Err(r.error))
    decreases |list| + 1 - i
  {
    if i < |list| {
      var x := list[i];
      var c := check(x);
      if c.Ok? && c.value.0 {
        var rest := RemoveFirst(list, x);
        AppendChecked(Pass(list, taken, ratings), check, x, c.value.1);
        SweepAsWrittenKeepsLines(rest, i + 1, check, taken + [x], ratings + [c.value.1]);
        var r := SweepAsWritten(rest, i + 1, check, taken + [x], ratings + [c.value.1]);
        if r.Err? {
          var y :| y in rest && check(y) == Err(r.error);
          RemoveFirstFrom(list, x, y);
        }
      } else if c.Ok? {
        SweepAsWrittenKeepsLines(list, i + 1, check, taken, ratings);
      }
    }
  }

  lemma VisitKeeps(acc: Pass, check: Check, x: AnalysedSignal)
    requires TakenChecked(acc, check) && RemainingRefused(acc, check) && check(x).Ok?
    ensures var next := Visit(acc, x, check(x).value);
      TakenChecked(next, check) && RemainingRefused(next, check) &&
      multiset(next.remaining) + multiset(next.taken) == multiset(acc.remaining) + multiset(acc.taken) + multiset{x}
  {
    var c := check(x).value;
    if c.0 {
      AppendChecked(acc, check, x, c.1);
    } else {
      var next := Visit(acc, x, c);
      assert forall k :: 0 <= k < |next.remaining| ==> next.remaining[k] == x || next.remaining[k] == acc.remaining[k];
    }
  }

  /** Iterating over a copy, a pass splits the lines: those that pass the check are taken, the others stay. */
  lemma {:induction false} SweepIntendedSplits(list: seq<AnalysedSignal>, i: nat, check: Check, acc: Pass)
    requires i <= |list| && TakenChecked(acc, check) && RemainingRefused(acc, check)
    ensures var r := SweepIntended(list, i, check, acc);
      r.Ok? ==> multiset(r.value.remaining) + multiset(r.value.taken) == multiset(acc.remaining) + multiset(acc.taken) + multiset(list[i..]) &&
                TakenChecked(r.value, check) && RemainingRefused(r.value, check)
    decreases |list| - i
  {
    if i < |list| && check(list[i]).Ok? {
      var x := list[i];
      assert list[i..] == [x] + list[i + 1..];
      VisitKeeps(acc, check, x);
      SweepIntendedSplits(list, i + 1, check, Visit(acc, x, check(x).value));
    }
  }

  /** Iterating over a copy, a pass fails exactly when the check of some line fails, with that line's error. */
  lemma {:induction false} SweepIntendedFails(list: seq<AnalysedSignal>, i: nat, check: Check, acc: Pass)
    requires i <= |list|
    ensures var r := SweepIntended(list, i, check, acc);
      (r.Err? <==> exists k :: i <= k < |list| && check(list[k]).Err?) &&
      (r.Err? ==> exists k :: i <= k < |list| && check(list[k]) == Err(r.error))
    decreases |list| - i
  {
    if i < |list| && check(list[i]).Ok? {
      SweepIntendedFails(list, i + 1, check, Visit(acc, list[i], check(list[i]).value));
    }
  }

  /** The properties of a pass under either reading. */
  lemma SweepKeepsLines(list: seq<AnalysedSignal>, check: Check, rule: AggregationRule)
    ensures var r := Sweep(list, check, rule);
      (r.Ok? ==> multiset(r.value.remaining) + multiset(r.value.taken) == multiset(list) && TakenChecked(r.value, check)) &&
      (r.Err? ==> exists x :: x in list && check(x) == Err(r.error))
  {
    if rule == AggregationRule.AsWritten {
      SweepAsWrittenKeepsLines(list, 0, check, [], []);
    } else {
      SweepIntendedSplits(list, 0, check, Pass([], [], []));
      SweepIntendedFails(list, 0, check, Pass([], [], []));
      var r := Sweep(list, check, rule);
      assert list[0..] == list;
      if r.Err? {
        var k :| 0 <= k < |list| && check(list[k]) == Err(r.error);
      }
    }
  }

  /** Iterating over a copy, every line whose check holds is taken and no line left passes the check. */
  lemma SweepIntendedTakesAll(list: seq<AnalysedSignal>, check: Check)
    ensures var r := Sweep(list, check, AggregationRule.Intended);
      (r.Ok? ==> RemainingRefused(r.value, check) &&
                 forall k :: 0 <= k < |list| && check(list[k]).Ok? && check(list[k]).value.0 ==> list[k] in r.value.taken) &&
      (r.Err? <==> exists k :: 0 <= k < |list| && check(list[k]).Err?)
  {
    SweepIntendedSplits(list, 0, check, Pass([], [], []));
    SweepIntendedFails(list, 0, check, Pass([], [], []));
    assert list[0..] == list;
    var r := Sweep(list, check, AggregationRule.Intended);
    if r.Ok? {
      forall k | 0 <= k < |list| && check(list[k]).Ok? && check(list[k]).value.0
        ensures list[k] in r.value.taken
      {
        var x := list[k];
        assert x in multiset(r.value.remaining) + multiset(r.value.taken) by {
          assert x in multiset(list);
        }
        forall j | 0 <= j < |r.value.remaining|
          ensures r.value.remaining[j] != x
        {
        }
        assert x !in multiset(r.value.remaining);
        assert x in multiset(r.value.taken);
      }
    }
  }

  /** `__retrieve_periodic_signals`'s test for taking a line out. */
  function PeriodicCheck(s: AnalysedSignal): Result<(bool, Float64)>
  {
    Ok((IsPeriodic(s), Finite(0.0)))
  }

  /**
   * As written, of two adjacent periodic lines only the first is taken out
   * of the list; iterating over a copy takes both.
   */
  lemma AsWrittenSkipsSecondPeriodic(p: AnalysedSignal, q: AnalysedSignal)
    requires IsPeriodic(p) && IsPeriodic(q) && p != q
    ensures Sweep([p, q], PeriodicCheck, AggregationRule.AsWritten) == Ok(Pass([q], [p], [Finite(0.0)]))
    ensures Sweep([p, q], PeriodicCheck, AggregationRule.Intended) == Ok(Pass([], [p, q], [Finite(0.0), Finite(0.0)]))
  {
    assert PeriodicCheck(p) == Ok((true, Finite(0.0))) && PeriodicCheck(q) == Ok((true, Finite(0.0)));
    assert RemoveFirst([p, q], p) == [q];
    assert [] + [p] == [p] && [p] + [q] == [p, q] && [] + [Finite(0.0)] == [Finite(0.0)] && [Finite(0.0)] + [Finite(0.0)] == [Finite(0.0), Finite(0.0)];
    assert SweepAsWritten([q], 1, PeriodicCheck, [p], [Finite(0.0)]) == Ok(Pass([q], [p], [Finite(0.0)]));
    assert SweepIntended([p, q], 2, PeriodicCheck, Pass([], [p, q], [Finite(0.0), Finite(0.0)])) == Ok(Pass([], [p, q], [Finite(0.0), Finite(0.0)]));
    assert SweepIntended([p, q], 1, PeriodicCheck, Pass([], [p], [Finite(0.0)])) == Ok(Pass([], [p, q], [Finite(0.0), Finite(0.0)]));
  }

  /** The loop of a pass: as written, the index runs over the list as it shrinks; intended, over a copy. */
  method RunSweep(list: seq<AnalysedSignal>, check: Check, rule: AggregationRule) returns (r: Result<Pass>)
    ensures r == Sweep(list, check, rule)
  {
    if rule == AggregationRule.AsWritten {
      var live := list;
      var i: nat := 0;
      var taken: seq<AnalysedSignal> := [];
      var ratings: seq<Float64> := [];
      while i < |live|
        invariant SweepAsWritten(live, i, check, taken, ratings) == Sweep(list, check, rule)
        decreases |live| + 1 - i
      {
        var x := live[i];
        var c := check(x);
        if c.Err? {
          return Err(c.error);
        }
        if c.value.0 {
          live := RemoveFirst(live, x);
          taken := taken + [x];
          ratings := ratings + [c.value.1];
        }
        i := i + 1;
      }
      return Ok(Pass(live, taken, ratings));
    } else {
      var acc := Pass([], [], []);
      var i: nat := 0;
      while i < |list|
        invariant i <= |list|
        invariant SweepIntended(list, i, check, acc) == Sweep(list, check, rule)
      {
        var c := check(list[i]);
        if c.Err? {
          return Err(c.error);
        }
        acc := Visit(acc, list[i], c.value);
        i := i + 1;
      }
      return Ok(acc);
    }
  }

  // ---------------------------------------------------------------------------
  // Retrieving the periodic lines

  /** The lines the sort of the periodic lines visits have non-negative durations. */
  predicate PeriodicNonNegative(list: seq<AnalysedSignal>)
  {
    forall k :: 0 <= k < |list| && IsPeriodic(list[k]) ==> Duration(list[k]) >= 0
  }

  /** Taking the periodic lines out never fails, loses no line and takes only periodic ones. */
  lemma PeriodicSweep(list: seq<AnalysedSignal>, rule: AggregationRule)
    ensures Sweep(list, PeriodicCheck, rule).Ok?
    ensures var r := Sweep(list, PeriodicCheck, rule).value;
      multiset(r.remaining) + multiset(r.taken) == multiset(list) &&
      (forall k :: 0 <= k < |r.taken| ==> IsPeriodic(r.taken[k])) &&
      (PeriodicNonNegative(list) ==> NonNegativeDurations(r.taken))
  {
    SweepKeepsLines(list, PeriodicCheck, rule);
    assert forall x :: PeriodicCheck(x).Ok?;
    var r := Sweep(list, PeriodicCheck, rule).value;
    forall k | 0 <= k < |r.taken|
      ensures IsPeriodic(r.taken[k])
    {
      assert PeriodicCheck(r.taken[k]) == Ok((true, r.ratings[k]));
    }
    if PeriodicNonNegative(list) {
      forall k | 0 <= k < |r.taken|
        ensures Duration(r.taken[k]) >= 0
      {
        assert r.taken[k] in multiset(list);
      }
    }
  }

  /** `__retrieve_periodic_signals`: the periodic lines in ascending order of duration, and the measured lines they leave. */
  function RetrievePeriodic(list: seq<AnalysedSignal>, rule: AggregationRule): (seq<AnalysedSignal>, seq<AnalysedSignal>)
    requires PeriodicNonNegative(list)
  {
    PeriodicSweep(list, rule);
    var pass := Sweep(list, PeriodicCheck, rule).value;
    (SortByDuration(pass.taken), pass.remaining)
  }

  /**
   * The periodic lines and the lines left are the measured lines, and the
   * periodic lines come in ascending order of duration; iterating over a
   * copy, no periodic line is left behind.
   */
  lemma RetrievePeriodicSplits(list: seq<AnalysedSignal>, rule: AggregationRule)
    requires PeriodicNonNegative(list)
    ensures var (periodic, rest) := RetrievePeriodic(list, rule);
      multiset(periodic) + multiset(rest) == multiset(list) && AscendingDurations(periodic) &&
      (forall k :: 0 <= k < |periodic| ==> IsPeriodic(periodic[k])) &&
      (rule == AggregationRule.Intended ==> forall k :: 0 <= k < |rest| ==> !IsPeriodic(rest[k]))
  {
    PeriodicSweep(list, rule);
    var pass := Sweep(list, PeriodicCheck, rule).value;
    SortByDurationSorted(pass.taken);
    var periodic := SortByDuration(pass.taken);
    forall k | 0 <= k < |periodic|
      ensures IsPeriodic(periodic[k])
    {
      assert periodic[k] in multiset(pass.taken);
    }
    if rule == AggregationRule.Intended {
      SweepIntendedTakesAll(list, PeriodicCheck);
      assert RemainingRefused(pass, PeriodicCheck);
      forall k | 0 <= k < |pass.remaining|
        ensures !IsPeriodic(pass.remaining[k])
      {
        assert PeriodicCheck(pass.remaining[k]).Ok?;
      }
    }
  }

  method RetrievePeriodicSignals(list: seq<AnalysedSignal>, rule: AggregationRule) returns (periodic: seq<AnalysedSignal>, rest: seq<AnalysedSignal>)
    requires PeriodicNonNegative(list)
    ensures (periodic, rest) == RetrievePeriodic(list, rule)
  {
    var pass := RunSweep(list, PeriodicCheck, rule);
    PeriodicSweep(list, rule);
    periodic := SortSignals(pass.value.taken);
    rest := pass.value.remaining;
  }

  // ---------------------------------------------------------------------------
  // Correlation of a measured line with a periodic one

  /** The period of a periodic line: its double event duration, else twice its first reoccurring duration. */
  function Period(p: AnalysedSignal): Option<real>
  {
    if p.eventProperties.doubleEventDuration.Some? then p.eventProperties.doubleEventDuration
    else if p.eventProperties.firstReoccuringDuration.Some? then Some(p.eventProperties.firstReoccuringDuration.value * 2.0)
    else None
  }

  /** A measured activity lies within one period around the periodic line's activity. */
  predicate Similar(m: Activity, p: Activity, period: real)
  {
    TimeValue(m.start) > TimeValue(p.start) - period && TimeValue(m.end) < TimeValue(p.end) + period
  }

  /** The length of an activity, `end - start`. */
  function ActivityLength(a: Activity): real
  {
    TimeValue(a.end) - TimeValue(a.start)
  }

  /**
   * Both ends of an activity are the int `0` of an empty sum, so its length
   * is the int `0` rather than a float64.
   */
  predicate IntLength(a: Activity)
  {
    a.start.EmptySum? && a.end.EmptySum?
  }

  /**
   * `psignal_duration / msignal_duration`: Python raises ZeroDivisionError
   * only when both lengths are ints, which makes both the int `0`; a zero
   * float64 length gives inf or nan instead, and the loop goes on.
   */
  function DurationRatio(m: Activity, p: Activity): (r: Result<Float64>)
    ensures r.Err? <==> IntLength(m) && IntLength(p)
    ensures r.Err? ==> r.error == ZeroDivisionError
    ensures r.Ok? ==> (r.value.Finite? <==> ActivityLength(m) != 0.0)
    ensures r.Ok? && r.value.Finite? ==> r.value.value * ActivityLength(m) == ActivityLength(p)
  {
    if IntLength(m) && IntLength(p) then Err(ZeroDivisionError)
    else Ok(Quotient(ActivityLength(p), ActivityLength(m)))
  }

  /** The loop of `__is_runtime_correlated` from activity `i` on, with the verdict and rating so far. */
  function RuntimeFrom(p: AnalysedSignal, ma: seq<Activity>, pa: seq<Activity>, i: nat, same: bool, rating: Float64): (r: Result<(bool, Float64)>)
    requires |ma| == |pa|
    ensures r.Err? ==> r.error == ZeroDivisionError
    ensures r.Ok? && !same ==> !r.value.0
    decreases |ma| - i
  {
    if i >= |ma| then Ok((same, rating))
    else if Period(p).None? then Ok((false, Finite(0.0)))
    else
      var similar := Similar(ma[i], pa[i], Period(p).value);
      var ratio := DurationRatio(ma[i], pa[i]);
      if ratio.Err? then Err(ratio.error)
      else RuntimeFrom(p, ma, pa, i + 1, same && similar, Times(rating, ratio.value))
  }

  /** `__is_runtime_correlated`: the verdict and the product of the activities' duration ratios. */
  function RuntimeCorrelation(p: AnalysedSignal, m: AnalysedSignal): (r: Result<(bool, Float64)>)
    ensures |m.eventProperties.transmissionActivityList| != |p.eventProperties.transmissionActivityList| ==> r == Ok((false, Finite(0.0)))
    ensures m.eventProperties.transmissionActivityList == [] && p.eventProperties.transmissionActivityList == [] ==> r == Ok((true, Finite(1.0)))
  {
    var ma := m.eventProperties.transmissionActivityList;
    var pa := p.eventProperties.transmissionActivityList;
    if |ma| != |pa| then Ok((false, Finite(0.0)))
    else RuntimeFrom(p, ma, pa, 0, true, Finite(1.0))
  }

  /**
   * From activity `i` on: the loop fails exactly at a pair of activities
   * whose lengths are both the int `0`; otherwise the verdict holds exactly
   * when it held so far and every later pair is similar, and the rating
   * stays finite exactly when it was and no later measured activity has
   * length zero.
   */
  lemma {:induction false} RuntimeFromVerdict(p: AnalysedSignal, ma: seq<Activity>, pa: seq<Activity>, i: nat, same: bool, rating: Float64)
    requires |ma| == |pa| && i <= |ma| && Period(p).Some?
    ensures var r := RuntimeFrom(p, ma, pa, i, same, rating);
      (r.Err? <==> exists k :: i <= k < |ma| && IntLength(ma[k]) && IntLength(pa[k])) &&
      (r.Err? ==> r.error == ZeroDivisionError) &&
      (r.Ok? ==> (r.value.0 <==> same && forall k :: i <= k < |ma| ==> Similar(ma[k], pa[k], Period(p).value))) &&
      (r.Ok? ==> (r.value.1.Finite? <==> rating.Finite? && forall k :: i <= k < |ma| ==> ActivityLength(ma[k]) != 0.0))
    decreases |ma| - i
  {
    if i < |ma| && !(IntLength(ma[i]) && IntLength(pa[i])) {
      var period := Period(p).value;
      RuntimeFromVerdict(p, ma, pa, i + 1, same && Similar(ma[i], pa[i], period), Times(rating, DurationRatio(ma[i], pa[i]).value));
    }
  }

  /**
   * With a period and as many activities on both lines, the runtimes
   * correlate exactly when every measured activity is similar to the
   * periodic one at the same position; the check fails exactly when a pair
   * of activities both have the int length `0` of empty sums, and the
   * rating is inf or nan exactly when some measured activity has length
   * zero. A periodic line without a period correlates only with a line of
   * no activity.
   */
  lemma RuntimeCorrelationMeaning(p: AnalysedSignal, m: AnalysedSignal)
    ensures var ma := m.eventProperties.transmissionActivityList;
      var pa := p.eventProperties.transmissionActivityList;
      var r := RuntimeCorrelation(p, m);
      (|ma| == |pa| && Period(p).Some? ==>
        (r.Err? <==> exists k :: 0 <= k < |ma| && IntLength(ma[k]) && IntLength(pa[k])) &&
        (r.Ok? ==> (r.value.0 <==> forall k :: 0 <= k < |ma| ==> Similar(ma[k], pa[k], Period(p).value))) &&
        (r.Ok? ==> (r.value.1.Finite? <==> forall k :: 0 <= k < |ma| ==> ActivityLength(ma[k]) != 0.0))) &&
      (Period(p).None? ==> r.Ok? && (r.value.0 <==> ma == [] && pa == []))
  {
    var ma := m.eventProperties.transmissionActivityList;
    var pa := p.eventProperties.transmissionActivityList;
    if |ma| == |pa| && Period(p).Some? {
      RuntimeFromVerdict(p, ma, pa, 0, true, Finite(1.0));
    }
  }

  /**
   * A measured activity of length zero does not stop the check: with a
   * periodic line of double event duration 100 and activities (0, 50),
   * (200, 250), a measured line with activities (10, 40), (220, 220)
   * correlates in runtime with an inf rating, and the check goes on to the
   * cycle times.
   */
  lemma ZeroLengthActivityRated(p: AnalysedSignal, m: AnalysedSignal, rule: AggregationRule)
    requires p.eventProperties.doubleEventDuration == Some(100.0)
    requires p.eventProperties.transmissionActivityList == [Activity(EmptySum, Summed(50.0)), Activity(Summed(200.0), Summed(250.0))]
    requires m.eventProperties.transmissionActivityList == [Activity(Summed(10.0), Summed(40.0)), Activity(Summed(220.0), Summed(220.0))]
    ensures RuntimeCorrelation(p, m) == Ok((true, NonFinite))
    ensures CorrelationCheck(p, m, rule).Ok? <==> CycletimeCorrelation(p, m, rule).Ok?
    ensures CorrelationCheck(p, m, rule).Ok? ==> CorrelationCheck(p, m, rule).value == (CycletimeCorrelation(p, m, rule).value.0, NonFinite)
  {
    var ma := m.eventProperties.transmissionActivityList;
    var pa := p.eventProperties.transmissionActivityList;
    assert DurationRatio(ma[0], pa[0]) == Ok(Finite(50.0 / 30.0));
    assert DurationRatio(ma[1], pa[1]) == Ok(NonFinite);
    assert RuntimeFrom(p, ma, pa, 2, true, NonFinite) == Ok((true, NonFinite));
    assert RuntimeFrom(p, ma, pa, 1, true, Finite(50.0 / 30.0)) == Ok((true, NonFinite));
  }

  /** Both activities of a pair of the int length `0` stop the check with ZeroDivisionError. */
  lemma EmptySumsRaise(p: AnalysedSignal, m: AnalysedSignal)
    requires Period(p).Some?
    requires p.eventProperties.transmissionActivityList == [Activity(EmptySum, EmptySum)]
    requires m.eventProperties.transmissionActivityList == [Activity(EmptySum, EmptySum)]
    ensures RuntimeCorrelation(p, m) == Err(ZeroDivisionError)
  {
  }

  lemma RuntimeFromStep(p: AnalysedSignal, ma: seq<Activity>, pa: seq<Activity>, i: nat, same: bool, rating: Float64)
    requires |ma| == |pa| && i < |ma| && Period(p).Some? && !(IntLength(ma[i]) && IntLength(pa[i]))
    ensures RuntimeFrom(p, ma, pa, i, same, rating) ==
      RuntimeFrom(p, ma, pa, i + 1, same && Similar(ma[i], pa[i], Period(p).value), Times(rating, DurationRatio(ma[i], pa[i]).value))
  {
  }

  /** The loop of `__is_runtime_correlated`. */
  method IsRuntimeCorrelated(p: AnalysedSignal, m: AnalysedSignal) returns (r: Result<(bool, Float64)>)
    ensures r == RuntimeCorrelation(p, m)
  {
    var ma := m.eventProperties.transmissionActivityList;
    var pa := p.eventProperties.transmissionActivityList;
    if |ma| != |pa| {
      return Ok((false, Finite(0.0)));
    }
    var same := true;
    var rating := Finite(1.0);
    var i: nat := 0;
    while i < |ma|
      invariant i <= |ma|
      invariant RuntimeFrom(p, ma, pa, i, same, rating) == RuntimeCorrelation(p, m)
    {
      var period: real;
      if p.eventProperties.doubleEventDuration.Some? {
        period := p.eventProperties.doubleEventDuration.value;
      } else if p.eventProperties.firstReoccuringDuration.Some? {
        period := p.eventProperties.firstReoccuringDuration.value * 2.0;
      } else {
        return Ok((false, Finite(0.0)));
      }
      assert Period(p) == Some(period);
      var mStart, mEnd := TimeValue(ma[i].start), TimeValue(ma[i].end);
      var pStart, pEnd := TimeValue(pa[i].start), TimeValue(pa[i].end);
      var similar := mStart > pStart - period && mEnd < pEnd + period;
      ghost var previous := same;
      if !similar {
        same := false;
      }
      assert same == (previous && Similar(ma[i], pa[i], period));
      if IntLength(ma[i]) && IntLength(pa[i]) {
        // int 0 divided by int 0
        return Err(ZeroDivisionError);
      }
      var pDuration := pEnd - pStart;
      var mDuration := mEnd - mStart;
      var ratio := if mDuration == 0.0 then NonFinite else Finite(pDuration / mDuration);
      assert ratio == DurationRatio(ma[i], pa[i]).value;
      RuntimeFromStep(p, ma, pa, i, previous, rating);
      rating := Times(rating, ratio);
      i := i + 1;
    }
    return Ok((same, rating));
  }

  /**
   * `__periodic_burst_cycletime_correlation`: the measured line's symbol
   * duration lies strictly within the periodic line's first reoccurring
   * duration of its double event duration, rated by their ratio. As
   * written, a measured line without a symbol duration makes the function
   * return a bare `False`, which its caller cannot unpack into two values.
   */
  function CycletimeCorrelation(p: AnalysedSignal, m: AnalysedSignal, rule: AggregationRule): (r: Result<(bool, real)>)
    ensures m.eventProperties.firstReoccuringDuration.None? ==>
      (r.Err? <==> rule == AggregationRule.AsWritten) && (r.Err? ==> r.error == TypeError) && (r.Ok? ==> r.value == (false, 0.0))
    ensures m.eventProperties.firstReoccuringDuration.Some? ==>
      (r.Err? <==> p.eventProperties.doubleEventDuration.None? || p.eventProperties.firstReoccuringDuration.None? ||
                   p.eventProperties.doubleEventDuration.value == 0.0)
    ensures (r.Ok? && m.eventProperties.firstReoccuringDuration.Some?) ==>
      (var symbol := m.eventProperties.firstReoccuringDuration.value;
       var period := p.eventProperties.doubleEventDuration.value;
       var frac := p.eventProperties.firstReoccuringDuration.value;
       (r.value.0 <==> period - frac < symbol < period + frac) && r.value.1 * period == symbol)
  {
    var symbol := m.eventProperties.firstReoccuringDuration;
    var period := p.eventProperties.doubleEventDuration;
    var frac := p.eventProperties.firstReoccuringDuration;
    if symbol.None? then
      if rule == AggregationRule.AsWritten then Err(TypeError) else Ok((false, 0.0))
    else if period.None? || frac.None? then Err(TypeError)
    else if period.value == 0.0 then Err(ZeroDivisionError)
    else Ok((period.value - frac.value < symbol.value < period.value + frac.value, symbol.value / period.value))
  }

  /** `__periodic_burst_correlation_check`: both correlations must hold, and the rating is the product of both ratings. */
  function CorrelationCheck(p: AnalysedSignal, m: AnalysedSignal, rule: AggregationRule): (r: Result<(bool, Float64)>)
    ensures r.Ok? <==> RuntimeCorrelation(p, m).Ok? && CycletimeCorrelation(p, m, rule).Ok?
    ensures r.Ok? ==> (r.value.0 <==> RuntimeCorrelation(p, m).value.0 && CycletimeCorrelation(p, m, rule).value.0)
    ensures r.Err? ==> r.error == (if RuntimeCorrelation(p, m).Err? then RuntimeCorrelation(p, m).error else CycletimeCorrelation(p, m, rule).error)
    ensures r.Ok? ==> (r.value.1.Finite? <==> RuntimeCorrelation(p, m).value.1.Finite?)
    ensures r.Ok? && r.value.1.Finite? ==> r.value.1.value == RuntimeCorrelation(p, m).value.1.value * CycletimeCorrelation(p, m, rule).value.1
  {
    var runtime := RuntimeCorrelation(p, m);
    if runtime.Err? then Err(runtime.error)
    else
      var cycletime := CycletimeCorrelation(p, m, rule);
      if cycletime.Err? then Err(cycletime.error)
      else Ok((runtime.value.0 && cycletime.value.0, Times(runtime.value.1, Finite(cycletime.value.1))))
  }

  /**
   * As written, a measured line without a symbol duration stops the check
   * with an error whatever the periodic line; intended, it is simply not
   * correlated.
   */
  lemma MissingSymbolStopsCheck(p: AnalysedSignal, m: AnalysedSignal)
    requires m.eventProperties.firstReoccuringDuration.None?
    ensures CorrelationCheck(p, m, AggregationRule.AsWritten).Err?
    ensures RuntimeCorrelation(p, m).Ok? ==> CorrelationCheck(p, m, AggregationRule.AsWritten) == Err(TypeError)
    ensures RuntimeCorrelation(p, m).Ok? ==> CorrelationCheck(p, m, AggregationRule.Intended) == Ok((false, Times(RuntimeCorrelation(p, m).value.1, Finite(0.0))))
    ensures RuntimeCorrelation(p, m).Ok? && RuntimeCorrelation(p, m).value.1.Finite? ==> CorrelationCheck(p, m, AggregationRule.Intended) == Ok((false, Finite(0.0)))
  {
    assert CycletimeCorrelation(p, m, AggregationRule.AsWritten) == Err(TypeError);
    assert CycletimeCorrelation(p, m, AggregationRule.Intended) == Ok((false, 0.0));
  }

  // ---------------------------------------------------------------------------
  // Grouping

  /** The contents of a signal group the aggregator creates. */
  datatype GroupSpec = GroupSpec(lines: seq<Line>, protocolName: ProtocolName, correlationRating: Option<Float64>)

  function Presents(list: seq<AnalysedSignal>): (r: seq<Line>)
    ensures |r| == |list| && forall k :: 0 <= k < |list| ==> r[k] == Present(list[k])
  {
    seq(|list|, k requires 0 <= k < |list| => Present(list[k]))
  }

  /** The rating of the last correlated line, or `None` when there is none. */
  function LastRating(ratings: seq<Float64>): (r: Option<Float64>)
    ensures r.None? <==> ratings == []
    ensures r.Some? ==> r.value == ratings[|ratings| - 1]
  {
    if |ratings| > 0 then Some(ratings[|ratings| - 1]) else None
  }

  /** The test the grouping applies to each measured line, for each periodic line. */
  function Correlation(rule: AggregationRule): AnalysedSignal -> Check
  {
    p => (m => CorrelationCheck(p, m, rule))
  }

  /** One iteration of `__group_periodic_burst_related_signals`: the group of `p` and the measured lines it leaves. */
  function CorrelatedGroup(p: AnalysedSignal, measured: seq<AnalysedSignal>, check: Check, rule: AggregationRule): Result<(GroupSpec, seq<AnalysedSignal>)>
  {
    var pass := Sweep(measured, check, rule);
    if pass.Err? then Err(pass.error)
    else Ok((ClockGroupOf(p, pass.value), pass.value.remaining))
  }

  /** The group a periodic line forms with the lines a pass took: no protocol yet, the rating of the last line taken. */
  function ClockGroupOf(p: AnalysedSignal, pass: Pass): GroupSpec
  {
    GroupSpec([Present(p)] + Presents(pass.taken), NoProtocol, LastRating(pass.ratings))
  }

  /** How one periodic line forms its group from the measured lines left, and which lines it leaves. */
  type Grouper = (AnalysedSignal, seq<AnalysedSignal>) -> Result<(GroupSpec, seq<AnalysedSignal>)>

  /** The grouping step of the aggregator: test each measured line left against the periodic line by `correlate`. */
  function Grouping(correlate: AnalysedSignal -> Check, rule: AggregationRule): Grouper
  {
    (p, measured) => CorrelatedGroup(p, measured, correlate(p), rule)
  }

  /** `__group_periodic_burst_related_signals` from the `i`-th periodic line on, with the groups made so far. */
  function PeriodicGroups(periodic: seq<AnalysedSignal>, i: nat, measured: seq<AnalysedSignal>, groups: seq<GroupSpec>, group: Grouper):
    Result<(seq<GroupSpec>, seq<AnalysedSignal>)>
    decreases |periodic| - i
  {
    if i >= |periodic| then Ok((groups, measured))
    else
      var g := group(periodic[i], measured);
      if g.Err? then Err(g.error)
      else PeriodicGroups(periodic, i + 1, g.value.1, groups + [g.value.0], group)
  }

  /** A group of `__generate_standalone_line_groups`: no clock, the line as first data line, named after its signal type. */
  function StandaloneGroup(s: AnalysedSignal): GroupSpec
  {
    GroupSpec([NoLine, Present(s)], OfType(s.eventProperties.signalType), Some(Finite(-1.0)))
  }

  function StandaloneGroups(list: seq<AnalysedSignal>): (r: seq<GroupSpec>)
    ensures |r| == |list| && forall k :: 0 <= k < |list| ==> r[k] == StandaloneGroup(list[k])
  {
    seq(|list|, k requires 0 <= k < |list| => StandaloneGroup(list[k]))
  }

  /**
   * `aggregate`: a group for each periodic line, in ascending order of
   * duration, with the measured lines correlated with it; then a group for
   * each measured line no periodic line took.
   */
  function Aggregate(list: seq<AnalysedSignal>, rule: AggregationRule): Result<seq<GroupSpec>>
    requires PeriodicNonNegative(list)
  {
    var (periodic, rest) := RetrievePeriodic(list, rule);
    var grouped := PeriodicGroups(periodic, 0, rest, [], Grouping(Correlation(rule), rule));
    if grouped.Err? then Err(grouped.error)
    else Ok(grouped.value.0 + StandaloneGroups(grouped.value.1))
  }

  // ---------------------------------------------------------------------------
  // What the groups hold

  /** The lines present in a list of group entries. */
  function LinesOf(lines: seq<Line>): multiset<AnalysedSignal>
  {
    if lines == [] then multiset{}
    else (if lines[0].Present? then multiset{lines[0].analysed} else multiset{}) + LinesOf(lines[1..])
  }

  /** The lines present in all the groups. */
  function GroupedLines(groups: seq<GroupSpec>): multiset<AnalysedSignal>
  {
    if groups == [] then multiset{}
    else GroupedLines(groups[..|groups| - 1]) + LinesOf(groups[|groups| - 1].lines)
  }

  lemma {:induction false} LinesOfPresents(list: seq<AnalysedSignal>)
    ensures LinesOf(Presents(list)) == multiset(list)
  {
    if list != [] {
      assert Presents(list)[1..] == Presents(list[1..]);
      LinesOfPresents(list[1..]);
      assert list == [list[0]] + list[1..];
    }
  }

  lemma GroupedLinesAppend(groups: seq<GroupSpec>, g: GroupSpec)
    ensures GroupedLines(groups + [g]) == GroupedLines(groups) + LinesOf(g.lines)
  {
    assert (groups + [g])[..|groups|] == groups;
  }

  lemma StandaloneGroupHolds(s: AnalysedSignal)
    ensures LinesOf(StandaloneGroup(s).lines) == multiset{s}
  {
    var lines := StandaloneGroup(s).lines;
    assert lines[1..] == [Present(s)] && lines[1..][1..] == [];
    assert LinesOf(lines[1..][1..]) == multiset{};
    assert LinesOf(lines[1..]) == multiset{s};
  }

  lemma StandaloneGroupsSnoc(list: seq<AnalysedSignal>)
    requires list != []
    ensures StandaloneGroups(list) == StandaloneGroups(list[..|list| - 1]) + [StandaloneGroup(list[|list| - 1])]
  {
  }

  lemma MultisetSnoc<T>(list: seq<T>)
    requires list != []
    ensures multiset(list) == multiset(list[..|list| - 1]) + multiset{list[|list| - 1]}
  {
    assert list == list[..|list| - 1] + [list[|list| - 1]];
  }

  /** Appending the standalone groups of some lines adds exactly those lines. */
  lemma {:induction false} StandaloneGroupsHoldLines(groups: seq<GroupSpec>, list: seq<AnalysedSignal>)
    ensures GroupedLines(groups + StandaloneGroups(list)) == GroupedLines(groups) + multiset(list)
    decreases |list|
  {
    if list == [] {
      assert groups + StandaloneGroups(list) == groups;
    } else {
      var init := list[..|list| - 1];
      var last := StandaloneGroup(list[|list| - 1]);
      StandaloneGroupsHoldLines(groups, init);
      StandaloneGroupsSnoc(list);
      ConcatAssoc(groups, StandaloneGroups(init), [last]);
      GroupedLinesAppend(groups + StandaloneGroups(init), last);
      StandaloneGroupHolds(list[|list| - 1]);
      MultisetSnoc(list);
    }
  }

  /**
   * A periodic line's group: the periodic line as clock, then only lines
   * that pass the check, rated by the rating of the last of them, or `None`
   * when there is none.
   */
  predicate ClockGroup(g: GroupSpec, p: AnalysedSignal, check: Check)
  {
    |g.lines| >= 1 && g.lines[0] == Present(p) && g.protocolName == NoProtocol &&
    (forall j :: 1 <= j < |g.lines| ==> g.lines[j].Present? && check(g.lines[j].analysed).Ok? && check(g.lines[j].analysed).value.0) &&
    g.correlationRating == (if |g.lines| == 1 then None else Some(check(g.lines[|g.lines| - 1].analysed).value.1))
  }

  /** The group a periodic line forms with the lines a pass took holds exactly those lines. */
  lemma ClockGroupOfPass(p: AnalysedSignal, pass: Pass, check: Check)
    requires TakenChecked(pass, check)
    ensures ClockGroup(ClockGroupOf(p, pass), p, check)
    ensures LinesOf(ClockGroupOf(p, pass).lines) == multiset{p} + multiset(pass.taken)
  {
    var taken := pass.taken;
    var lines := ClockGroupOf(p, pass).lines;
    forall j | 1 <= j < |lines|
      ensures lines[j] == Present(taken[j - 1]) && check(taken[j - 1]) == Ok((true, pass.ratings[j - 1]))
    {
    }
    assert lines[1..] == Presents(taken);
    LinesOfPresents(taken);
  }

  /** The group of a periodic line holds it and the lines it took, and the lines it leaves are the others. */
  lemma CorrelatedGroupShape(p: AnalysedSignal, measured: seq<AnalysedSignal>, check: Check, rule: AggregationRule)
    ensures var r := CorrelatedGroup(p, measured, check, rule);
      r.Ok? ==> ClockGroup(r.value.0, p, check) &&
                LinesOf(r.value.0.lines) + multiset(r.value.1) == multiset{p} + multiset(measured)
  {
    SweepKeepsLines(measured, check, rule);
    var pass := Sweep(measured, check, rule);
    if pass.Ok? {
      ClockGroupOfPass(p, pass.value, check);
    }
  }

  lemma SplitFirst(list: seq<AnalysedSignal>, i: nat)
    requires i < |list|
    ensures multiset(list[i..]) == multiset{list[i]} + multiset(list[i + 1..])
  {
    assert list[i..] == [list[i]] + list[i + 1..];
  }

  /** A grouping step that makes clock groups by `correlate` and neither loses nor creates lines. */
  ghost predicate MakesClockGroups(group: Grouper, correlate: AnalysedSignal -> Check)
  {
    forall p, measured :: group(p, measured).Ok? ==>
      ClockGroup(group(p, measured).value.0, p, correlate(p)) &&
      LinesOf(group(p, measured).value.0.lines) + multiset(group(p, measured).value.1) == multiset{p} + multiset(measured)
  }

  /** The aggregator's grouping step makes clock groups by the correlation test. */
  lemma GroupingMakesClockGroups(correlate: AnalysedSignal -> Check, rule: AggregationRule)
    ensures MakesClockGroups(Grouping(correlate, rule), correlate)
  {
    forall p, measured
      ensures var g := Grouping(correlate, rule)(p, measured);
        g.Ok? ==> ClockGroup(g.value.0, p, correlate(p)) &&
                  LinesOf(g.value.0.lines) + multiset(g.value.1) == multiset{p} + multiset(measured)
    {
      CorrelatedGroupShape(p, measured, correlate(p), rule);
    }
  }

  /** Grouping from the `i`-th periodic line on loses no line. */
  lemma {:induction false} PeriodicGroupsKeepLines(periodic: seq<AnalysedSignal>, i: nat, measured: seq<AnalysedSignal>, groups: seq<GroupSpec>,
                                                    group: Grouper, correlate: AnalysedSignal -> Check)
    requires i <= |periodic| && MakesClockGroups(group, correlate)
    ensures var r := PeriodicGroups(periodic, i, measured, groups, group);
      r.Ok? ==> GroupedLines(r.value.0) + multiset(r.value.1) == GroupedLines(groups) + multiset(measured) + multiset(periodic[i..])
    decreases |periodic| - i
  {
    if i < |periodic| {
      var g := group(periodic[i], measured);
      if g.Ok? {
        var (made, left) := g.value;
        GroupedLinesAppend(groups, made);
        SplitFirst(periodic, i);
        PeriodicGroupsKeepLines(periodic, i + 1, left, groups + [made], group, correlate);
        var r := PeriodicGroups(periodic, i + 1, left, groups + [made], group);
        if r.Ok? {
          var G, L, M, P := GroupedLines(groups), LinesOf(made.lines), multiset(left), multiset(periodic[i + 1..]);
          calc {
            GroupedLines(r.value.0) + multiset(r.value.1);
            GroupedLines(groups + [made]) + M + P;
            (G + L) + M + P;
            G + (L + M) + P;
            G + (multiset{periodic[i]} + multiset(measured)) + P;
            G + multiset(measured) + (multiset{periodic[i]} + P);
            G + multiset(measured) + multiset(periodic[i..]);
          }
        }
      }
    }
  }

  lemma PrefixAppend(r: seq<GroupSpec>, groups: seq<GroupSpec>, g: GroupSpec)
    requires |groups| < |r| && r[..|groups| + 1] == groups + [g]
    ensures r[..|groups|] == groups && r[|groups|] == g
  {
    assert r[..|groups| + 1][..|groups|] == r[..|groups|];
    assert r[|groups|] == r[..|groups| + 1][|groups|];
  }

  /** Grouping from the `i`-th periodic line on keeps the groups made so far and appends one group per periodic line. */
  lemma {:induction false} PeriodicGroupsLength(periodic: seq<AnalysedSignal>, i: nat, measured: seq<AnalysedSignal>, groups: seq<GroupSpec>, group: Grouper)
    requires i <= |periodic|
    ensures var r := PeriodicGroups(periodic, i, measured, groups, group);
      r.Ok? ==> |r.value.0| == |groups| + |periodic| - i && r.value.0[..|groups|] == groups
    decreases |periodic| - i
  {
    if i < |periodic| {
      var g := group(periodic[i], measured);
      if g.Ok? {
        var next := groups + [g.value.0];
        PeriodicGroupsLength(periodic, i + 1, g.value.1, next, group);
        var r := PeriodicGroups(periodic, i + 1, g.value.1, next, group);
        if r.Ok? {
          PrefixAppend(r.value.0, groups, g.value.0);
        }
      }
    }
  }

  /** The group grouping makes for the `k`-th periodic line is that line's clock group, in position. */
  lemma {:induction false} PeriodicGroupsAt(periodic: seq<AnalysedSignal>, i: nat, measured: seq<AnalysedSignal>, groups: seq<GroupSpec>,
                                             group: Grouper, correlate: AnalysedSignal -> Check, k: nat)
    requires i <= k < |periodic| && MakesClockGroups(group, correlate)
    ensures var r := PeriodicGroups(periodic, i, measured, groups, group);
      r.Ok? ==> |groups| + k - i < |r.value.0| && ClockGroup(r.value.0[|groups| + k - i], periodic[k], correlate(periodic[k]))
    decreases |periodic| - i
  {
    var g := group(periodic[i], measured);
    if g.Ok? {
      var next := groups + [g.value.0];
      PeriodicGroupsLength(periodic, i + 1, g.value.1, next, group);
      var r := PeriodicGroups(periodic, i + 1, g.value.1, next, group);
      if k == i {
        if r.Ok? {
          PrefixAppend(r.value.0, groups, g.value.0);
        }
      } else {
        PeriodicGroupsAt(periodic, i + 1, g.value.1, next, group, correlate, k);
        assert |next| + k - (i + 1) == |groups| + k - i;
      }
    }
  }

  /** Grouping all periodic lines makes one clock group per periodic line, in order. */
  lemma PeriodicGroupsClocks(periodic: seq<AnalysedSignal>, measured: seq<AnalysedSignal>, group: Grouper, correlate: AnalysedSignal -> Check)
    requires MakesClockGroups(group, correlate)
    ensures var r := PeriodicGroups(periodic, 0, measured, [], group);
      r.Ok? ==> |r.value.0| == |periodic| && forall k :: 0 <= k < |periodic| ==> ClockGroup(r.value.0[k], periodic[k], correlate(periodic[k]))
  {
    PeriodicGroupsLength(periodic, 0, measured, [], group);
    forall k | 0 <= k < |periodic|
      ensures var r := PeriodicGroups(periodic, 0, measured, [], group);
        r.Ok? ==> ClockGroup(r.value.0[k], periodic[k], correlate(periodic[k]))
    {
      PeriodicGroupsAt(periodic, 0, measured, [], group, correlate, k);
    }
  }

  /** Aggregation loses no line and creates none: every measured line is in exactly one group. */
  lemma AggregateKeepsLines(list: seq<AnalysedSignal>, rule: AggregationRule)
    requires PeriodicNonNegative(list)
    ensures Aggregate(list, rule).Ok? ==> GroupedLines(Aggregate(list, rule).value) == multiset(list)
  {
    var (periodic, rest) := RetrievePeriodic(list, rule);
    RetrievePeriodicSplits(list, rule);
    GroupingMakesClockGroups(Correlation(rule), rule);
    PeriodicGroupsKeepLines(periodic, 0, rest, [], Grouping(Correlation(rule), rule), Correlation(rule));
    var grouped := PeriodicGroups(periodic, 0, rest, [], Grouping(Correlation(rule), rule));
    if grouped.Ok? {
      assert periodic[0..] == periodic;
      StandaloneGroupsHoldLines(grouped.value.0, grouped.value.1);
    }
  }

  /** Periodic groups followed by the standalone groups of the lines they leave. */
  lemma GroupsThenStandalone(periodic: seq<AnalysedSignal>, measured: seq<AnalysedSignal>, group: Grouper, correlate: AnalysedSignal -> Check)
    requires MakesClockGroups(group, correlate)
    ensures var grouped := PeriodicGroups(periodic, 0, measured, [], group);
      grouped.Ok? ==>
        var r := grouped.value.0 + StandaloneGroups(grouped.value.1);
        |periodic| <= |r| &&
        (forall k :: 0 <= k < |periodic| ==> ClockGroup(r[k], periodic[k], correlate(periodic[k]))) &&
        (forall k :: |periodic| <= k < |r| ==> |r[k].lines| == 2 && r[k].lines[1].Present? && r[k] == StandaloneGroup(r[k].lines[1].analysed))
  {
    PeriodicGroupsClocks(periodic, measured, group, correlate);
    var grouped := PeriodicGroups(periodic, 0, measured, [], group);
    if grouped.Ok? {
      var r := grouped.value.0 + StandaloneGroups(grouped.value.1);
      forall k | 0 <= k < |periodic|
        ensures ClockGroup(r[k], periodic[k], correlate(periodic[k]))
      {
        assert r[k] == grouped.value.0[k];
      }
      forall k | |periodic| <= k < |r|
        ensures |r[k].lines| == 2 && r[k].lines[1].Present? && r[k] == StandaloneGroup(r[k].lines[1].analysed)
      {
        assert r[k] == StandaloneGroups(grouped.value.1)[k - |periodic|];
      }
    }
  }

  /**
   * The groups of the periodic lines come first, one per periodic line in
   * ascending order of duration, then one standalone group per line left.
   */
  lemma AggregateShape(list: seq<AnalysedSignal>, rule: AggregationRule)
    requires PeriodicNonNegative(list)
    ensures var periodic := RetrievePeriodic(list, rule).0;
      var r := Aggregate(list, rule);
      r.Ok? ==> |periodic| <= |r.value| &&
                (forall k :: 0 <= k < |periodic| ==> ClockGroup(r.value[k], periodic[k], Correlation(rule)(periodic[k]))) &&
                (forall k :: |periodic| <= k < |r.value| ==>
                   |r.value[k].lines| == 2 && r.value[k].lines[1].Present? && r.value[k] == StandaloneGroup(r.value[k].lines[1].analysed))
  {
    var (periodic, rest) := RetrievePeriodic(list, rule);
    GroupingMakesClockGroups(Correlation(rule), rule);
    GroupsThenStandalone(periodic, rest, Grouping(Correlation(rule), rule), Correlation(rule));
  }

  // ---------------------------------------------------------------------------
  // Building the group objects

  /** A signal group object holding what `spec` describes, neither identified nor decoded yet. */
  predicate Materialises(g: SignalGroup, spec: GroupSpec)
    reads g
  {
    g.analyzedSignals == spec.lines && g.protocolName == spec.protocolName && g.correlationRating == spec.correlationRating &&
    g.identificationRatings == None && g.encodingParameters == map[]
  }

  /** Each object of `groups` is a distinct object holding the group of `specs` at the same position. */
  predicate AllMaterialise(groups: seq<SignalGroup>, specs: seq<GroupSpec>)
    reads set g | g in groups
  {
    |groups| == |specs| &&
    (forall k :: 0 <= k < |groups| ==> Materialises(groups[k], specs[k])) &&
    (forall j, k :: 0 <= j < k < |groups| ==> groups[j] != groups[k])
  }

  /** One step of the grouping, in terms of the pass the periodic line makes over the lines left. */
  lemma GroupingStep(periodic: seq<AnalysedSignal>, i: nat, rest: seq<AnalysedSignal>, specs: seq<GroupSpec>,
                     correlate: AnalysedSignal -> Check, rule: AggregationRule, pass: Result<Pass>)
    requires i < |periodic| && pass == Sweep(rest, correlate(periodic[i]), rule)
    ensures pass.Err? ==> PeriodicGroups(periodic, i, rest, specs, Grouping(correlate, rule)) == Err(pass.error)
    ensures pass.Ok? ==> PeriodicGroups(periodic, i, rest, specs, Grouping(correlate, rule)) ==
                         PeriodicGroups(periodic, i + 1, pass.value.remaining, specs + [ClockGroupOf(periodic[i], pass.value)], Grouping(correlate, rule))
  {
  }

  /** The aggregation in terms of its two passes. */
  lemma AggregateSteps(list: seq<AnalysedSignal>, rule: AggregationRule, periodic: seq<AnalysedSignal>, rest: seq<AnalysedSignal>)
    requires PeriodicNonNegative(list) && (periodic, rest) == RetrievePeriodic(list, rule)
    ensures var grouped := PeriodicGroups(periodic, 0, rest, [], Grouping(Correlation(rule), rule));
      (grouped.Err? ==> Aggregate(list, rule) == Err(grouped.error)) &&
      (grouped.Ok? ==> Aggregate(list, rule) == Ok(grouped.value.0 + StandaloneGroups(grouped.value.1)))
  {
  }

  /** Appending a new object that holds one more group. */
  lemma AllMaterialiseSnoc(groups: seq<SignalGroup>, specs: seq<GroupSpec>, g: SignalGroup, spec: GroupSpec)
    requires AllMaterialise(groups, specs) && Materialises(g, spec) && g !in groups
    ensures AllMaterialise(groups + [g], specs + [spec])
  {
  }

  /** Two lists of distinct group objects, with no object in both, hold the concatenation of their groups. */
  lemma AllMaterialiseConcat(a: seq<SignalGroup>, sa: seq<GroupSpec>, b: seq<SignalGroup>, sb: seq<GroupSpec>)
    requires AllMaterialise(a, sa) && AllMaterialise(b, sb)
    requires forall j, k :: 0 <= j < |a| && 0 <= k < |b| ==> a[j] != b[k]
    ensures AllMaterialise(a + b, sa + sb)
  {
    var ab := a + b;
    forall k | 0 <= k < |ab|
      ensures Materialises(ab[k], (sa + sb)[k])
    {
      if k < |a| {
        assert ab[k] == a[k];
      } else {
        assert ab[k] == b[k - |a|];
      }
    }
  }

  /** The new group of one periodic line: the line, the lines its pass took, the rating of the last of them. */
  method NewClockGroup(p: AnalysedSignal, pass: Pass) returns (g: SignalGroup)
    ensures fresh(g) && Materialises(g, ClockGroupOf(p, pass))
  {
    var ratings := pass.ratings;
    g := new SignalGroup([Present(p)] + Presents(pass.taken));
    if |ratings| > 0 {
      g.correlationRating := Some(ratings[|ratings| - 1]);
    } else {
      g.correlationRating := None;
    }
  }

  /**
   * `__group_periodic_burst_related_signals`: one new group per periodic line,
   * and the measured lines none took; `correlate` is the correlation test
   * (`AggregateSignals` passes `Correlation(rule)`).
   */
  method GroupPeriodicRelatedSignals(periodic: seq<AnalysedSignal>, measured: seq<AnalysedSignal>,
                                     correlate: AnalysedSignal -> Check, rule: AggregationRule)
    returns (groups: seq<SignalGroup>, rest: seq<AnalysedSignal>, err: Option<Error>)
    ensures var r := PeriodicGroups(periodic, 0, measured, [], Grouping(correlate, rule));
      (err.None? <==> r.Ok?) && (r.Err? ==> err == Some(r.error)) &&
      (r.Ok? ==> AllMaterialise(groups, r.value.0) && rest == r.value.1)
    ensures forall g :: g in groups ==> fresh(g)
  {
    groups, rest, err := [], measured, None;
    ghost var specs: seq<GroupSpec> := [];
    var i := 0;
    while i < |periodic|
      invariant 0 <= i <= |periodic|
      invariant PeriodicGroups(periodic, i, rest, specs, Grouping(correlate, rule)) == PeriodicGroups(periodic, 0, measured, [], Grouping(correlate, rule))
      invariant AllMaterialise(groups, specs)
      invariant forall g :: g in groups ==> fresh(g)
    {
      var p := periodic[i];
      var pass := RunSweep(rest, correlate(p), rule);
      GroupingStep(periodic, i, rest, specs, correlate, rule, pass);
      if pass.Err? {
        err := Some(pass.error);
        return;
      }
      var g := NewClockGroup(p, pass.value);
      ghost var spec := ClockGroupOf(p, pass.value);
      AllMaterialiseSnoc(groups, specs, g, spec);
      groups := groups + [g];
      specs := specs + [spec];
      rest := pass.value.remaining;
      i := i + 1;
    }
  }

  /** `__generate_standalone_line_groups`: one new standalone group per line, in order. */
  method GenerateStandaloneLineGroups(list: seq<AnalysedSignal>) returns (groups: seq<SignalGroup>)
    ensures AllMaterialise(groups, StandaloneGroups(list))
    ensures forall g :: g in groups ==> fresh(g)
  {
    groups := [];
    var i := 0;
    while i < |list|
      invariant 0 <= i <= |list|
      invariant AllMaterialise(groups, StandaloneGroups(list[..i]))
      invariant forall g :: g in groups ==> fresh(g)
    {
      var s := list[i];
      var g := new SignalGroup([NoLine, Present(s)]);
      g.protocolName := OfType(s.eventProperties.signalType);
      assert StandaloneGroups(list[..i + 1]) == StandaloneGroups(list[..i]) + [StandaloneGroup(s)];
      AllMaterialiseSnoc(groups, StandaloneGroups(list[..i]), g, StandaloneGroup(s));
      groups := groups + [g];
      i := i + 1;
    }
    assert list[..i] == list;
  }

  /**
   * `aggregate`: the groups of the periodic lines, then the standalone groups
   * of the lines they left, as new objects; or the error the correlation met.
   */
  method AggregateSignals(list: seq<AnalysedSignal>, rule: AggregationRule) returns (groups: seq<SignalGroup>, err: Option<Error>)
    requires PeriodicNonNegative(list)
    ensures err.None? <==> Aggregate(list, rule).Ok?
    ensures Aggregate(list, rule).Err? ==> err == Some(Aggregate(list, rule).error)
    ensures Aggregate(list, rule).Ok? ==> AllMaterialise(groups, Aggregate(list, rule).value)
    ensures forall g :: g in groups ==> fresh(g)
  {
    var periodic, rest := RetrievePeriodicSignals(list, rule);
    AggregateSteps(list, rule, periodic, rest);
    var clocks, left, e := GroupPeriodicRelatedSignals(periodic, rest, Correlation(rule), rule);
    if e.Some? {
      return [], e;
    }
    var standalone := GenerateStandaloneLineGroups(left);
    forall j, k | 0 <= j < |clocks| && 0 <= k < |standalone|
      ensures clocks[j] != standalone[k]
    {
      assert standalone[k] in standalone;
    }
    AllMaterialiseConcat(clocks, PeriodicGroups(periodic, 0, rest, [], Grouping(Correlation(rule), rule)).value.0, standalone, StandaloneGroups(left));
    groups, err := clocks + standalone, None;
  }
}
