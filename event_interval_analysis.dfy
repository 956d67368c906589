/**
 * The event interval analysis of one (already denoised) voltage signal:
 * Schmitt-trigger thresholds, the array of incidents (rising and falling
 * edges), the signed intervals between incidents, the double intervals and
 * the signal-type decision table.
 */
module EventIntervalAnalysis {
  import opened Wrappers
  import opened SignalAnalysisResult

  // ---------------------------------------------------------------------------
  // Thresholds

  function Min(data: seq<real>): (r: real)
    requires data != []
    ensures r in data && forall i :: 0 <= i < |data| ==> r <= data[i]
  {
    if |data| == 1 then data[0]
    else
      var m := Min(data[..|data| - 1]);
      assert forall i :: 0 <= i < |data| - 1 ==> data[..|data| - 1][i] == data[i];
      if data[|data| - 1] < m then data[|data| - 1] else m
  }

  function Max(data: seq<real>): (r: real)
    requires data != []
    ensures r in data && forall i :: 0 <= i < |data| ==> data[i] <= r
  {
    if |data| == 1 then data[0]
    else
      var m := Max(data[..|data| - 1]);
      assert forall i :: 0 <= i < |data| - 1 ==> data[..|data| - 1][i] == data[i];
      if data[|data| - 1] > m then data[|data| - 1] else m
  }

  /** `__schmitt_trigger_low`: 30 % of the way from the minimum to the maximum. */
  function TriggerLow(data: seq<real>): (r: real)
    requires data != []
    ensures Min(data) <= r <= Max(data)
  {
    Min(data) + 0.3 * (Max(data) - Min(data))
  }

  /** `__schmitt_trigger_high`: 70 % of the way from the minimum to the maximum. */
  function TriggerHigh(data: seq<real>): (r: real)
    requires data != []
    ensures TriggerLow(data) <= r <= Max(data)
  {
    Min(data) + 0.7 * (Max(data) - Min(data))
  }

  /** The thresholds lie between the extremes, the low one below the high one. */
  lemma TriggerOrder(data: seq<real>)
    requires data != []
    ensures Min(data) <= TriggerLow(data) <= TriggerHigh(data) <= Max(data)
    ensures Min(data) < Max(data) ==> TriggerLow(data) < TriggerHigh(data)
  {
  }

  // ---------------------------------------------------------------------------
  // The array of incidents

  /**
   * The state the scan starts in: high exactly when the first sample is
   * above the high threshold (it then cannot be below the low one).
   */
  function InitialHigh(data: seq<real>, low: real, high: real): bool
    requires data != []
  {
    data[0] > high
  }

  /** The scan's state change on one sample. */
  function Next(isHigh: bool, x: real, low: real, high: real): bool
  {
    if x > high && !isHigh then true
    else if x < low && isHigh then false
    else isHigh
  }

  /** The state before sample `k` is looked at. */
  function StateAt(data: seq<real>, low: real, high: real, k: nat): bool
    requires data != [] && k <= |data|
  {
    if k == 0 then InitialHigh(data, low, high)
    else Next(StateAt(data, low, high, k - 1), data[k - 1], low, high)
  }

  /** What the scan writes at sample `i`: a rising edge from low, a falling edge from high, else nothing. */
  function ScanIncident(data: seq<real>, low: real, high: real, i: nat): int
    requires i < |data|
  {
    var s := StateAt(data, low, high, i);
    if data[i] > high && !s then 1
    else if data[i] < low && s then -1
    else 0
  }

  /** The finished array: the scan's incidents, the last one overwritten by the closing edge. */
  function Incidents(data: seq<real>, low: real, high: real): (r: seq<int>)
    requires data != []
    ensures |r| == |data|
  {
    var n := |data|;
    seq(n, i requires 0 <= i < n =>
      if i == n - 1 then (if StateAt(data, low, high, n) then -1 else 1)
      else ScanIncident(data, low, high, i))
  }

  /** `__generate_array_of_incidents`: `min` of no samples raises. */
  method GenerateArrayOfIncidents(data: seq<real>) returns (r: Result<seq<int>>)
    ensures data == [] ==> r == Err(ValueError)
    ensures data != [] ==> r == Ok(Incidents(data, TriggerLow(data), TriggerHigh(data)))
  {
    if data == [] {
      return Err(ValueError);
    }
    var low := TriggerLow(data);
    var high := TriggerHigh(data);
    var n := |data|;
    var incidents := new int[n](i => 0);
    var isHigh := data[0] > high;
    var i := 0;
    while i < n
      invariant 0 <= i <= n
      invariant isHigh == StateAt(data, low, high, i)
      invariant forall j :: 0 <= j < i ==> incidents[j] == ScanIncident(data, low, high, j)
      invariant forall j :: i <= j < n ==> incidents[j] == 0
    {
      if data[i] > high && !isHigh {
        incidents[i] := 1;
        isHigh := true;
      } else if data[i] < low && isHigh {
        incidents[i] := -1;
        isHigh := false;
      }
      i := i + 1;
    }
    if !isHigh {
      incidents[n - 1] := 1;
    } else {
      incidents[n - 1] := -1;
    }
    assert incidents[..] == Incidents(data, low, high);
    return Ok(incidents[..]);
  }

  /** Every entry is -1, 0 or 1; the last is the closing edge; a rising edge comes only from low and a falling one only from high. */
  lemma IncidentFacts(data: seq<real>, low: real, high: real)
    requires data != []
    ensures var inc := Incidents(data, low, high);
      (forall i :: 0 <= i < |inc| ==> -1 <= inc[i] <= 1) &&
      (inc[|inc| - 1] == if StateAt(data, low, high, |data|) then -1 else 1) &&
      (forall i :: 0 <= i < |inc| - 1 && inc[i] == 1 ==> !StateAt(data, low, high, i) && StateAt(data, low, high, i + 1)) &&
      (forall i :: 0 <= i < |inc| - 1 && inc[i] == -1 ==> StateAt(data, low, high, i) && !StateAt(data, low, high, i + 1))
  {
  }

  /** The first sample never raises an incident of its own during the scan. */
  lemma FirstSampleQuiet(data: seq<real>)
    requires |data| >= 2
    ensures Incidents(data, TriggerLow(data), TriggerHigh(data))[0] == 0
  {
    TriggerOrder(data);
  }

  // ---------------------------------------------------------------------------
  // The interval array

  predicate IsEdge(x: int)
  {
    x == 1 || x == -1
  }

  /** The positions of the incidents among the first `n` entries, in increasing order. */
  function EdgesBefore(inc: seq<int>, n: nat): (r: seq<nat>)
    requires n <= |inc|
    ensures forall k :: 0 <= k < |r| ==> r[k] < n && IsEdge(inc[r[k]])
  {
    if n == 0 then []
    else
      var prev := EdgesBefore(inc, n - 1);
      if IsEdge(inc[n - 1]) then prev + [n - 1] else prev
  }

  /** The incidents are listed in increasing order, and every one of them is listed. */
  lemma {:induction false} EdgesOrdered(inc: seq<int>, n: nat)
    requires n <= |inc|
    ensures var r := EdgesBefore(inc, n);
      (forall k, l :: 0 <= k < l < |r| ==> r[k] < r[l]) &&
      (forall i :: 0 <= i < n && IsEdge(inc[i]) ==> i in r)
  {
    if n > 0 {
      EdgesOrdered(inc, n - 1);
    }
  }

  /** The positions of all incidents. */
  function EdgeIndices(inc: seq<int>): (r: seq<nat>)
  {
    EdgesBefore(inc, |inc|)
  }

  /** The position of the incident before the `k`-th, 0 for the first. */
  function Previous(idx: seq<nat>, k: nat): nat
    requires k < |idx|
  {
    if k == 0 then 0 else idx[k - 1]
  }

  /** The signed interval from sample `from` to sample `to` at `res` per sample. */
  function IntervalValue(edge: int, from: int, to: int, res: int): int
  {
    edge * ((to - from) * res)
  }

  /** The intervals of the incidents among the first `n` entries. */
  function IntervalsBefore(inc: seq<int>, n: nat, res: int): (r: seq<int>)
    requires n <= |inc|
    ensures |r| == |EdgesBefore(inc, n)|
  {
    var idx := EdgesBefore(inc, n);
    seq(|idx|, k requires 0 <= k < |idx| => IntervalValue(inc[idx[k]], Previous(idx, k), idx[k], res))
  }

  /**
   * One interval per incident: the time since the previous incident (or the
   * start), positive after a rising edge and negative after a falling one.
   */
  function Intervals(inc: seq<int>, res: int): (r: seq<int>)
    ensures |r| == |EdgeIndices(inc)|
  {
    IntervalsBefore(inc, |inc|, res)
  }

  function Last(idx: seq<nat>): nat
  {
    if idx == [] then 0 else idx[|idx| - 1]
  }

  /** `b` is `a` with one more element `x` at its end, or `a` itself. */
  lemma Snoc(a: seq<int>, b: seq<int>, x: int)
    requires |a| <= |b| <= |a| + 1
    requires forall k :: 0 <= k < |a| ==> b[k] == a[k]
    requires |b| == |a| + 1 ==> b[|a|] == x
    ensures b == if |b| == |a| then a else a + [x]
  {
    if |b| == |a| + 1 {
      assert b == a + [x];
    }
  }

  /** The intervals of a longer prefix: one more, measured from the last incident, exactly at an incident. */
  lemma IntervalsStep(inc: seq<int>, i: nat, res: int)
    requires i < |inc|
    ensures IntervalsBefore(inc, i + 1, res) ==
      IntervalsBefore(inc, i, res) + (if IsEdge(inc[i]) then [IntervalValue(inc[i], Last(EdgesBefore(inc, i)), i, res)] else [])
    ensures Last(EdgesBefore(inc, i + 1)) == if IsEdge(inc[i]) then i else Last(EdgesBefore(inc, i))
  {
    var idx := EdgesBefore(inc, i);
    var idx' := EdgesBefore(inc, i + 1);
    var a := IntervalsBefore(inc, i, res);
    var b := IntervalsBefore(inc, i + 1, res);
    forall k | 0 <= k < |a|
      ensures b[k] == a[k]
    {
      assert idx'[k] == idx[k] && Previous(idx', k) == Previous(idx, k);
    }
    if IsEdge(inc[i]) {
      assert Previous(idx', |idx|) == Last(idx);
      assert b[|a|] == IntervalValue(inc[i], Last(idx), i, res);
      Snoc(a, b, b[|a|]);
    } else {
      Snoc(a, b, 0);
    }
  }

  lemma SignedInterval(edge: int, from: int, to: int, res: int)
    requires IsEdge(edge)
    ensures IntervalValue(edge, from, to, res) == if edge == 1 then (to - from) * res else -((to - from) * res)
  {
  }

  /** The loop of `__generate_interval_array` over a finished incident array. */
  method IntervalArray(inc: seq<int>, res: int) returns (intervals: seq<int>)
    ensures intervals == Intervals(inc, res)
  {
    intervals := [];
    var lastIncident := 0;
    var i := 0;
    while i < |inc|
      invariant 0 <= i <= |inc|
      invariant intervals == IntervalsBefore(inc, i, res)
      invariant lastIncident == Last(EdgesBefore(inc, i))
    {
      IntervalsStep(inc, i, res);
      if inc[i] == 1 {
        SignedInterval(inc[i], lastIncident, i, res);
        intervals := intervals + [(i - lastIncident) * res];
        lastIncident := i;
      } else if inc[i] == -1 {
        SignedInterval(inc[i], lastIncident, i, res);
        intervals := intervals + [-((i - lastIncident) * res)];
        lastIncident := i;
      }
      i := i + 1;
    }
  }

  /**
   * `__generate_interval_array`: the incidents of `data` turned into signed
   * intervals; the sample times are `range(0, res * n, res)`, which refuses
   * a zero step.
   */
  method GenerateIntervalArray(data: seq<real>, res: int) returns (r: Result<seq<int>>)
    ensures data == [] || res == 0 ==> r == Err(ValueError)
    ensures data != [] && res != 0 ==> r == Ok(Intervals(Incidents(data, TriggerLow(data), TriggerHigh(data)), res))
  {
    var incidents := GenerateArrayOfIncidents(data);
    if incidents.Err? {
      return Err(incidents.error);
    }
    if res == 0 {
      return Err(ValueError);
    }
    var intervals := IntervalArray(incidents.value, res);
    return Ok(intervals);
  }

  function Abs(x: int): nat
  {
    if x < 0 then -x else x
  }

  function SumAbs(s: seq<int>): nat
  {
    if s == [] then 0 else SumAbs(s[..|s| - 1]) + Abs(s[|s| - 1])
  }

  /** An interval is as long as its gap in samples times the resolution. */
  lemma AbsInterval(edge: int, from: int, to: int, res: int)
    requires IsEdge(edge) && from <= to
    ensures Abs(IntervalValue(edge, from, to, res)) == (to - from) * Abs(res)
    ensures res > 0 && from < to ==> (IntervalValue(edge, from, to, res) > 0 <==> edge == 1)
  {
    var gap := to - from;
    if res >= 0 {
      assert gap * res >= 0;
    } else {
      assert gap * res == -(gap * (-res));
      assert gap * (-res) >= 0;
    }
    if res > 0 && from < to {
      assert gap * res > 0;
    }
  }

  lemma Distribute(a: int, b: int, r: int)
    ensures a * r + (b - a) * r == b * r
  {
  }

  /** The interval lengths up to the previous edge plus the new interval reach the new edge. */
  lemma EdgeSum(before: int, interval: int, last: int, j: int, r: int)
    requires before == last * r && interval == (j - last) * r
    ensures before + interval == j * r
  {
    Distribute(last, j, r);
  }

  lemma SumAbsSnoc(s: seq<int>, x: int)
    ensures SumAbs(s + [x]) == SumAbs(s) + Abs(x)
  {
    assert (s + [x])[..|s|] == s;
  }

  lemma {:induction false} SumAbsPrefix(inc: seq<int>, res: int, i: nat)
    requires i <= |inc|
    ensures SumAbs(IntervalsBefore(inc, i, res)) == Last(EdgesBefore(inc, i)) * Abs(res)
    ensures Last(EdgesBefore(inc, i)) <= i
  {
    if i > 0 {
      var j := i - 1;
      SumAbsPrefix(inc, res, j);
      IntervalsStep(inc, j, res);
      var last := Last(EdgesBefore(inc, j));
      var s := IntervalsBefore(inc, j, res);
      if IsEdge(inc[j]) {
        var x := IntervalValue(inc[j], last, j, res);
        assert IntervalsBefore(inc, i, res) == s + [x];
        SumAbsSnoc(s, x);
        AbsInterval(inc[j], last, j, res);
        EdgeSum(SumAbs(s), Abs(x), last, j, Abs(res));
      } else {
        assert IntervalsBefore(inc, i, res) == s;
      }
    }
  }

  /** The intervals' lengths add up to the time of the last incident. */
  lemma SumOfIntervals(inc: seq<int>, res: int)
    ensures SumAbs(Intervals(inc, res)) == Last(EdgeIndices(inc)) * Abs(res)
  {
    SumAbsPrefix(inc, res, |inc|);
  }

  /** For a signal the last sample is always an incident, so its intervals cover the whole recording. */
  lemma SignalIntervalsCover(data: seq<real>, res: int)
    requires data != []
    ensures var inc := Incidents(data, TriggerLow(data), TriggerHigh(data));
      SumAbs(Intervals(inc, res)) == (|data| - 1) * Abs(res) && |Intervals(inc, res)| >= 1
  {
    var inc := Incidents(data, TriggerLow(data), TriggerHigh(data));
    SumOfIntervals(inc, res);
    var idx := EdgeIndices(inc);
    EdgesOrdered(inc, |inc|);
    assert IsEdge(inc[|inc| - 1]);
    assert |inc| - 1 in idx;
    assert Last(idx) == |inc| - 1;
  }

  lemma PreviousBefore(inc: seq<int>, k: nat)
    requires k < |EdgeIndices(inc)|
    ensures Previous(EdgeIndices(inc), k) <= EdgeIndices(inc)[k]
  {
    var idx := EdgeIndices(inc);
    EdgesOrdered(inc, |inc|);
    if k > 0 {
      assert idx[k - 1] < idx[k];
    }
  }

  lemma IntervalAt(inc: seq<int>, res: int, k: nat)
    requires k < |EdgeIndices(inc)|
    ensures var idx := EdgeIndices(inc);
      Intervals(inc, res)[k] == IntervalValue(inc[idx[k]], Previous(idx, k), idx[k], res)
  {
  }

  /** An interval's length is its gap times the resolution, and its sign follows its edge whenever it is not empty. */
  lemma IntervalSigns(inc: seq<int>, res: int, k: nat)
    requires k < |EdgeIndices(inc)| && res > 0
    ensures var idx := EdgeIndices(inc);
      var iv := Intervals(inc, res)[k];
      Abs(iv) == (idx[k] - Previous(idx, k)) * res &&
      (idx[k] > Previous(idx, k) ==> (iv > 0 <==> inc[idx[k]] == 1))
  {
    var idx := EdgeIndices(inc);
    PreviousBefore(inc, k);
    IntervalAt(inc, res, k);
    AbsInterval(inc[idx[k]], Previous(idx, k), idx[k], res);
  }

  // ---------------------------------------------------------------------------
  // The double interval array

  /** Entry `k`: the lengths of intervals `2k+2` and `2k+1` added. */
  function DoubleIntervals(a: seq<int>): (r: seq<int>)
    ensures |r| == if |a| == 0 then 0 else (|a| - 1) / 2
  {
    var n := if |a| == 0 then 0 else (|a| - 1) / 2;
    seq(n, k requires 0 <= k < n => Abs(a[2 * k + 2]) + Abs(a[2 * k + 1]))
  }

  /** `__generate_double_interval_array`: the loop over `range(2, len, 2)`. */
  method GenerateDoubleIntervalArray(a: seq<int>) returns (r: seq<int>)
    ensures r == DoubleIntervals(a)
  {
    r := [];
    var i := 2;
    while i < |a|
      invariant 2 <= i && i % 2 == 0 && (i == 2 || i <= |a| + 1)
      invariant |r| == i / 2 - 1
      invariant forall k :: 0 <= k < |r| ==> r[k] == Abs(a[2 * k + 2]) + Abs(a[2 * k + 1])
    {
      r := r + [Abs(a[i]) + Abs(a[i - 1])];
      i := i + 2;
    }
  }

  // ---------------------------------------------------------------------------
  // signal_type

  /** The `signal_type` decision table over the voltage statistics and the event counts. */
  function SignalTypeOf(stddev: real, mean: real, reoccurring: int, events: int): (t: SignalType)
    ensures stddev <= 50.0 ==> t == GROUND || t == CONST_VOLTAGE || t == UNKNOWN
    ensures stddev > 50.0 ==> t != GROUND && t != CONST_VOLTAGE
    ensures t == PERIODIC || t == BURST ==> events >= 10
  {
    if stddev <= 50.0 then
      if stddev > mean then GROUND
      else if stddev < mean then CONST_VOLTAGE
      else UNKNOWN
    else if reoccurring == 2 then
      if events < 10 then SPORADIC else PERIODIC
    else if reoccurring > 2 then
      if events < 10 then SPORADIC else BURST
    else UNKNOWN
  }

  /** Each signal type, characterised on its own. */
  lemma SignalTypeTable(stddev: real, mean: real, reoccurring: int, events: int)
    ensures var t := SignalTypeOf(stddev, mean, reoccurring, events);
      (t == GROUND <==> stddev <= 50.0 && stddev > mean) &&
      (t == CONST_VOLTAGE <==> stddev <= 50.0 && stddev < mean) &&
      (t == SPORADIC <==> stddev > 50.0 && reoccurring >= 2 && events < 10) &&
      (t == PERIODIC <==> stddev > 50.0 && reoccurring == 2 && events >= 10) &&
      (t == BURST <==> stddev > 50.0 && reoccurring > 2 && events >= 10) &&
      (t == UNKNOWN <==> (stddev <= 50.0 && stddev == mean) || (stddev > 50.0 && reoccurring < 2))
  {
  }
}
