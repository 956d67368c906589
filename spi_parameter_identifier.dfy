/**
 * The SPI parameter identifier: the clock polarity from the clock line's
 * rest voltage, and the clock phase from how often the data line changes
 * near the even and the odd clock edges.
 */
module SpiParameterIdentifier {
  import opened Wrappers
  import opened SignalAnalysisResult
  import opened PythonNumeric
  import UartParameterIdentifier

  // ---------------------------------------------------------------------------
  // Overall durations

  /** `sum(intervals[:i])` for an index inside the list. */
  function PrefixSum(intervals: seq<real>, i: nat): real
    requires i <= |intervals|
  {
    if i == 0 then 0.0 else PrefixSum(intervals, i - 1) + intervals[i - 1]
  }

  /** The exclusive end of the scanned indices: `int(len(intervals) / 1000)`. */
  function DurationStop(intervals: seq<real>): (r: nat)
    ensures r * 1000 <= |intervals| < (r + 1) * 1000
  {
    |intervals| / 1000
  }

  /**
   * The time from the start of the line to the `i`-th event, for `i` in
   * `range(from, stop, step)`.
   */
  function Durations(intervals: seq<real>, from: nat, stop: nat, step: nat): (r: seq<real>)
    requires step > 0 && stop <= |intervals|
    decreases stop - from
  {
    if from >= stop then [] else [PrefixSum(intervals, from)] + Durations(intervals, from + step, stop, step)
  }

  /** `__get_overall_durations`: the durations up to `int(len(intervals) / 1000)`. */
  function OverallDurations(intervals: seq<real>, offset: nat, step: nat): (r: seq<real>)
    requires step > 0
    ensures r == [] <==> offset >= DurationStop(intervals)
    ensures r != [] ==> r[0] == PrefixSum(intervals, offset)
  {
    Durations(intervals, offset, DurationStop(intervals), step)
  }

  /** Entry `k` of the durations is the sum of the first `from + k * step` intervals. */
  lemma {:induction false} DurationEntry(intervals: seq<real>, from: nat, stop: nat, step: nat, k: nat)
    requires step > 0 && stop <= |intervals| && k < |Durations(intervals, from, stop, step)|
    ensures from + k * step < stop
    ensures Durations(intervals, from, stop, step)[k] == PrefixSum(intervals, from + k * step)
    decreases stop - from
  {
    if k > 0 {
      DurationEntry(intervals, from + step, stop, step, k - 1);
      MulStep(k - 1, step);
    }
  }

  lemma MulStep(k: int, step: int)
    ensures (k + 1) * step == k * step + step
  {
  }

  /** The loop of `__get_overall_durations`. */
  method GetOverallDurations(intervals: seq<real>, offset: nat, step: nat) returns (r: seq<real>)
    requires step > 0
    ensures r == OverallDurations(intervals, offset, step)
  {
    var stop := DurationStop(intervals);
    r := [];
    var i := offset;
    while i < stop
      invariant r + Durations(intervals, i, stop, step) == Durations(intervals, offset, stop, step)
      decreases stop - i
    {
      assert Durations(intervals, i, stop, step) == [PrefixSum(intervals, i)] + Durations(intervals, i + step, stop, step);
      r := r + [PrefixSum(intervals, i)];
      i := i + step;
    }
  }

  /** Prefix sums of non-negative intervals never decrease. */
  lemma {:induction false} PrefixSumMonotone(intervals: seq<real>, i: nat, j: nat)
    requires i <= j <= |intervals|
    requires forall k :: 0 <= k < |intervals| ==> intervals[k] >= 0.0
    ensures PrefixSum(intervals, i) <= PrefixSum(intervals, j)
    decreases j
  {
    if i < j {
      PrefixSumMonotone(intervals, i, j - 1);
    }
  }

  predicate Ascending(s: seq<real>)
  {
    forall i, j :: 0 <= i < j < |s| ==> s[i] <= s[j]
  }

  /** The durations of non-negative intervals are in ascending order, and none precedes `from`'s. */
  lemma {:induction false} DurationsAscending(intervals: seq<real>, from: nat, stop: nat, step: nat)
    requires step > 0 && stop <= |intervals|
    requires forall k :: 0 <= k < |intervals| ==> intervals[k] >= 0.0
    ensures Ascending(Durations(intervals, from, stop, step))
    ensures forall k :: 0 <= k < |Durations(intervals, from, stop, step)| ==>
      PrefixSum(intervals, from) <= Durations(intervals, from, stop, step)[k]
    decreases stop - from
  {
    if from < stop {
      var tail := Durations(intervals, from + step, stop, step);
      DurationsAscending(intervals, from + step, stop, step);
      if from + step <= |intervals| {
        PrefixSumMonotone(intervals, from, from + step);
      }
      assert Durations(intervals, from, stop, step) == [PrefixSum(intervals, from)] + tail;
    }
  }

  // ---------------------------------------------------------------------------
  // Coinciding events

  /**
   * The inner `while` of `__amount_coinciding_events`: from index `i`, skip
   * the data events at or before `lower`, stopping at the last event.
   */
  function Advance(data: seq<real>, i: nat, lower: real): (j: nat)
    requires i < |data|
    decreases |data| - i
    ensures i <= j < |data|
    ensures j == |data| - 1 || data[j] > lower
  {
    if i < |data| - 1 && data[i] <= lower then Advance(data, i + 1, lower) else i
  }

  /** Every event the advance skips is at or before `lower`. */
  lemma {:induction false} AdvanceSkips(data: seq<real>, i: nat, lower: real)
    requires i < |data|
    ensures forall m :: i <= m < Advance(data, i, lower) ==> data[m] <= lower
    decreases |data| - i
  {
    if i < |data| - 1 && data[i] <= lower {
      AdvanceSkips(data, i + 1, lower);
    }
  }

  /** Whether the data event at `j` lies in the closed window of half-width `half` around `t`. */
  predicate InWindow(data: seq<real>, j: nat, t: real, half: real)
    requires j < |data|
  {
    t - half <= data[j] <= t + half
  }

  /** The counter and the data index after the first `n` clock timestamps. */
  function Sweep(clock: seq<real>, half: real, data: seq<real>, n: nat): (r: (nat, nat))
    requires n <= |clock| && data != []
    ensures r.0 <= n && r.1 < |data|
  {
    if n == 0 then (0, 0)
    else
      var prev := Sweep(clock, half, data, n - 1);
      var j := Advance(data, prev.1, clock[n - 1] - half);
      (prev.0 + (if InWindow(data, j, clock[n - 1], half) then 1 else 0), j)
  }

  /** The data index never moves backwards. */
  lemma {:induction false} SweepIndexMonotone(clock: seq<real>, half: real, data: seq<real>, m: nat, n: nat)
    requires m <= n <= |clock| && data != []
    ensures Sweep(clock, half, data, m).1 <= Sweep(clock, half, data, n).1
    decreases n
  {
    if m < n {
      SweepIndexMonotone(clock, half, data, m, n - 1);
    }
  }

  /**
   * `__amount_coinciding_events`: the number of clock timestamps near which a
   * data event lies. Without a symbol duration the window cannot be computed.
   */
  function CoincidingEvents(clock: seq<real>, symbol: Option<real>, data: seq<real>): (r: Result<nat>)
    ensures clock == [] || data == [] ==> r == Ok(0)
    ensures r.Err? <==> clock != [] && data != [] && symbol.None?
    ensures r.Ok? ==> r.value <= |clock|
  {
    if |clock| <= 0 || |data| <= 0 then Ok(0)
    else
      match symbol
      case None => Err(TypeError)
      case Some(d) => Ok(Sweep(clock, d / 2.0, data, |clock|).0)
  }

  /** The two-pointer loop, proved against the sweep. */
  method AmountCoincidingEvents(clock: seq<real>, symbol: Option<real>, data: seq<real>) returns (r: Result<nat>)
    ensures r == CoincidingEvents(clock, symbol, data)
  {
    if |clock| <= 0 || |data| <= 0 {
      return Ok(0);
    }
    if symbol.None? {
      return Err(TypeError);
    }
    var half := symbol.value / 2.0;
    var counter := 0;
    var i := 0;
    var k := 0;
    while k < |clock|
      invariant 0 <= k <= |clock|
      invariant counter == Sweep(clock, half, data, k).0 && i == Sweep(clock, half, data, k).1
    {
      var lower := clock[k] - half;
      var upper := clock[k] + half;
      ghost var start := i;
      while i < |data| - 1 && data[i] <= lower
        invariant start <= i < |data|
        invariant Advance(data, i, lower) == Advance(data, start, lower)
        decreases |data| - i
      {
        i := i + 1;
      }
      assert i == Advance(data, start, lower);
      if lower <= data[i] <= upper {
        counter := counter + 1;
      }
      k := k + 1;
    }
    return Ok(counter);
  }

  /**
   * An independent reading of a hit for ascending data: some data event lies
   * after the window's start and within it, or every event is at or before
   * the start and the last one is exactly on it.
   */
  predicate Hit(data: seq<real>, t: real, half: real)
    requires data != []
  {
    (exists m :: 0 <= m < |data| && t - half < data[m] <= t + half) ||
    (data[|data| - 1] == t - half && forall m :: 0 <= m < |data| ==> data[m] <= t - half)
  }

  /** How many of the first `n` clock timestamps are hits. */
  function CountHits(clock: seq<real>, half: real, data: seq<real>, n: nat): (r: nat)
    requires n <= |clock| && data != []
    ensures r <= n
  {
    if n == 0 then 0 else CountHits(clock, half, data, n - 1) + (if Hit(data, clock[n - 1], half) then 1 else 0)
  }

  /**
   * For ascending timestamps on both lines and a non-negative window, the
   * sweep counts exactly the hits, and every data event it has skipped lies
   * at or before the last window's start.
   */
  lemma {:induction false} SweepCountsHits(clock: seq<real>, half: real, data: seq<real>, n: nat)
    requires n <= |clock| && data != [] && half >= 0.0
    requires Ascending(clock) && Ascending(data)
    ensures Sweep(clock, half, data, n).0 == CountHits(clock, half, data, n)
    ensures n > 0 ==> forall m :: 0 <= m < Sweep(clock, half, data, n).1 ==> data[m] <= clock[n - 1] - half
    decreases n
  {
    if n > 0 {
      SweepCountsHits(clock, half, data, n - 1);
      var prev := Sweep(clock, half, data, n - 1);
      var t := clock[n - 1];
      var j := Advance(data, prev.1, t - half);
      assert Sweep(clock, half, data, n) == (prev.0 + (if InWindow(data, j, t, half) then 1 else 0), j);
      AdvanceSkips(data, prev.1, t - half);
      forall m | 0 <= m < j
        ensures data[m] <= t - half
      {
        if m < prev.1 {
          assert clock[n - 2] <= t;
        }
      }
      HitAtAdvance(data, j, t, half);
    }
  }

  /** At the index the advance stops on, the window check is the hit. */
  lemma HitAtAdvance(data: seq<real>, j: nat, t: real, half: real)
    requires j < |data| && half >= 0.0 && Ascending(data)
    requires forall m :: 0 <= m < j ==> data[m] <= t - half
    requires j == |data| - 1 || data[j] > t - half
    ensures InWindow(data, j, t, half) <==> Hit(data, t, half)
  {
    if data[j] > t - half {
      if Hit(data, t, half) {
        var m :| 0 <= m < |data| && t - half < data[m] <= t + half;
        assert j <= m;
        assert data[j] <= data[m];
      }
    } else {
      assert forall m :: 0 <= m < |data| ==> data[m] <= t - half;
      if Hit(data, t, half) {
        assert !(exists m :: 0 <= m < |data| && t - half < data[m] <= t + half);
      }
    }
  }

  // ---------------------------------------------------------------------------
  // Clock phase

  /** The identified clock phase: "0" or "1", and the share of coincidences that supports it. */
  datatype Phase = Phase(cpha: string, fraction: real)

  /**
   * The choice of `__clock_phase` from the two counters: the larger one wins,
   * its fraction is one minus the other's share, and a tie decides nothing.
   */
  function PhaseOf(even: nat, odd: nat): (r: Option<Phase>)
    ensures r.None? <==> even == odd
    ensures r.Some? ==> (r.value.cpha == "0" <==> even > odd) && (r.value.cpha == "1" <==> odd > even)
    ensures r.Some? ==> 0.5 < r.value.fraction <= 1.0
  {
    var sum := even + odd;
    if even > odd then Some(Phase("0", 1.0 - odd as real / sum as real))
    else if even < odd then Some(Phase("1", 1.0 - even as real / sum as real))
    else None
  }

  /** The winning fraction is the winner's share of all coincidences. */
  lemma PhaseFractionIsShare(even: nat, odd: nat)
    requires even != odd
    ensures PhaseOf(even, odd).value.fraction == (if even > odd then even else odd) as real / (even + odd) as real
  {
    UartParameterIdentifier.SplitFraction(even as real, odd as real, (even + odd) as real);
  }

  /**
   * `__clock_phase`: the coincidences of the data events with the even and
   * with the odd clock events.
   */
  function ClockPhase(clockLine: AnalysedSignal, dataLine: AnalysedSignal): (r: Result<Option<Phase>>)
    ensures r.Err? ==> clockLine.eventProperties.firstReoccuringDuration.None?
  {
    var clock := clockLine.eventProperties.intervalArray;
    var symbol := clockLine.eventProperties.firstReoccuringDuration;
    var dataDurations := OverallDurations(dataLine.eventProperties.intervalArray, 0, 1);
    match CoincidingEvents(OverallDurations(clock, 0, 2), symbol, dataDurations)
    case Err(e) => Err(e)
    case Ok(even) =>
      match CoincidingEvents(OverallDurations(clock, 1, 2), symbol, dataDurations)
      case Err(e) => Err(e)
      case Ok(odd) => Ok(PhaseOf(even, odd))
  }

  // ---------------------------------------------------------------------------
  // Clock polarity

  /**
   * `__is_within_low_voltage` as written: the bounds are those of the UART
   * identifier with 0.9 and 1.1 swapped, so the lower bound exceeds the upper.
   */
  predicate WithinLowVoltageAsWritten(levels: seq<real>, v: real)
    requires levels != []
  {
    var low := levels[0];
    var high := levels[|levels| - 1];
    high - (high - low) * 0.9 < v < high - (high - low) * 1.1
  }

  /** With distinct lowest and highest levels, the low-voltage test as written never holds. */
  lemma LowVoltageNeverAsWritten(levels: seq<real>, v: real)
    requires levels != [] && levels[0] < levels[|levels| - 1]
    ensures !WithinLowVoltageAsWritten(levels, v)
  {
  }

  /** Whether the low-voltage test is the one written or the intended one. */
  datatype Rule = AsWritten | Intended

  predicate WithinLow(levels: seq<real>, v: real, rule: Rule)
    requires levels != []
  {
    if rule == AsWritten then WithinLowVoltageAsWritten(levels, v)
    else UartParameterIdentifier.WithinLowVoltage(levels, v)
  }

  /** The keys of the SPI parameter dictionary. */
  datatype SpiParameter = ClockPolarity | ClockPhaseKey | ClockPhaseFraction
  {
    function Name(): string
    {
      match this
      case ClockPolarity => "Clock polarity CPOL"
      case ClockPhaseKey => "Clockphase CPHA"
      case ClockPhaseFraction => "Clock phase fraction"
    }
  }

  type Params = map<SpiParameter, ParamValue>

  /**
   * `__clock_polarity`: CPOL "0" when the clock rests near its lowest level,
   * "1" when near its highest, and no entry otherwise.
   */
  function Polarity(clockLine: AnalysedSignal, rule: Rule): (r: Result<Params>)
    ensures r.Err? <==> clockLine.voltageProperties.mainVoltageLevels == [] || clockLine.eventProperties.voltageOfLongestDuration.None?
    ensures r.Ok? ==> r.value.Keys <= {ClockPolarity}
    ensures r.Ok? ==> var levels := clockLine.voltageProperties.mainVoltageLevels;
      var v := clockLine.eventProperties.voltageOfLongestDuration.value;
      (ClockPolarity in r.value <==> WithinLow(levels, v, rule) || UartParameterIdentifier.WithinHighVoltage(levels, v)) &&
      (ClockPolarity in r.value ==> (r.value[ClockPolarity] == Text("0") <==> WithinLow(levels, v, rule)))
  {
    var levels := clockLine.voltageProperties.mainVoltageLevels;
    if levels == [] then Err(IndexError)
    else
      match clockLine.eventProperties.voltageOfLongestDuration
      case None => Err(TypeError)
      case Some(v) =>
        if WithinLow(levels, v, rule) then Ok(map[ClockPolarity := Text("0")])
        else if UartParameterIdentifier.WithinHighVoltage(levels, v) then Ok(map[ClockPolarity := Text("1")])
        else Ok(map[])
  }

  /** As written, a clock resting low is never recognised: CPOL "0" is never reported. */
  lemma PolarityZeroNeverAsWritten(clockLine: AnalysedSignal)
    requires Polarity(clockLine, AsWritten).Ok?
    requires var levels := clockLine.voltageProperties.mainVoltageLevels; levels[0] < levels[|levels| - 1]
    ensures ClockPolarity in Polarity(clockLine, AsWritten).value ==> Polarity(clockLine, AsWritten).value[ClockPolarity] == Text("1")
  {
    var levels := clockLine.voltageProperties.mainVoltageLevels;
    LowVoltageNeverAsWritten(levels, clockLine.eventProperties.voltageOfLongestDuration.value);
  }

  /** A clock resting within 10 % of the swing around its lowest level is CPOL "0" with the intended test. */
  lemma PolarityZeroIntended(clockLine: AnalysedSignal)
    requires Polarity(clockLine, Intended).Ok?
    requires var levels := clockLine.voltageProperties.mainVoltageLevels;
      var v := clockLine.eventProperties.voltageOfLongestDuration.value;
      var w := (levels[|levels| - 1] - levels[0]) * 0.1;
      levels[0] < levels[|levels| - 1] && levels[0] - w < v < levels[0] + w
    ensures Polarity(clockLine, Intended).value == map[ClockPolarity := Text("0")]
  {
    var levels := clockLine.voltageProperties.mainVoltageLevels;
    UartParameterIdentifier.VoltageWindows(levels, clockLine.eventProperties.voltageOfLongestDuration.value);
  }

  // ---------------------------------------------------------------------------
  // parameters

  /**
   * `parameters`: empty unless the first two lines of the group exist; then
   * the polarity entries, updated with the phase entries. As written, an
   * undecided phase is `None`, and updating a dictionary with `None` fails.
   */
  function ParametersWith(signals: seq<Option<AnalysedSignal>>, rule: Rule): (r: Result<Params>)
    ensures |signals| < 2 || signals[0].None? || signals[1].None? ==> r == Ok(map[])
    ensures r.Ok? ==> r.value.Keys <= {ClockPolarity, ClockPhaseKey, ClockPhaseFraction}
  {
    if |signals| < 2 || signals[0].None? || signals[1].None? then Ok(map[])
    else
      match Polarity(signals[0].value, rule)
      case Err(e) => Err(e)
      case Ok(p) =>
        match ClockPhase(signals[0].value, signals[1].value)
        case Err(e) => Err(e)
        case Ok(None) => if rule == AsWritten then Err(TypeError) else Ok(p)
        case Ok(Some(phase)) => Ok(p[ClockPhaseKey := Text(phase.cpha)][ClockPhaseFraction := Number(phase.fraction)])
  }

  function ParametersAsWritten(signals: seq<Option<AnalysedSignal>>): (r: Result<Params>)
    ensures |signals| < 2 || signals[0].None? || signals[1].None? ==> r == Ok(map[])
    ensures r.Ok? ==> r.value.Keys <= {ClockPolarity, ClockPhaseKey, ClockPhaseFraction}
  {
    ParametersWith(signals, AsWritten)
  }

  function Parameters(signals: seq<Option<AnalysedSignal>>): (r: Result<Params>)
    ensures |signals| < 2 || signals[0].None? || signals[1].None? ==> r == Ok(map[])
    ensures r.Ok? ==> r.value.Keys <= {ClockPolarity, ClockPhaseKey, ClockPhaseFraction}
  {
    ParametersWith(signals, Intended)
  }

  /** As written, a group whose phase is undecided fails instead of reporting its polarity. */
  lemma UndecidedPhaseFailsAsWritten(signals: seq<Option<AnalysedSignal>>)
    requires |signals| >= 2 && signals[0].Some? && signals[1].Some?
    requires Polarity(signals[0].value, AsWritten).Ok?
    requires ClockPhase(signals[0].value, signals[1].value) == Ok(None)
    ensures ParametersAsWritten(signals) == Err(TypeError)
    ensures Parameters(signals) == Ok(Polarity(signals[0].value, Intended).value)
  {
  }

  /** A decided phase is reported with a fraction above one half, and the polarity entry is kept. */
  lemma DecidedPhaseReported(signals: seq<Option<AnalysedSignal>>, rule: Rule)
    requires |signals| >= 2 && signals[0].Some? && signals[1].Some?
    requires Polarity(signals[0].value, rule).Ok?
    requires ClockPhase(signals[0].value, signals[1].value).Ok? && ClockPhase(signals[0].value, signals[1].value).value.Some?
    ensures ParametersWith(signals, rule).Ok?
    ensures var p := ParametersWith(signals, rule).value;
      ClockPhaseKey in p && ClockPhaseFraction in p &&
      (p[ClockPhaseKey] == Text("0") || p[ClockPhaseKey] == Text("1")) &&
      0.5 < p[ClockPhaseFraction].number <= 1.0 &&
      (ClockPolarity in p <==> ClockPolarity in Polarity(signals[0].value, rule).value)
  {
  }
}
