/**
 * The shared result types of the signal analysis: a measured voltage signal
 * and the three analysis results attached to it.
 */
module SignalAnalysisResult {
  import opened Wrappers

  /** The kinds a measured voltage signal is classified into. */
  datatype SignalType = PERIODIC | BURST | SPORADIC | GROUND | CONST_VOLTAGE | UNKNOWN

  /**
   * The voltage samples of one input channel, `timeResolution` nanoseconds
   * apart. The importer stores a whole number of nanoseconds, and the group
   * resolution is their greatest common divisor, so the resolution is an
   * integer here; the start time is a timestamp, absent when the caller gives none.
   */
  datatype MeasurementSignal = MeasurementSignal(
    index: int,
    sourceName: string,
    voltageLevels: seq<real>,
    timeResolution: int,
    startTime: Option<int>)
  {
    /** The number of samples times the resolution. */
    function MeasurementDuration(): int
    {
      |voltageLevels| * timeResolution
    }
  }

  /** The voltage level analysis result; the main levels are in ascending order. */
  datatype VoltageLevelProperties = VoltageLevelProperties(
    numberOfVoltageLevels: int,
    relativeWidthOfUpperVoltageLevel: real,
    relativeWidthOfLowestVoltageLevel: real,
    mainVoltageLevels: seq<real>)

  /**
   * The event interval analysis result. The fields that are `None` until the
   * analysis fills them are options; durations are in nanoseconds.
   */
  datatype EventIntervalProperties = EventIntervalProperties(
    intervalArray: seq<real>,
    signedIntervalArray: seq<real>,
    transmissionActivityList: seq<Activity>,
    amountReoccuringDurations: Option<int>,
    amountOfEventPairs: Option<int>,
    eventDurationSymmetry: bool,
    firstReoccuringDuration: Option<real>,
    doubleEventDuration: Option<real>,
    transmissionBlockDuration: Option<real>,
    voltageOfLongestDuration: Option<real>,
    areStateDurationsIntMultiple: bool,
    signalType: SignalType)

  /**
   * A time the event interval analysis adds up with the builtin `sum` over
   * its numpy float64 interval magnitudes: the sum of an empty slice is the
   * int `0`, any other sum is a float64.
   */
  datatype Time = EmptySum | Summed(value: real)

  /** The value of a time: `0` for an empty sum. */
  function TimeValue(t: Time): real
  {
    if t.EmptySum? then 0.0 else t.value
  }

  /** One stretch of transmission activity, from `start` to `end`. */
  datatype Activity = Activity(start: Time, end: Time)

  /**
   * A float64 result as far as the model follows it: a finite value, or one
   * of the values inf, -inf and nan that numpy gives, with a warning, for a
   * division by zero.
   */
  datatype Float64 = Finite(value: real) | NonFinite

  /** float64 multiplication: a non-finite factor gives a non-finite product, since inf times 0 is nan. */
  function Times(a: Float64, b: Float64): (r: Float64)
    ensures r.Finite? <==> a.Finite? && b.Finite?
    ensures r.Finite? ==> r.value == a.value * b.value
  {
    if a.Finite? && b.Finite? then Finite(a.value * b.value) else NonFinite
  }

  /** float64 division: a zero divisor gives inf or nan instead of raising. */
  function Quotient(x: real, y: real): (r: Float64)
    ensures r.Finite? <==> y != 0.0
    ensures r.Finite? ==> r.value * y == x
  {
    if y == 0.0 then NonFinite else Finite(x / y)
  }

  /** The pattern analysis result. */
  datatype PatternProperties = PatternProperties(repeatingPatternDurationSymbols: Option<real>)

  /** An analysed voltage signal. */
  datatype AnalysedSignal = AnalysedSignal(
    signal: MeasurementSignal,
    voltageProperties: VoltageLevelProperties,
    eventProperties: EventIntervalProperties,
    patternProperties: PatternProperties)

  /** A value in a protocol's dictionary of identified encoding parameters. */
  datatype ParamValue = Text(text: string) | Number(number: real) | Flag(flag: bool) | NoValue
}
