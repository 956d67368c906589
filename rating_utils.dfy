/**
 * The rating helpers the known protocols combine into a protocol rating.
 * Each one looks at one property of an analysed signal and answers 1 (the
 * property fits), 0 (it partly fits or is undecided) or -1 (it does not fit).
 * Where the source would raise (an empty list of voltage levels, a missing
 * value compared with a number) the model answers an error instead.
 */
module RatingUtils {
  import opened Wrappers
  import opened SignalAnalysisResult

  /** The three answers a rating helper gives. */
  predicate IsRating(r: int)
  {
    r == -1 || r == 0 || r == 1
  }

  /** 1 when both conditions hold, 0 when exactly one does, -1 when neither does. */
  function BothOneNone(a: bool, b: bool): (r: int)
    ensures IsRating(r)
    ensures r == 1 <==> a && b
    ensures r == 0 <==> a != b
    ensures r == -1 <==> !a && !b
  {
    if a && b then 1 else if a || b then 0 else -1
  }

  function Levels(s: AnalysedSignal): seq<real>
  {
    s.voltageProperties.mainVoltageLevels
  }

  /** `has_num_voltage_levels`: exactly `numLevels` main voltage levels. */
  function HasNumVoltageLevels(s: AnalysedSignal, numLevels: int): (r: int)
    ensures IsRating(r) && r != 0
    ensures r == 1 <==> |Levels(s)| == numLevels
  {
    if |Levels(s)| == numLevels then 1 else -1
  }

  /** `has_minimum_num_voltage_levels`: the exact count rates 1, any other count above two rates 0. */
  function HasMinimumNumVoltageLevels(s: AnalysedSignal, numLevels: int): (r: int)
    ensures IsRating(r)
    ensures r == 1 <==> |Levels(s)| == numLevels
    ensures r == 0 <==> |Levels(s)| != numLevels && |Levels(s)| > 2
    ensures r == -1 <==> |Levels(s)| != numLevels && |Levels(s)| <= 2
  {
    if |Levels(s)| == numLevels then 1
    else if |Levels(s)| > 2 then 0
    else -1
  }

  /** The minimum-count rating is never below the exact-count rating. */
  lemma MinimumCountAtLeastExact(s: AnalysedSignal, numLevels: int)
    ensures HasMinimumNumVoltageLevels(s, numLevels) >= HasNumVoltageLevels(s, numLevels)
    ensures HasMinimumNumVoltageLevels(s, numLevels) == 1 <==> HasNumVoltageLevels(s, numLevels) == 1
  {
  }

  /**
   * `is_voltage_in_range`: the lowest main level is at least `minVoltage`
   * and the highest at most `maxVoltage`; no level at all raises an IndexError.
   */
  function IsVoltageInRange(s: AnalysedSignal, minVoltage: real, maxVoltage: real): (r: Result<int>)
    ensures r.Err? <==> Levels(s) == []
    ensures r.Err? ==> r.error == IndexError
    ensures r.Ok? ==> (r.value == 1 <==> Levels(s)[0] >= minVoltage && Levels(s)[|Levels(s)| - 1] <= maxVoltage)
    ensures r.Ok? ==> r.value == 0 || r.value == 1
  {
    var levels := Levels(s);
    if levels == [] then Err(IndexError)
    else if levels[0] >= minVoltage && levels[|levels| - 1] <= maxVoltage then Ok(1)
    else Ok(0)
  }

  /** A wider voltage range never rates a signal lower. */
  lemma VoltageRangeMonotone(s: AnalysedSignal, min1: real, max1: real, min2: real, max2: real)
    requires min2 <= min1 && max1 <= max2
    requires IsVoltageInRange(s, min1, max1) == Ok(1)
    ensures IsVoltageInRange(s, min2, max2) == Ok(1)
  {
  }

  /**
   * `is_transmission_speed_faster_than`: -1 without a double event duration,
   * else 1 exactly when it is at least `minSpeed`.
   */
  function IsTransmissionSpeedFasterThan(s: AnalysedSignal, minSpeed: real): (r: int)
    ensures IsRating(r)
    ensures r == -1 <==> s.eventProperties.doubleEventDuration.None?
    ensures r == 1 <==> s.eventProperties.doubleEventDuration.Some? && s.eventProperties.doubleEventDuration.value >= minSpeed
  {
    match s.eventProperties.doubleEventDuration
    case None => -1
    case Some(d) => if d >= minSpeed then 1 else 0
  }

  /** Lowering the speed bound never lowers the rating. */
  lemma SpeedBoundMonotone(s: AnalysedSignal, lower: real, higher: real)
    requires lower <= higher
    ensures IsTransmissionSpeedFasterThan(s, lower) >= IsTransmissionSpeedFasterThan(s, higher)
  {
  }

  function LowestWidth(s: AnalysedSignal): real
  {
    s.voltageProperties.relativeWidthOfLowestVoltageLevel
  }

  function UpperWidth(s: AnalysedSignal): real
  {
    s.voltageProperties.relativeWidthOfUpperVoltageLevel
  }

  /** `check_voltage_widths`: the lowest level at least `lowVoltMin` wide, the upper one narrower than `highVoltMax`. */
  function CheckVoltageWidths(s: AnalysedSignal, lowVoltMin: real, highVoltMax: real): (r: int)
    ensures IsRating(r)
    ensures r == 1 <==> LowestWidth(s) >= lowVoltMin && UpperWidth(s) < highVoltMax
    ensures r == 0 <==> (LowestWidth(s) >= lowVoltMin) != (UpperWidth(s) < highVoltMax)
    ensures r == -1 <==> LowestWidth(s) < lowVoltMin && UpperWidth(s) >= highVoltMax
  {
    if LowestWidth(s) >= lowVoltMin && UpperWidth(s) < highVoltMax then 1
    else if LowestWidth(s) >= lowVoltMin || UpperWidth(s) < highVoltMax then 0
    else -1
  }

  /** `are_voltage_widths_larger_than`: both levels at least as wide as their bounds. */
  function AreVoltageWidthsLargerThan(s: AnalysedSignal, lowVoltMin: real, highVoltMin: real): (r: int)
    ensures IsRating(r)
    ensures r == 1 <==> LowestWidth(s) >= lowVoltMin && UpperWidth(s) >= highVoltMin
    ensures r == 0 <==> (LowestWidth(s) >= lowVoltMin) != (UpperWidth(s) >= highVoltMin)
    ensures r == -1 <==> LowestWidth(s) < lowVoltMin && UpperWidth(s) < highVoltMin
  {
    if LowestWidth(s) >= lowVoltMin && UpperWidth(s) >= highVoltMin then 1
    else if LowestWidth(s) >= lowVoltMin || UpperWidth(s) >= highVoltMin then 0
    else -1
  }

  /** `are_voltage_widths_lower_than`: both levels at most as wide as their bounds. */
  function AreVoltageWidthsLowerThan(s: AnalysedSignal, lowVoltMin: real, highVoltMin: real): (r: int)
    ensures IsRating(r)
    ensures r == 1 <==> LowestWidth(s) <= lowVoltMin && UpperWidth(s) <= highVoltMin
    ensures r == 0 <==> (LowestWidth(s) <= lowVoltMin) != (UpperWidth(s) <= highVoltMin)
    ensures r == -1 <==> LowestWidth(s) > lowVoltMin && UpperWidth(s) > highVoltMin
  {
    if LowestWidth(s) <= lowVoltMin && UpperWidth(s) <= highVoltMin then 1
    else if LowestWidth(s) <= lowVoltMin || UpperWidth(s) <= highVoltMin then 0
    else -1
  }

  /** The three width checks are the both/one/none rating of their two conditions. */
  lemma WidthChecksAreBothOneNone(s: AnalysedSignal, a: real, b: real)
    ensures CheckVoltageWidths(s, a, b) == BothOneNone(LowestWidth(s) >= a, UpperWidth(s) < b)
    ensures AreVoltageWidthsLargerThan(s, a, b) == BothOneNone(LowestWidth(s) >= a, UpperWidth(s) >= b)
    ensures AreVoltageWidthsLowerThan(s, a, b) == BothOneNone(LowestWidth(s) <= a, UpperWidth(s) <= b)
  {
  }

  /** With equal bounds, "larger than" and "lower than" both rate 1 only when the widths equal the bounds. */
  lemma WidthsLargerAndLower(s: AnalysedSignal, a: real, b: real)
    ensures AreVoltageWidthsLargerThan(s, a, b) == 1 && AreVoltageWidthsLowerThan(s, a, b) == 1
      <==> LowestWidth(s) == a && UpperWidth(s) == b
  {
  }

  /** The default percentages of `is_longest_voltage_level_in_range`. */
  const DefaultMinPercentage: real := 0.9
  const DefaultMaxPercentage: real := 1.1

  /** `lo * top <= v <= hi * top`, the test `is_longest_voltage_level_in_range` makes twice. */
  predicate WithinShare(v: real, lo: real, hi: real, top: real)
  {
    lo * top <= v <= hi * top
  }

  /**
   * `is_longest_voltage_level_in_range`: the voltage held longest lies within
   * the given shares of the highest main level (1), or else within the
   * tolerated shares when both are given (0), or neither (-1).
   */
  function IsLongestVoltageLevelInRange(s: AnalysedSignal, minPercentage: real, maxPercentage: real,
                                        toleratedMin: Option<real>, toleratedMax: Option<real>): (r: Result<int>)
    ensures r.Err? <==> Levels(s) == [] || s.eventProperties.voltageOfLongestDuration.None?
    ensures r.Err? ==> r.error == (if Levels(s) == [] then IndexError else TypeError)
    ensures r.Ok? ==> IsRating(r.value)
    ensures r.Ok? ==> var v := s.eventProperties.voltageOfLongestDuration.value;
      var top := Levels(s)[|Levels(s)| - 1];
      (r.value == 1 <==> WithinShare(v, minPercentage, maxPercentage, top)) &&
      (r.value == 0 <==> !WithinShare(v, minPercentage, maxPercentage, top) && toleratedMin.Some? && toleratedMax.Some? &&
                         WithinShare(v, toleratedMin.value, toleratedMax.value, top))
  {
    var levels := Levels(s);
    if levels == [] then Err(IndexError)
    else
      var top := levels[|levels| - 1];
      match s.eventProperties.voltageOfLongestDuration
      case None => Err(TypeError)
      case Some(v) =>
        if WithinShare(v, minPercentage, maxPercentage, top) then Ok(1)
        else if toleratedMin.Some? && toleratedMax.Some? && WithinShare(v, toleratedMin.value, toleratedMax.value, top) then Ok(0)
        else Ok(-1)
  }

  /** Without both tolerated shares the rating is never 0, and giving them never lowers it. */
  lemma ToleranceOnlyRaises(s: AnalysedSignal, minP: real, maxP: real, tMin: real, tMax: real)
    requires IsLongestVoltageLevelInRange(s, minP, maxP, None, None).Ok?
    ensures IsLongestVoltageLevelInRange(s, minP, maxP, None, None).value != 0
    ensures IsLongestVoltageLevelInRange(s, minP, maxP, Some(tMin), Some(tMax)).Ok?
    ensures IsLongestVoltageLevelInRange(s, minP, maxP, Some(tMin), Some(tMax)).value >=
            IsLongestVoltageLevelInRange(s, minP, maxP, None, None).value
  {
  }

  /** The default bounds of `is_block_duration_in_range`, in double event durations. */
  const DefaultMinDuration: real := 9.0
  const DefaultMaxDuration: real := 9.5

  /**
   * `is_block_duration_in_range`: 0 without transmission blocks; otherwise
   * 1 when the block lasts strictly between `minDuration` and `maxDuration`
   * double event durations, -1 when not, and a TypeError when there is no
   * double event duration to multiply.
   */
  function IsBlockDurationInRange(s: AnalysedSignal, minDuration: real, maxDuration: real): (r: Result<int>)
    ensures r.Err? <==> s.eventProperties.transmissionBlockDuration.Some? && s.eventProperties.doubleEventDuration.None?
    ensures r.Err? ==> r.error == TypeError
    ensures r.Ok? ==> IsRating(r.value)
    ensures r == Ok(0) <==> s.eventProperties.transmissionBlockDuration.None?
    ensures r == Ok(1) <==> (s.eventProperties.transmissionBlockDuration.Some? && s.eventProperties.doubleEventDuration.Some? &&
      var d := s.eventProperties.doubleEventDuration.value;
      d * minDuration < s.eventProperties.transmissionBlockDuration.value < d * maxDuration)
  {
    match s.eventProperties.transmissionBlockDuration
    case None => Ok(0)
    case Some(block) =>
      match s.eventProperties.doubleEventDuration
      case None => Err(TypeError)
      case Some(d) => if d * minDuration < block < d * maxDuration then Ok(1) else Ok(-1)
  }

  /** `has_num_single_event_peaks`: the number of reoccurring durations is `numPeaks`. */
  function HasNumSingleEventPeaks(s: AnalysedSignal, numPeaks: int): (r: int)
    ensures IsRating(r) && r != 0
    ensures r == 1 <==> s.eventProperties.amountReoccuringDurations == Some(numPeaks)
  {
    if s.eventProperties.amountReoccuringDurations == Some(numPeaks) then 1 else -1
  }

  /** `has_transmission_blocks` */
  function HasTransmissionBlocks(s: AnalysedSignal): (r: int)
    ensures r == 0 || r == 1
    ensures r == 1 <==> s.eventProperties.transmissionBlockDuration.Some?
  {
    if s.eventProperties.transmissionBlockDuration.Some? then 1 else 0
  }

  /** `has_no_transmission_blocks` */
  function HasNoTransmissionBlocks(s: AnalysedSignal): (r: int)
    ensures r == 0 || r == 1
    ensures r == 1 <==> s.eventProperties.transmissionBlockDuration.None?
  {
    if s.eventProperties.transmissionBlockDuration.None? then 1 else 0
  }

  /** Exactly one of the two block ratings is 1. */
  lemma BlockRatingsComplement(s: AnalysedSignal)
    ensures HasTransmissionBlocks(s) + HasNoTransmissionBlocks(s) == 1
  {
  }

  /** `are_state_durations_int_multiple` */
  function AreStateDurationsIntMultiple(s: AnalysedSignal): (r: int)
    ensures r == 0 || r == 1
    ensures r == 1 <==> s.eventProperties.areStateDurationsIntMultiple
  {
    if s.eventProperties.areStateDurationsIntMultiple then 1 else 0
  }

  /** `are_state_durations_not_int_multiple` */
  function AreStateDurationsNotIntMultiple(s: AnalysedSignal): (r: int)
    ensures r == 0 || r == 1
    ensures r == 1 <==> !s.eventProperties.areStateDurationsIntMultiple
  {
    if !s.eventProperties.areStateDurationsIntMultiple then 1 else 0
  }

  /** Exactly one of the two multiple ratings is 1. */
  lemma MultipleRatingsComplement(s: AnalysedSignal)
    ensures AreStateDurationsIntMultiple(s) + AreStateDurationsNotIntMultiple(s) == 1
  {
  }

  /**
   * `has_num_event_pairs`: 1 for exactly `numPairs` event pairs, 0 for the
   * tolerated number when one is given, else -1.
   */
  function HasNumEventPairs(s: AnalysedSignal, numPairs: int, numToleratedPairs: Option<int>): (r: int)
    ensures IsRating(r)
    ensures r == 1 <==> s.eventProperties.amountOfEventPairs == Some(numPairs)
    ensures r == 0 <==> (s.eventProperties.amountOfEventPairs != Some(numPairs) &&
      numToleratedPairs.Some? && s.eventProperties.amountOfEventPairs == numToleratedPairs)
  {
    var amount := s.eventProperties.amountOfEventPairs;
    if amount == Some(numPairs) then 1
    else if numToleratedPairs.Some? && amount == numToleratedPairs then 0
    else -1
  }

  /** Tolerating the exact count itself adds nothing: the rating is then never 0. */
  lemma ToleratedExactCount(s: AnalysedSignal, n: int)
    ensures HasNumEventPairs(s, n, Some(n)) == HasNumEventPairs(s, n, None)
    ensures HasNumEventPairs(s, n, None) != 0
  {
  }

  /** `are_event_durations_symmetric` */
  function AreEventDurationsSymmetric(s: AnalysedSignal): (r: int)
    ensures r == 0 || r == 1
    ensures r == 1 <==> s.eventProperties.eventDurationSymmetry
  {
    if s.eventProperties.eventDurationSymmetry then 1 else 0
  }

  /**
   * `are_repeating_patterns_in_range`: -1 without a repeating pattern, 1 when
   * its length in symbols lies in the closed range, else 0.
   */
  function AreRepeatingPatternsInRange(s: AnalysedSignal, minDuration: int, maxDuration: int): (r: int)
    ensures IsRating(r)
    ensures r == -1 <==> s.patternProperties.repeatingPatternDurationSymbols.None?
    ensures r == 1 <==> (s.patternProperties.repeatingPatternDurationSymbols.Some? &&
      minDuration as real <= s.patternProperties.repeatingPatternDurationSymbols.value <= maxDuration as real)
  {
    match s.patternProperties.repeatingPatternDurationSymbols
    case None => -1
    case Some(p) => if minDuration as real <= p <= maxDuration as real then 1 else 0
  }

  /** A wider pattern range never rates a signal lower. */
  lemma PatternRangeMonotone(s: AnalysedSignal, min1: int, max1: int, min2: int, max2: int)
    requires min2 <= min1 && max1 <= max2
    ensures AreRepeatingPatternsInRange(s, min2, max2) >= AreRepeatingPatternsInRange(s, min1, max1)
  {
  }
}
