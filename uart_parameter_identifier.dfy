/**
 * The UART parameter identifier: from the data line of a signal group it
 * estimates the baud rate, decodes the signed event intervals into a bit
 * stream, looks for the stop-bit pattern at a fixed frame length, checks the
 * frames for a parity bit and derives the number of data bits per frame.
 */
module UartParameterIdentifier {
  import opened Wrappers
  import opened SignalAnalysisResult
  import opened PythonNumeric

  // ---------------------------------------------------------------------------
  // Baud rate

  /** The baud rates the identifier knows, in the order it tries them. */
  const KnownBauds: seq<int> := [110, 300, 600, 1200, 2400, 4800, 9600, 14400, 19200,
                                 38400, 57600, 115200, 128000, 256000, 500000, 1000000]

  /** `rate` lies strictly within ten percent of `baud`. */
  predicate NearBaud(baud: int, rate: int)
  {
    baud as real * 0.9 < rate as real < baud as real * 1.1
  }

  /** A baud rate estimate: the rate reported and, when it is a known one, how close the measurement came. */
  datatype BaudEstimate = BaudEstimate(baud: int, rating: Option<real>)

  function RealAbs(x: real): real
  {
    if x < 0.0 then -x else x
  }

  /** The position of the first baud rate in `bauds` near `rate`, or `|bauds|`. */
  function FirstNear(bauds: seq<int>, rate: int): (r: nat)
    ensures r <= |bauds|
    ensures r < |bauds| ==> NearBaud(bauds[r], rate)
    ensures forall j :: 0 <= j < r ==> !NearBaud(bauds[j], rate)
  {
    if bauds == [] then 0
    else if NearBaud(bauds[0], rate) then 0
    else 1 + FirstNear(bauds[1..], rate)
  }

  /**
   * `__round_baud_rate`: the first known baud rate within ten percent of the
   * measurement, with the ratio between them, or the measurement itself
   * without a rating.
   */
  function RoundBaudRate(rate: int): (r: BaudEstimate)
    ensures r.rating.Some? <==> exists i :: 0 <= i < |KnownBauds| && NearBaud(KnownBauds[i], rate)
    ensures r.rating.None? ==> r.baud == rate
    ensures r.rating.Some? ==> var i := FirstNear(KnownBauds, rate);
      r.baud == KnownBauds[i] && NearBaud(r.baud, rate) &&
      (forall j :: 0 <= j < i ==> !NearBaud(KnownBauds[j], rate)) &&
      r.rating.value == RealAbs(rate as real / r.baud as real)
  {
    var i := FirstNear(KnownBauds, rate);
    if i < |KnownBauds| then BaudEstimate(KnownBauds[i], Some(RealAbs(rate as real / KnownBauds[i] as real)))
    else BaudEstimate(rate, None)
  }

  /** A known rating lies strictly between 0.9 and 1.1. */
  lemma BaudRatingBounds(rate: int)
    requires RoundBaudRate(rate).rating.Some?
    ensures 0.9 < RoundBaudRate(rate).rating.value < 1.1
  {
    var i := FirstNear(KnownBauds, rate);
    KnownBaudsSpread();
    assert KnownBauds[i] > 0;
    RatioBounds(rate as real, KnownBauds[i] as real);
  }

  lemma RatioBounds(rate: real, b: real)
    requires b > 0.0 && b * 0.9 < rate < b * 1.1
    ensures 0.9 < rate / b < 1.1
  {
    var q := rate / b;
    assert q * b == rate;
    assert (q - 0.9) * b == q * b - 0.9 * b;
    assert (1.1 - q) * b == 1.1 * b - q * b;
    PositiveFactor(q - 0.9, b);
    PositiveFactor(1.1 - q, b);
  }

  lemma PositiveFactor(x: real, b: real)
    requires b > 0.0 && x * b > 0.0
    ensures x > 0.0
  {
  }

  /** Each baud rate is positive and at least ten percent above the one before it. */
  predicate Spread(bauds: seq<int>)
  {
    (forall j :: 0 <= j < |bauds| ==> bauds[j] > 0) &&
    (forall j :: 0 <= j < |bauds| - 1 ==> bauds[j] as real * 1.1 <= bauds[j + 1] as real)
  }

  lemma KnownBaudsSpread()
    ensures Spread(KnownBauds)
  {
  }

  lemma {:induction false} SpreadApart(bauds: seq<int>, j: nat, k: nat)
    requires Spread(bauds) && j < k < |bauds|
    ensures bauds[j] as real * 1.1 <= bauds[k] as real
  {
    if j < k - 1 {
      SpreadApart(bauds, j, k - 1);
    }
  }

  /** In a spread list of rates, a measurement of at least 1.1 times the `n`-th rate is near none of the first `n + 1`. */
  lemma NotNearBelow(bauds: seq<int>, n: nat, rate: int)
    requires Spread(bauds) && n < |bauds| && bauds[n] as real * 1.1 <= rate as real
    ensures forall j :: 0 <= j <= n ==> !NearBaud(bauds[j], rate)
  {
    forall j | 0 <= j < n
      ensures bauds[j] as real <= bauds[n] as real
    {
      SpreadApart(bauds, j, n);
    }
  }

  /** Every known baud rate measured exactly is reported as itself with the rating 1. */
  lemma KnownBaudsAreFixed(i: nat)
    requires i < |KnownBauds|
    ensures RoundBaudRate(KnownBauds[i]) == BaudEstimate(KnownBauds[i], Some(1.0))
  {
    KnownBaudsSpread();
    var b := KnownBauds[i];
    if i > 0 {
      SpreadApart(KnownBauds, i - 1, i);
      NotNearBelow(KnownBauds, i - 1, b);
    }
    FirstNearIs(KnownBauds, b, i);
    SelfRatio(b as real);
  }

  lemma SelfRatio(x: real)
    requires x > 0.0
    ensures RealAbs(x / x) == 1.0
  {
  }

  lemma {:induction false} FirstNearIs(bauds: seq<int>, rate: int, i: nat)
    requires i < |bauds| && NearBaud(bauds[i], rate)
    requires forall j :: 0 <= j < i ==> !NearBaud(bauds[j], rate)
    ensures FirstNear(bauds, rate) == i
  {
    if i > 0 {
      assert !NearBaud(bauds[0], rate);
      FirstNearIs(bauds[1..], rate, i - 1);
    }
  }

  /**
   * The tolerance windows of 115200 and 128000 overlap: a measurement of
   * 120000 is within ten percent of both and is reported as 115200.
   */
  lemma OverlappingWindows()
    ensures NearBaud(115200, 120000) && NearBaud(128000, 120000)
    ensures RoundBaudRate(120000).baud == 115200
  {
    KnownBaudsSpread();
    assert KnownBauds[10] == 57600 && KnownBauds[11] == 115200;
    NotNearBelow(KnownBauds, 10, 120000);
    FirstNearIs(KnownBauds, 120000, 11);
  }

  /**
   * `__get_baud_rate`: the reciprocal of the reoccurring symbol duration in
   * nanoseconds, truncated to an integer, then rounded to a known rate.
   */
  function GetBaudRate(s: AnalysedSignal): (r: Result<BaudEstimate>)
    ensures s.eventProperties.firstReoccuringDuration.None? ==> r == Err(TypeError)
    ensures s.eventProperties.firstReoccuringDuration == Some(0.0) ==> r == Err(ZeroDivisionError)
    ensures r.Ok? ==> var d := s.eventProperties.firstReoccuringDuration.value;
      d != 0.0 && r.value == RoundBaudRate(Trunc(1000000000.0 / d))
  {
    match s.eventProperties.firstReoccuringDuration
    case None => Err(TypeError)
    case Some(d) => if d == 0.0 then Err(ZeroDivisionError) else Ok(RoundBaudRate(Trunc(1000000000.0 / d)))
  }

  // ---------------------------------------------------------------------------
  // Decoding the signed intervals into bits

  /** `__get_logic_level`: a positive interval is a low bit, any other a high bit. */
  function LogicLevel(interval: real): (r: int)
    ensures r == 0 <==> interval > 0.0
    ensures r == 1 <==> interval <= 0.0
  {
    if interval > 0.0 then 0 else 1
  }

  /** `__amount_of_symbols`: how many symbol durations an interval lasts, rounded. */
  function AmountOfSymbols(interval: real, symbolDuration: real): nat
    requires symbolDuration != 0.0
  {
    AbsInt(RoundHalfEven(interval / symbolDuration))
  }

  /** The total number of symbols in the first `n` intervals. */
  function SymbolCount(intervals: seq<real>, n: nat, symbolDuration: real): nat
    requires n <= |intervals| && symbolDuration != 0.0
  {
    if n == 0 then 0 else SymbolCount(intervals, n - 1, symbolDuration) + AmountOfSymbols(intervals[n - 1], symbolDuration)
  }

  /** The bits of one interval: its logic level, once per symbol. */
  function Block(interval: real, symbolDuration: real): (r: seq<int>)
    requires symbolDuration != 0.0
    ensures |r| == AmountOfSymbols(interval, symbolDuration)
    ensures forall k :: 0 <= k < |r| ==> r[k] == LogicLevel(interval)
  {
    seq(AmountOfSymbols(interval, symbolDuration), _ => LogicLevel(interval))
  }

  /** The bits of the first `n` intervals, block after block. */
  function DecodeRaw(intervals: seq<real>, n: nat, symbolDuration: real): seq<int>
    requires n <= |intervals| && symbolDuration != 0.0
  {
    if n == 0 then [] else DecodeRaw(intervals, n - 1, symbolDuration) + Block(intervals[n - 1], symbolDuration)
  }

  /** `(binary - 1) * (-1)` on every bit. */
  function Invert(bits: seq<int>): (r: seq<int>)
    ensures |r| == |bits|
  {
    seq(|bits|, i requires 0 <= i < |bits| => (bits[i] - 1) * (-1))
  }

  predicate IsBits(bits: seq<int>)
  {
    forall i :: 0 <= i < |bits| ==> bits[i] == 0 || bits[i] == 1
  }

  /**
   * `__decode_uart_to_binary`: the bits of all signed intervals, inverted on
   * an inverted line. The division by the symbol duration only happens when
   * there is an interval, and then fails on a missing or zero duration.
   */
  function Decode(intervals: seq<real>, symbolDuration: Option<real>, inverted: bool): (r: Result<seq<int>>)
    ensures intervals == [] ==> r == Ok([])
    ensures r.Err? <==> intervals != [] && (symbolDuration.None? || symbolDuration.value == 0.0)
  {
    if intervals == [] then Ok([])
    else if symbolDuration.None? then Err(TypeError)
    else if symbolDuration.value == 0.0 then Err(ZeroDivisionError)
    else
      var raw := DecodeRaw(intervals, |intervals|, symbolDuration.value);
      Ok(if inverted then Invert(raw) else raw)
  }

  /** The decoding loop: one block of equal bits per interval, then the optional inversion. */
  method DecodeUartToBinary(intervals: seq<real>, symbolDuration: Option<real>, inverted: bool) returns (r: Result<seq<int>>)
    ensures r == Decode(intervals, symbolDuration, inverted)
  {
    if intervals == [] {
      return Ok([]);
    }
    if symbolDuration.None? {
      return Err(TypeError);
    }
    var d := symbolDuration.value;
    if d == 0.0 {
      return Err(ZeroDivisionError);
    }
    var bits: seq<int> := [];
    var i := 0;
    while i < |intervals|
      invariant 0 <= i <= |intervals|
      invariant bits == DecodeRaw(intervals, i, d)
    {
      var amount := AmountOfSymbols(intervals[i], d);
      var symbol := LogicLevel(intervals[i]);
      bits := bits + seq(amount, _ => symbol);
      i := i + 1;
    }
    if inverted {
      bits := seq(|bits|, k requires 0 <= k < |bits| => (bits[k] - 1) * (-1));
    }
    return Ok(bits);
  }

  /** The decoded stream has one bit per symbol, and every bit is 0 or 1. */
  lemma {:induction false} DecodedLength(intervals: seq<real>, n: nat, symbolDuration: real)
    requires n <= |intervals| && symbolDuration != 0.0
    ensures |DecodeRaw(intervals, n, symbolDuration)| == SymbolCount(intervals, n, symbolDuration)
    ensures IsBits(DecodeRaw(intervals, n, symbolDuration))
  {
    if n > 0 {
      DecodedLength(intervals, n - 1, symbolDuration);
      var prev := DecodeRaw(intervals, n - 1, symbolDuration);
      var b := Block(intervals[n - 1], symbolDuration);
      assert DecodeRaw(intervals, n, symbolDuration) == prev + b;
      forall i | 0 <= i < |prev + b|
        ensures (prev + b)[i] == 0 || (prev + b)[i] == 1
      {
        if i >= |prev| {
          assert (prev + b)[i] == b[i - |prev|];
        }
      }
    }
  }

  /** Inversion swaps 0 and 1, keeps the stream a bit stream, and undoes itself. */
  lemma InvertBits(bits: seq<int>)
    requires IsBits(bits)
    ensures forall i :: 0 <= i < |bits| ==> Invert(bits)[i] == 1 - bits[i]
    ensures IsBits(Invert(bits))
    ensures Invert(Invert(bits)) == bits
  {
    var inv := Invert(bits);
    assert forall i :: 0 <= i < |bits| ==> inv[i] == 1 - bits[i];
    assert forall i :: 0 <= i < |bits| ==> Invert(inv)[i] == bits[i];
  }

  /** A successful decoding yields one bit per symbol, each 0 or 1. */
  lemma DecodeFacts(intervals: seq<real>, symbolDuration: Option<real>, inverted: bool)
    requires Decode(intervals, symbolDuration, inverted).Ok?
    ensures IsBits(Decode(intervals, symbolDuration, inverted).value)
    ensures intervals != [] ==>
      |Decode(intervals, symbolDuration, inverted).value| == SymbolCount(intervals, |intervals|, symbolDuration.value)
  {
    if intervals != [] {
      DecodedLength(intervals, |intervals|, symbolDuration.value);
      if inverted {
        InvertBits(DecodeRaw(intervals, |intervals|, symbolDuration.value));
      }
    }
  }

  // ---------------------------------------------------------------------------
  // The transmission frame offset

  /** The list of at most 500 bits the frame searches look at. */
  function Limited(bits: seq<int>): (r: seq<int>)
    ensures |r| == if |bits| >= 500 then 500 else |bits|
    ensures r == bits[..|r|]
  {
    if |bits| >= 500 then bits[..500] else bits
  }

  /** `pattern == bits[start:start + len(pattern)]`, with Python's clamped slice. */
  predicate MatchesAt(bits: seq<int>, start: int, pattern: seq<int>)
  {
    PySlice(bits, start, |pattern| + start) == pattern
  }

  /** A matching window lies inside the bits and equals the pattern element by element. */
  lemma MatchesAtMeans(bits: seq<int>, start: nat, pattern: seq<int>)
    requires pattern != []
    ensures MatchesAt(bits, start, pattern) <==>
      start + |pattern| <= |bits| && forall k :: 0 <= k < |pattern| ==> bits[start + k] == pattern[k]
  {
    if start + |pattern| <= |bits| {
      assert PySlice(bits, start, |pattern| + start) == bits[start..start + |pattern|];
    } else {
      assert |PySlice(bits, start, |pattern| + start)| < |pattern|;
    }
  }

  /** A pattern longer than the bits matches no window: a slice is never longer than the bits. */
  lemma LongPatternNeverMatches(bits: seq<int>, start: int, pattern: seq<int>)
    requires |pattern| > |bits|
    ensures !MatchesAt(bits, start, pattern)
  {
    assert |PySlice(bits, start, |pattern| + start)| <= |bits|;
  }

  /** A negative search limit means a pattern longer than the bits. */
  lemma NegativeLimitLongPattern(bits: seq<int>, pattern: seq<int>)
    requires SearchLimit(bits, pattern) < 0
    ensures |pattern| > |bits|
  {
  }

  /** `int(0.5 * (len(bits) - len(pattern) + 1))`: how far from an offset the windows may start. */
  function SearchLimit(bits: seq<int>, pattern: seq<int>): int
  {
    Trunc(0.5 * (|bits| - |pattern| + 1) as real)
  }

  /** How many of the first `k` windows `offset`, `offset + block`, ... match the pattern. */
  function CountMatches(bits: seq<int>, offset: int, block: int, pattern: seq<int>, k: nat): (r: nat)
    ensures r <= k
  {
    if k == 0 then 0
    else CountMatches(bits, offset, block, pattern, k - 1) + (if MatchesAt(bits, offset + (k - 1) * block, pattern) then 1 else 0)
  }

  /** The share of windows from `offset` on that match, over the `steps` windows of the search. */
  function OffsetRating(bits: seq<int>, offset: int, block: int, pattern: seq<int>, steps: nat): real
    requires steps > 0
  {
    CountMatches(bits, offset, block, pattern, steps) as real / steps as real
  }

  /** The first offset from `offset` on, below `last`, whose rating exceeds 0.9. */
  function FirstGoodOffset(bits: seq<int>, block: int, pattern: seq<int>, steps: nat, offset: nat, last: nat): (r: Option<nat>)
    requires steps > 0
    decreases last - offset
    ensures r.Some? ==> offset <= r.value < last && OffsetRating(bits, r.value, block, pattern, steps) > 0.9
    ensures r.Some? ==> forall o :: offset <= o < r.value ==> OffsetRating(bits, o, block, pattern, steps) <= 0.9
    ensures r.None? ==> forall o :: offset <= o < last ==> OffsetRating(bits, o, block, pattern, steps) <= 0.9
  {
    if offset >= last then None
    else if OffsetRating(bits, offset, block, pattern, steps) > 0.9 then Some(offset)
    else FirstGoodOffset(bits, block, pattern, steps, offset + 1, last)
  }

  /** The outcome of a frame offset search: the position after the pattern, and its rating. */
  datatype OffsetResult = OffsetResult(offset: Option<int>, rating: real)

  /**
   * `__identify_transmission_frame_offset`: the first offset in the first half
   * of the bits at which the pattern repeats every `block` bits in more than
   * 90 % of the windows, moved past the pattern. `range` refuses a zero step,
   * and an empty range of windows divides by zero. A negative step gives
   * windows only below a negative limit, which the pattern is then longer than
   * the bits for, so none of them matches (LongPatternNeverMatches).
   */
  function FrameOffset(bits: seq<int>, block: int, pattern: seq<int>): (r: Result<OffsetResult>)
    ensures |bits| < 2 ==> r == Ok(OffsetResult(None, 0.0))
    ensures r == Err(ValueError) <==> |bits| >= 2 && block == 0
    ensures r.Err? <==> (|bits| >= 2 &&
      (block == 0 || (block < 0 && SearchLimit(bits, pattern) >= 0) || (block > 0 && SearchLimit(bits, pattern) <= 0)))
    ensures |bits| >= 2 && block < 0 && SearchLimit(bits, pattern) < 0 ==> r == Ok(OffsetResult(None, 0.0))
  {
    var last := |bits| / 2;
    if last == 0 then Ok(OffsetResult(None, 0.0))
    else if block == 0 then Err(ValueError)
    else if block < 0 && SearchLimit(bits, pattern) < 0 then Ok(OffsetResult(None, 0.0))
    else if block < 0 || SearchLimit(bits, pattern) <= 0 then Err(ZeroDivisionError)
    else
      Ok(SearchResult(bits, block, pattern, RangeLen(SearchLimit(bits, pattern), block), last))
  }

  /** The search outcome: the first good offset moved past the pattern, with its rating. */
  function SearchResult(bits: seq<int>, block: int, pattern: seq<int>, steps: nat, last: nat): OffsetResult
    requires steps > 0
  {
    match FirstGoodOffset(bits, block, pattern, steps, 0, last)
    case None => OffsetResult(None, 0.0)
    case Some(o) => OffsetResult(Some(o + |pattern|), OffsetRating(bits, o, block, pattern, steps))
  }

  /** The frame offset is `(offset + len(pattern), rating)` for the first offset rated above 0.9, else `(None, 0)`. */
  lemma FrameOffsetFacts(bits: seq<int>, block: int, pattern: seq<int>)
    requires FrameOffset(bits, block, pattern).Ok?
    ensures var r := FrameOffset(bits, block, pattern).value;
      (r.offset.None? ==> r.rating == 0.0) &&
      (r.offset.Some? ==> r.rating > 0.9 && |pattern| <= r.offset.value < |bits| / 2 + |pattern|)
  {
  }

  lemma MulStep(k: int, block: int)
    ensures (k + 1) * block == k * block + block
  {
  }

  lemma CountStep(bits: seq<int>, offset: int, block: int, pattern: seq<int>, k: nat, start: int)
    requires start == offset + k * block
    ensures CountMatches(bits, offset, block, pattern, k + 1) ==
      CountMatches(bits, offset, block, pattern, k) + (if MatchesAt(bits, start, pattern) then 1 else 0)
  {
  }

  /** Counting the matching windows from one offset: the inner loop of the search. */
  method CountWindows(bits: seq<int>, offset: int, block: int, pattern: seq<int>, steps: nat) returns (found: nat)
    ensures found == CountMatches(bits, offset, block, pattern, steps)
  {
    found := 0;
    var k := 0;
    var start := offset;
    while k < steps
      invariant 0 <= k <= steps
      invariant start == offset + k * block
      invariant found == CountMatches(bits, offset, block, pattern, k)
    {
      CountStep(bits, offset, block, pattern, k, start);
      if MatchesAt(bits, start, pattern) {
        found := found + 1;
      }
      MulStep(k, block);
      k := k + 1;
      start := start + block;
    }
  }

  /** The search loop over the offsets, ending at the first one rated above 0.9. */
  method IdentifyTransmissionFrameOffset(bits: seq<int>, block: int, pattern: seq<int>) returns (r: Result<OffsetResult>)
    ensures r == FrameOffset(bits, block, pattern)
  {
    var last := |bits| / 2;
    if last == 0 {
      return Ok(OffsetResult(None, 0.0));
    }
    if block == 0 {
      return Err(ValueError);
    }
    var limit := Trunc(0.5 * (|bits| - |pattern| + 1) as real);
    if block < 0 && limit < 0 {
      return Ok(OffsetResult(None, 0.0));
    }
    if block < 0 || limit <= 0 {
      return Err(ZeroDivisionError);
    }
    var steps := RangeLen(limit, block);
    var found := SearchOffsets(bits, block, pattern, steps, last);
    return Ok(found);
  }

  /** The loop over the offsets, ending at the first one rated above 0.9. */
  method SearchOffsets(bits: seq<int>, block: int, pattern: seq<int>, steps: nat, last: nat) returns (r: OffsetResult)
    requires steps > 0
    ensures r == SearchResult(bits, block, pattern, steps, last)
  {
    var offset := 0;
    while offset < last
      invariant 0 <= offset <= last
      invariant FirstGoodOffset(bits, block, pattern, steps, 0, last) == FirstGoodOffset(bits, block, pattern, steps, offset, last)
    {
      var found := CountWindows(bits, offset, block, pattern, steps);
      var rating := found as real / steps as real;
      if rating > 0.9 {
        assert FirstGoodOffset(bits, block, pattern, steps, offset, last) == Some(offset);
        return OffsetResult(Some(offset + |pattern|), rating);
      }
      assert FirstGoodOffset(bits, block, pattern, steps, offset, last) == FirstGoodOffset(bits, block, pattern, steps, offset + 1, last);
      offset := offset + 1;
    }
    return OffsetResult(None, 0.0);
  }

  // ---------------------------------------------------------------------------
  // Stop bits

  const SingleStopBitPattern: seq<int> := [1, 0]
  const DoubleStopBitPattern: seq<int> := [1, 1, 0]

  /** The number of stop bits found, or "Unknown". */
  datatype StopBits = OneStopBit | TwoStopBits | UnknownStopBits
  {
    function Count(): int
    {
      match this
      case OneStopBit => 1
      case TwoStopBits => 2
      case UnknownStopBits => 0
    }
  }

  /** A decoded bit stream, stopping at the first Python exception. */
  function Bits(s: AnalysedSignal, inverted: bool): Result<seq<int>>
  {
    Decode(s.eventProperties.signedIntervalArray, s.eventProperties.firstReoccuringDuration, inverted)
  }

  /** `round(repeating_pattern_duration_symbols)`, which fails without a pattern. */
  function BlockLengthInSymbols(s: AnalysedSignal): Result<int>
  {
    match s.patternProperties.repeatingPatternDurationSymbols
    case None => Err(TypeError)
    case Some(p) => Ok(RoundHalfEven(p))
  }

  /**
   * `__amount_stop_bits`: the frame search is run with the single and the
   * double stop-bit pattern on the first 500 bits; the double pattern wins.
   */
  function AmountStopBits(s: AnalysedSignal, inverted: bool): (r: Result<(StopBits, real)>)
    ensures r.Ok? && r.value.0 == UnknownStopBits ==> r.value.1 == 0.0
    ensures r.Ok? && r.value.0 != UnknownStopBits ==> r.value.1 > 0.9
  {
    match Bits(s, inverted)
    case Err(e) => Err(e)
    case Ok(bits) =>
      match BlockLengthInSymbols(s)
      case Err(e) => Err(e)
      case Ok(block) =>
        match FrameOffset(Limited(bits), block, SingleStopBitPattern)
        case Err(e) => Err(e)
        case Ok(single) =>
          match FrameOffset(Limited(bits), block, DoubleStopBitPattern)
          case Err(e) => Err(e)
          case Ok(double) =>
            FrameOffsetFacts(Limited(bits), block, SingleStopBitPattern);
            FrameOffsetFacts(Limited(bits), block, DoubleStopBitPattern);
            if double.offset.Some? then Ok((TwoStopBits, double.rating))
            else if single.offset.Some? then Ok((OneStopBit, single.rating))
            else Ok((UnknownStopBits, 0.0))
  }

  // ---------------------------------------------------------------------------
  // Frames and parity

  /** The bits left after dropping `k` blocks of `block` bits. */
  function Remaining(rest: seq<int>, k: nat, block: int): seq<int>
  {
    var start := k * block;
    if start <= 0 then rest else if start >= |rest| then [] else rest[start..]
  }

  /**
   * `__get_array_of_transmission_frames`: from the frame offset on, every
   * `block` bits, the bits of the frame before its stop pattern; the number
   * of frames is `len(range(0, half the remaining bits, block))`.
   */
  function Frames(bits: seq<int>, block: int, patternLength: int, offset: int): (r: Result<seq<seq<int>>>)
    ensures block > 0 ==> r.Ok? && |r.value| == RangeLen(|PySlice(bits, offset, |bits|)| / 2, block)
  {
    var rest := PySlice(bits, offset, |bits|);
    if block == 0 then Err(ValueError)
    else if block < 0 then Ok([])
    else
      var n := RangeLen(|rest| / 2, block);
      Ok(seq(n, k requires 0 <= k < n => PySlice(Remaining(rest, k, block), 0, block - patternLength)))
  }

  /** The frame loop: it cuts one frame and drops one block per step. */
  method GetArrayOfTransmissionFrames(bits: seq<int>, block: int, patternLength: int, offset: int) returns (r: Result<seq<seq<int>>>)
    ensures r == Frames(bits, block, patternLength, offset)
  {
    if block == 0 {
      return Err(ValueError);
    }
    var rest := PySlice(bits, offset, |bits|);
    if block < 0 {
      return Ok([]);
    }
    var n := RangeLen(|rest| / 2, block);
    var frames: seq<seq<int>> := [];
    var remaining := rest;
    var k := 0;
    while k < n
      invariant 0 <= k <= n
      invariant remaining == Remaining(rest, k, block)
      invariant |frames| == k
      invariant forall j :: 0 <= j < k ==> frames[j] == PySlice(Remaining(rest, j, block), 0, block - patternLength)
    {
      frames := frames + [PySlice(remaining, 0, block - patternLength)];
      RemainingStep(rest, k, block);
      remaining := PySlice(remaining, block, |remaining|);
      k := k + 1;
    }
    assert frames == seq(n, k requires 0 <= k < n => PySlice(Remaining(rest, k, block), 0, block - patternLength));
    return Ok(frames);
  }

  lemma RemainingStep(rest: seq<int>, k: nat, block: int)
    requires block > 0
    ensures var cur := Remaining(rest, k, block);
      Remaining(rest, k + 1, block) == PySlice(cur, block, |cur|)
  {
    var start := k * block;
    assert (k + 1) * block == start + block;
    if start < |rest| && start + block < |rest| {
      assert rest[start..][block..] == rest[start + block..];
    }
  }

  function Sum(s: seq<int>): int
  {
    if s == [] then 0 else Sum(s[..|s| - 1]) + s[|s| - 1]
  }

  /** The frame's last bit is the parity of the bits before it, for even or for odd parity. */
  predicate ParityMatches(frame: seq<int>, even: bool)
    requires frame != []
  {
    var p := Sum(frame[..|frame| - 1]) % 2;
    if even then p == frame[|frame| - 1] else p != frame[|frame| - 1]
  }

  /** How many of the frames match the parity. */
  function CountParity(frames: seq<seq<int>>, even: bool): (r: nat)
    requires forall i :: 0 <= i < |frames| ==> frames[i] != []
    ensures r <= |frames|
  {
    if frames == [] then 0
    else CountParity(frames[..|frames| - 1], even) + (if ParityMatches(frames[|frames| - 1], even) then 1 else 0)
  }

  /** Every frame matches exactly one of the two parities. */
  lemma {:induction false} ParityCountsAddUp(frames: seq<seq<int>>)
    requires forall i :: 0 <= i < |frames| ==> frames[i] != []
    ensures CountParity(frames, true) + CountParity(frames, false) == |frames|
  {
    if frames != [] {
      ParityCountsAddUp(frames[..|frames| - 1]);
    }
  }

  /** The parity loops of `__find_parity_bit`. */
  method CountParityMatches(frames: seq<seq<int>>, even: bool) returns (count: nat)
    requires forall i :: 0 <= i < |frames| ==> frames[i] != []
    ensures count == CountParity(frames, even)
  {
    count := 0;
    var i := 0;
    while i < |frames|
      invariant 0 <= i <= |frames|
      invariant count == CountParity(frames[..i], even)
    {
      assert frames[..i + 1][..i] == frames[..i];
      if (Sum(frames[i][..|frames[i]| - 1]) % 2 == frames[i][|frames[i]| - 1]) == even {
        count := count + 1;
      }
      i := i + 1;
    }
    assert frames[..|frames|] == frames;
  }

  /** `__get_offset_for_frame_subdivision`: the frame offset of the stop-bit pattern, for one or two stop bits only. */
  function OffsetForFrameSubdivision(bits: seq<int>, block: int, stopBits: int): Result<Option<int>>
  {
    if stopBits == 1 then
      match FrameOffset(bits, block, SingleStopBitPattern)
      case Err(e) => Err(e)
      case Ok(r) => Ok(r.offset)
    else if stopBits == 2 then
      match FrameOffset(bits, block, DoubleStopBitPattern)
      case Err(e) => Err(e)
      case Ok(r) => Ok(r.offset)
    else Ok(None)
  }

  /**
   * The frames `__find_parity_bit` checks: those of the first 500 bits from
   * the frame offset on; `None` without a frame offset.
   */
  function ParityFrames(s: AnalysedSignal, stopBits: int, inverted: bool): Result<Option<seq<seq<int>>>>
  {
    match Bits(s, inverted)
    case Err(e) => Err(e)
    case Ok(decoded) =>
      var bits := Limited(decoded);
      match BlockLengthInSymbols(s)
      case Err(e) => Err(e)
      case Ok(block) =>
        match OffsetForFrameSubdivision(bits, block, stopBits)
        case Err(e) => Err(e)
        case Ok(None) => Ok(None)
        case Ok(Some(offset)) =>
          match Frames(bits, block, stopBits + 1, offset)
          case Err(e) => Err(e)
          case Ok(frames) => Ok(Some(frames))
  }

  predicate LongFrames(frames: seq<seq<int>>)
  {
    forall i :: 0 <= i < |frames| ==> |frames[i]| >= 5
  }

  /** The share of the frames that match the parity; all frames must have at least five bits, and there must be one. */
  function ParityShare(frames: seq<seq<int>>, even: bool): (r: Result<Option<(bool, real)>>)
    ensures r.Ok? && r.value.Some? ==> 0.0 <= r.value.value.1 <= 1.0 && (r.value.value.0 <==> r.value.value.1 >= 0.9)
    ensures r.Err? <==> LongFrames(frames) && frames == []
  {
    if !LongFrames(frames) then Ok(None)
    else if frames == [] then Err(ZeroDivisionError)
    else
      var rate := CountParity(frames, even) as real / |frames| as real;
      ShareBounds(CountParity(frames, even), |frames|);
      Ok(Some((rate >= 0.9, rate)))
  }

  lemma ShareBounds(c: nat, n: nat)
    requires 0 < n && c <= n
    ensures 0.0 <= c as real / n as real <= 1.0
  {
  }

  /**
   * `__find_parity_bit`: the share of frames whose last bit is the requested
   * parity of the others, and whether it reaches 90 %; `None` without a
   * frame offset or when a frame is shorter than five bits.
   */
  function FindParityBit(s: AnalysedSignal, stopBits: int, even: bool, inverted: bool): (r: Result<Option<(bool, real)>>)
    ensures r.Ok? && r.value.Some? ==> 0.0 <= r.value.value.1 <= 1.0 && (r.value.value.0 <==> r.value.value.1 >= 0.9)
  {
    match ParityFrames(s, stopBits, inverted)
    case Err(e) => Err(e)
    case Ok(None) => Ok(None)
    case Ok(Some(frames)) => ParityShare(frames, even)
  }

  /** The even and the odd parity shares of the same frames add up to one. */
  lemma ShareComplement(frames: seq<seq<int>>)
    requires ParityShare(frames, true).Ok? && ParityShare(frames, true).value.Some?
    ensures ParityShare(frames, false).Ok? && ParityShare(frames, false).value.Some?
    ensures ParityShare(frames, true).value.value.1 + ParityShare(frames, false).value.value.1 == 1.0
  {
    ParityCountsAddUp(frames);
    var n := |frames| as real;
    var e := CountParity(frames, true) as real;
    var o := CountParity(frames, false) as real;
    assert e + o == n;
    SplitFraction(e, o, n);
  }

  lemma SplitFraction(e: real, o: real, n: real)
    requires n > 0.0 && e + o == n
    ensures e / n + o / n == 1.0
  {
    assert e / n + o / n == (e + o) / n;
  }

  /** The even and the odd parity shares of a line add up to one. */
  lemma ParitySharesAddUp(s: AnalysedSignal, stopBits: int, inverted: bool)
    requires FindParityBit(s, stopBits, true, inverted).Ok? && FindParityBit(s, stopBits, true, inverted).value.Some?
    ensures FindParityBit(s, stopBits, false, inverted).Ok? && FindParityBit(s, stopBits, false, inverted).value.Some?
    ensures FindParityBit(s, stopBits, true, inverted).value.value.1 + FindParityBit(s, stopBits, false, inverted).value.value.1 == 1.0
  {
    ShareComplement(ParityFrames(s, stopBits, inverted).value.value);
  }

  /** The parity a line uses: "Odd", "Even", "Unknown" (both fit) or `False` (neither). */
  datatype Parity = Odd | Even | UnknownParity | NoParity
  {
    /** Python truthiness of the reported value: only `False` is falsy. */
    predicate Truthy()
    {
      !NoParity?
    }
  }

  /**
   * `__parity_bit_implemented`: both parities fitting is "Unknown", one
   * fitting names it with its share, neither is `False`. A `None` from the
   * parity search cannot be unpacked into two values and raises a TypeError.
   */
  function ParityBitImplemented(s: AnalysedSignal, stopBits: int, inverted: bool): (r: Result<(Parity, Option<real>)>)
    ensures r.Ok? ==> (r.value.0 == UnknownParity || r.value.0 == NoParity <==> r.value.1.None?)
  {
    match FindParityBit(s, stopBits, true, inverted)
    case Err(e) => Err(e)
    case Ok(None) => Err(TypeError)
    case Ok(Some((hasEven, evenRate))) =>
      match FindParityBit(s, stopBits, false, inverted)
      case Err(e) => Err(e)
      case Ok(None) => Err(TypeError)
      case Ok(Some((hasOdd, oddRate))) =>
        if hasOdd && hasEven then Ok((UnknownParity, None))
        else if hasOdd then Ok((Odd, Some(oddRate)))
        else if hasEven then Ok((Even, Some(evenRate)))
        else Ok((NoParity, None))
  }

  /** Shares of at least 0.9 for both parities cannot happen, so "Unknown" is never reported. */
  lemma ParityNeverUnknown(s: AnalysedSignal, stopBits: int, inverted: bool)
    requires ParityBitImplemented(s, stopBits, inverted).Ok?
    ensures ParityBitImplemented(s, stopBits, inverted).value.0 != UnknownParity
  {
    ParitySharesAddUp(s, stopBits, inverted);
  }

  /**
   * `__amount_data_bits_per_frame`: the frame length less the start bit, the
   * stop bits and, when there is one, the parity bit.
   */
  function AmountDataBitsPerFrame(patternSymbols: real, stopBits: int, parity: Parity): (r: int)
    ensures 1 + r + stopBits + (if parity.Truthy() then 1 else 0) == RoundHalfEven(patternSymbols)
  {
    var length := RoundHalfEven(patternSymbols) - 1;
    var length' := length - stopBits;
    if parity.Truthy() then length' - 1 else length'
  }

  /**
   * The usual frame formats: a repeating pattern of 10 symbols without parity
   * and one stop bit is 8N1, one of 11 symbols with a parity bit and one stop
   * bit is 8E1 or 8O1, and with two stop bits it is 7E2; the length is rounded first.
   */
  lemma DataBitsOfCommonFrames()
    ensures AmountDataBitsPerFrame(10.0, 1, NoParity) == 8
    ensures AmountDataBitsPerFrame(11.0, 1, Even) == 8 && AmountDataBitsPerFrame(11.0, 1, Odd) == 8
    ensures AmountDataBitsPerFrame(11.0, 2, Even) == 7
    ensures AmountDataBitsPerFrame(10.4, 1, NoParity) == 8
  {
    RoundOfInteger(10);
    RoundOfInteger(11);
  }

  // ---------------------------------------------------------------------------
  // The voltage the line rests at

  /** The rest voltage lies within 10 % of the swing around the lowest main level. */
  predicate WithinLowVoltage(levels: seq<real>, v: real)
    requires levels != []
  {
    var low := levels[0];
    var high := levels[|levels| - 1];
    high - (high - low) * 1.1 < v < high - (high - low) * 0.9
  }

  /** The rest voltage lies within 10 % of the swing around the highest main level. */
  predicate WithinHighVoltage(levels: seq<real>, v: real)
    requires levels != []
  {
    var low := levels[0];
    var high := levels[|levels| - 1];
    low + (high - low) * 0.9 < v < low + (high - low) * 1.1
  }

  /** With distinct lowest and highest levels, the two windows are those of the levels and exclude each other. */
  lemma VoltageWindows(levels: seq<real>, v: real)
    requires levels != [] && levels[0] < levels[|levels| - 1]
    ensures var low := levels[0]; var high := levels[|levels| - 1]; var w := (high - low) * 0.1;
      (WithinLowVoltage(levels, v) <==> low - w < v < low + w) &&
      (WithinHighVoltage(levels, v) <==> high - w < v < high + w)
    ensures !(WithinLowVoltage(levels, v) && WithinHighVoltage(levels, v))
  {
  }

  /**
   * `__is_inverted_signal_line`: a line resting near its lowest level is
   * inverted, one resting near its highest is not, and otherwise undecided.
   */
  function IsInvertedSignalLine(s: AnalysedSignal): (r: Result<Option<bool>>)
    ensures r.Err? <==> s.voltageProperties.mainVoltageLevels == [] || s.eventProperties.voltageOfLongestDuration.None?
    ensures r.Ok? ==> var levels := s.voltageProperties.mainVoltageLevels; var v := s.eventProperties.voltageOfLongestDuration.value;
      (r.value == Some(true) <==> WithinLowVoltage(levels, v)) &&
      (r.value == Some(false) <==> !WithinLowVoltage(levels, v) && WithinHighVoltage(levels, v))
  {
    var levels := s.voltageProperties.mainVoltageLevels;
    if levels == [] then Err(IndexError)
    else
      match s.eventProperties.voltageOfLongestDuration
      case None => Err(TypeError)
      case Some(v) =>
        if WithinLowVoltage(levels, v) then Ok(Some(true))
        else if WithinHighVoltage(levels, v) then Ok(Some(false))
        else Ok(None)
  }

  // ---------------------------------------------------------------------------
  // parameters

  /** The keys of the parameter dictionary, with the text each one stands for. */
  datatype UartParameter = SignalInverted | BaudRate | BaudRateRating | StopBitCount | StopBitRating
                         | ParityBit | ParityRating | BlockLength
  {
    function Name(): string
    {
      match this
      case SignalInverted => "Signal inverted"
      case BaudRate => "Baud rate"
      case BaudRateRating => "Baud rate recognition rating"
      case StopBitCount => "Amount of stop bits"
      case StopBitRating => "Find-rating for identification of stop bits"
      case ParityBit => "Parity bit implemented"
      case ParityRating => "Parity-bit recognition rate"
      case BlockLength => "Block length"
    }
  }

  type Params = map<UartParameter, ParamValue>

  function ParityValue(p: Parity): ParamValue
  {
    match p
    case Odd => Text("Odd")
    case Even => Text("Even")
    case UnknownParity => Text("Unknown")
    case NoParity => Flag(false)
  }

  function OptionalNumber(x: Option<real>): ParamValue
  {
    if x.Some? then Number(x.value) else NoValue
  }

  /** How the block length entry is decided, given the stop bits and the parity found. */
  datatype BlockLengthRule = AsWritten | Intended

  /** The entries `parameters` makes before the block length. */
  const HeadKeys: set<UartParameter> := {SignalInverted, BaudRate, BaudRateRating, StopBitCount, StopBitRating, ParityBit, ParityRating}

  /**
   * `parameters` up to the block length entry: inversion, baud rate, stop
   * bits and parity, each with its rating; the stop bits and the parity are
   * "Unknown" without a repeating pattern.
   */
  function LineParameters(s: AnalysedSignal): (r: Result<(Params, StopBits, Parity)>)
    ensures r.Ok? ==> r.value.0.Keys == HeadKeys
    ensures r.Ok? ==> r.value.0[StopBitCount] == (if r.value.1 == UnknownStopBits then Text("Unknown") else Number(r.value.1.Count() as real))
    ensures r.Ok? ==> r.value.0[ParityBit] == ParityValue(r.value.2)
    ensures r.Ok? && s.patternProperties.repeatingPatternDurationSymbols.None? ==> r.value.1 == UnknownStopBits && r.value.2 == UnknownParity
    ensures r.Ok? && r.value.1 == UnknownStopBits ==> r.value.2 == UnknownParity
  {
    match IsInvertedSignalLine(s)
    case Err(e) => Err(e)
    case Ok(inverted) =>
      var truthy := inverted == Some(true);
      match GetBaudRate(s)
      case Err(e) => Err(e)
      case Ok(baud) =>
        match StopBitsOf(s, truthy)
        case Err(e) => Err(e)
        case Ok((stopBits, foundRate)) =>
          match ParityOf(s, stopBits, truthy)
          case Err(e) => Err(e)
          case Ok((parityBit, parityRate)) =>
            Ok((Assemble(inverted, baud, stopBits, foundRate, parityBit, parityRate), stopBits, parityBit))
  }

  /** The stop bits, searched for only when the line has a repeating pattern. */
  function StopBitsOf(s: AnalysedSignal, truthy: bool): (r: Result<(StopBits, real)>)
    ensures s.patternProperties.repeatingPatternDurationSymbols.None? ==> r == Ok((UnknownStopBits, 0.0))
  {
    if s.patternProperties.repeatingPatternDurationSymbols.Some? then AmountStopBits(s, truthy)
    else Ok((UnknownStopBits, 0.0))
  }

  /** The parity, searched for only when the stop bits are known. */
  function ParityOf(s: AnalysedSignal, stopBits: StopBits, truthy: bool): (r: Result<(Parity, Option<real>)>)
    ensures stopBits == UnknownStopBits ==> r == Ok((UnknownParity, Some(0.0)))
  {
    if stopBits != UnknownStopBits then ParityBitImplemented(s, stopBits.Count(), truthy)
    else Ok((UnknownParity, Some(0.0)))
  }

  /** The dictionary entries before the block length. */
  function Assemble(inverted: Option<bool>, baud: BaudEstimate, stopBits: StopBits, foundRate: real,
                    parityBit: Parity, parityRate: Option<real>): (r: Params)
    ensures r.Keys == HeadKeys
    ensures r[StopBitCount] == (if stopBits == UnknownStopBits then Text("Unknown") else Number(stopBits.Count() as real))
    ensures r[ParityBit] == ParityValue(parityBit)
  {
    map[SignalInverted := if inverted.Some? then Flag(inverted.value) else NoValue,
        BaudRate := Number(baud.baud as real),
        BaudRateRating := OptionalNumber(baud.rating),
        StopBitCount := if stopBits == UnknownStopBits then Text("Unknown") else Number(stopBits.Count() as real),
        StopBitRating := Number(foundRate),
        ParityBit := ParityValue(parityBit),
        ParityRating := OptionalNumber(parityRate)]
  }

  /**
   * The block length entry: the data bits per frame when the stop bits and
   * the parity are known; otherwise "Cannot be identified" as intended, and
   * no entry as written.
   */
  function BlockLengthEntry(pattern: Option<real>, stopBits: StopBits, parityBit: Parity, rule: BlockLengthRule): (r: Option<ParamValue>)
    requires stopBits != UnknownStopBits ==> pattern.Some?
    ensures stopBits != UnknownStopBits && parityBit != UnknownParity ==>
      r == Some(Number(AmountDataBitsPerFrame(pattern.value, stopBits.Count(), parityBit) as real))
    ensures (stopBits == UnknownStopBits || parityBit == UnknownParity) ==>
      r == if rule == Intended then Some(Text("Cannot be identified")) else None
  {
    if stopBits != UnknownStopBits && parityBit != UnknownParity then
      Some(Number(AmountDataBitsPerFrame(pattern.value, stopBits.Count(), parityBit) as real))
    else if rule == Intended then Some(Text("Cannot be identified"))
    else None
  }

  /** `parameters` of a signal group; the analysed line is the group's second signal. */
  function ParametersWith(signals: seq<Option<AnalysedSignal>>, rule: BlockLengthRule): (r: Result<Params>)
    ensures |signals| < 2 ==> r == Err(IndexError)
    ensures |signals| >= 2 && signals[1].None? ==> r == Err(AttributeError)
    ensures r.Ok? ==> HeadKeys <= r.value.Keys <= HeadKeys + {BlockLength}
    ensures r.Ok? && rule == Intended ==> BlockLength in r.value
  {
    if |signals| < 2 then Err(IndexError)
    else if signals[1].None? then Err(AttributeError)
    else
      var s := signals[1].value;
      match LineParameters(s)
      case Err(e) => Err(e)
      case Ok((p, stopBits, parityBit)) =>
        match BlockLengthEntry(s.patternProperties.repeatingPatternDurationSymbols, stopBits, parityBit, rule)
        case None => Ok(p)
        case Some(v) => Ok(p[BlockLength := v])
  }

  /**
   * `parameters` as written: the fallback entry is guarded by a comparison
   * with the misspelt "Unkown", which no stop-bit count and no parity equals.
   */
  function ParametersAsWritten(signals: seq<Option<AnalysedSignal>>): (r: Result<Params>)
    ensures r.Ok? ==> HeadKeys <= r.value.Keys
  {
    ParametersWith(signals, AsWritten)
  }

  /** `parameters` with the fallback entry written as evidently intended. */
  function Parameters(signals: seq<Option<AnalysedSignal>>): (r: Result<Params>)
    ensures r.Ok? ==> r.value.Keys == HeadKeys + {BlockLength}
  {
    ParametersWith(signals, Intended)
  }

  /** A line without a repeating pattern: the stop bits and the parity are unknown, and so is the block length. */
  lemma NoPatternIsUnknown(signals: seq<Option<AnalysedSignal>>)
    requires Parameters(signals).Ok?
    requires signals[1].value.patternProperties.repeatingPatternDurationSymbols.None?
    ensures Parameters(signals).value[StopBitCount] == Text("Unknown")
    ensures Parameters(signals).value[ParityBit] == Text("Unknown")
    ensures Parameters(signals).value[BlockLength] == Text("Cannot be identified")
  {
    assert StopBitCount in HeadKeys && ParityBit in HeadKeys;
  }

  /** As written, a line without a repeating pattern gets no block length entry at all. */
  lemma AsWrittenOmitsBlockLength(signals: seq<Option<AnalysedSignal>>)
    requires ParametersAsWritten(signals).Ok?
    requires signals[1].value.patternProperties.repeatingPatternDurationSymbols.None?
    ensures BlockLength !in ParametersAsWritten(signals).value
    ensures Parameters(signals).Ok? && BlockLength in Parameters(signals).value
  {
    assert BlockLength !in HeadKeys;
  }

  /** The intended version reports a block length whenever it reports anything, and agrees with the written one otherwise. */
  lemma BlockLengthAlwaysReported(signals: seq<Option<AnalysedSignal>>)
    requires Parameters(signals).Ok?
    ensures BlockLength in Parameters(signals).value
    ensures ParametersAsWritten(signals).Ok?
    ensures BlockLength in ParametersAsWritten(signals).value ==> ParametersAsWritten(signals) == Parameters(signals)
    ensures Parameters(signals).value.Keys == ParametersAsWritten(signals).value.Keys + {BlockLength}
  {
    var s := signals[1].value;
    var line := LineParameters(s).value;
    var pattern := s.patternProperties.repeatingPatternDurationSymbols;
    var intended := BlockLengthEntry(pattern, line.1, line.2, Intended);
    var written := BlockLengthEntry(pattern, line.1, line.2, AsWritten);
    var full := line.0[BlockLength := intended.value];
    assert Parameters(signals) == Ok(full);
    assert full.Keys == line.0.Keys + {BlockLength};
    if written.Some? {
      assert written == intended;
      assert ParametersAsWritten(signals) == Ok(full);
    } else {
      assert ParametersAsWritten(signals) == Ok(line.0);
    }
  }
}
