/**
 * The protocol identification of signal groups: every group with a
 * periodic or burst line is rated against each known protocol, the best
 * rated protocol names the group, and that protocol determines the
 * group's encoding parameters.
 *
 * The protocols' own rating and parameter functions are parameters of
 * this model: `rate` gives a protocol's raw rating of a group's lines and
 * `identify` its parameter dictionary, either of which may raise.
 */
module ProtocolIdentifier {
  import opened Wrappers
  import opened SignalAnalysisResult
  import opened SignalGroups

  /** The known protocols, in the order they are rated. */
  datatype Protocol = Spi | I2C | Uart | OneWire
  {
    function Name(): string
    {
      match this
      case Spi => "SPI"
      case I2C => "I2C"
      case Uart => "UART"
      case OneWire => "OneWire"
    }
  }

  const KnownProtocols: seq<Protocol> := [Spi, I2C, Uart, OneWire]

  const KnownProtocolNames: seq<string> := ["SPI", "I2C", "UART", "OneWire"]

  lemma KnownProtocolNamesMatch()
    ensures |KnownProtocolNames| == |KnownProtocols|
    ensures forall i :: 0 <= i < |KnownProtocols| ==> KnownProtocolNames[i] == KnownProtocols[i].Name()
  {
  }

  /** A raw rating raised to 0, cut to 10 and divided by 10. */
  function ClampRating(x: real): (r: real)
    ensures 0.0 <= r <= 1.0
    ensures 0.0 <= x <= 10.0 ==> r == x / 10.0
    ensures x < 0.0 ==> r == 0.0
    ensures x > 10.0 ==> r == 1.0
  {
    var low := if x > 0.0 then x else 0.0;
    var high := if low < 10.0 then low else 10.0;
    high / 10.0
  }

  /** A better raw rating never gets a worse clamped rating. */
  lemma ClampRatingMonotone(x: real, y: real)
    requires x <= y
    ensures ClampRating(x) <= ClampRating(y)
  {
  }

  /** The clamped ratings of the first `n` protocols; the first protocol that raises ends the rating. */
  function RatingsUpTo(lines: seq<Line>, rate: (Protocol, seq<Line>) -> Result<real>, n: nat): (r: Result<seq<real>>)
    requires n <= |KnownProtocols|
    ensures r.Ok? ==> |r.value| == n
    ensures r.Ok? ==> forall i :: 0 <= i < n ==> (rate(KnownProtocols[i], lines).Ok? &&
      r.value[i] == ClampRating(rate(KnownProtocols[i], lines).value))
    ensures r.Err? <==> exists i :: 0 <= i < n && rate(KnownProtocols[i], lines).Err?
  {
    if n == 0 then Ok([])
    else
      var before := RatingsUpTo(lines, rate, n - 1);
      var rating := rate(KnownProtocols[n - 1], lines);
      if before.Err? then before
      else if rating.Err? then Err(rating.error)
      else Ok(before.value + [ClampRating(rating.value)])
  }

  /** Once a protocol has raised, rating more protocols gives the same error. */
  lemma {:induction false} RatingsErrorSticks(lines: seq<Line>, rate: (Protocol, seq<Line>) -> Result<real>, i: nat, n: nat)
    requires i <= n <= |KnownProtocols| && RatingsUpTo(lines, rate, i).Err?
    ensures RatingsUpTo(lines, rate, n) == RatingsUpTo(lines, rate, i)
    decreases n - i
  {
    if i < n {
      RatingsErrorSticks(lines, rate, i, n - 1);
    }
  }

  /** `__rate_signal_group`: one clamped rating per known protocol. */
  function Ratings(lines: seq<Line>, rate: (Protocol, seq<Line>) -> Result<real>): Result<seq<real>>
  {
    RatingsUpTo(lines, rate, |KnownProtocols|)
  }

  /** The loop of `__rate_signal_group`. */
  method RateSignalGroup(lines: seq<Line>, rate: (Protocol, seq<Line>) -> Result<real>) returns (r: Result<seq<real>>)
    ensures r == Ratings(lines, rate)
  {
    var ratingArray: seq<real> := [];
    var i := 0;
    while i < |KnownProtocols|
      invariant 0 <= i <= |KnownProtocols|
      invariant RatingsUpTo(lines, rate, i) == Ok(ratingArray)
    {
      var rating := rate(KnownProtocols[i], lines);
      if rating.Err? {
        RatingsErrorSticks(lines, rate, i + 1, |KnownProtocols|);
        return Err(rating.error);
      }
      ratingArray := ratingArray + [ClampRating(rating.value)];
      i := i + 1;
    }
    return Ok(ratingArray);
  }

  /** `rating_array.index(max(rating_array))`: the first position of the largest rating. */
  function FirstMaxIndex(rs: seq<real>): (i: nat)
    requires rs != []
    ensures i < |rs|
    ensures forall j :: 0 <= j < |rs| ==> rs[j] <= rs[i]
    ensures forall j :: 0 <= j < i ==> rs[j] < rs[i]
  {
    if |rs| == 1 then 0
    else
      var k := FirstMaxIndex(rs[..|rs| - 1]);
      assert forall j :: 0 <= j < |rs| - 1 ==> rs[..|rs| - 1][j] == rs[j];
      if rs[|rs| - 1] > rs[k] then |rs| - 1 else k
  }

  /** `dict(zip(names, ratings))`, in the order of the names. */
  function Zip(names: seq<string>, rs: seq<real>): (r: seq<(string, real)>)
    requires |names| == |rs|
    ensures |r| == |names| && forall i :: 0 <= i < |r| ==> r[i] == (names[i], rs[i])
  {
    seq(|names|, i requires 0 <= i < |names| => (names[i], rs[i]))
  }

  /**
   * `__contains_clock_or_data`: the lines are searched in order; `None` is
   * skipped, a periodic or burst line answers true, and an empty list `[]`
   * raises when its analysis result is read.
   */
  function HasClockOrData(lines: seq<Line>): (r: Result<bool>)
    ensures r == Ok(true) ==> exists k :: (0 <= k < |lines| && lines[k].Present? &&
      lines[k].analysed.eventProperties.signalType in {PERIODIC, BURST})
    ensures r == Ok(false) ==> forall k :: 0 <= k < |lines| ==> (!lines[k].EmptyLine? &&
      (lines[k].Present? ==> lines[k].analysed.eventProperties.signalType !in {PERIODIC, BURST}))
    ensures r.Err? ==> r.error == AttributeError && exists k :: 0 <= k < |lines| && lines[k].EmptyLine?
  {
    if lines == [] then Ok(false)
    else
      var rest := HasClockOrData(lines[1..]);
      assert forall k :: 1 <= k < |lines| ==> lines[k] == lines[1..][k - 1];
      match lines[0]
      case NoLine => rest
      case EmptyLine => Err(AttributeError)
      case Present(a) => if a.eventProperties.signalType in {PERIODIC, BURST} then Ok(true) else rest
  }

  /** The loop of `__contains_clock_or_data`, returning at the first line that decides. */
  method ContainsClockOrData(lines: seq<Line>) returns (r: Result<bool>)
    ensures r == HasClockOrData(lines)
  {
    var i := 0;
    assert lines[0..] == lines;
    while i < |lines|
      invariant 0 <= i <= |lines|
      invariant HasClockOrData(lines) == HasClockOrData(lines[i..])
    {
      assert lines[i..][1..] == lines[i + 1..];
      var line := lines[i];
      if line.EmptyLine? {
        return Err(AttributeError);
      } else if line.Present? && line.analysed.eventProperties.signalType in {PERIODIC, BURST} {
        return Ok(true);
      }
      i := i + 1;
    }
    return Ok(false);
  }

  /** What identification assigns to a group. */
  datatype Identified = Identified(name: string, parameters: map<string, ParamValue>, ratings: seq<(string, real)>)

  /**
   * The identification of one group's lines: nothing for a group without a
   * periodic or burst line, else the first best rated protocol, its
   * parameters and the ratings by protocol name.
   */
  function Identify(lines: seq<Line>, rate: (Protocol, seq<Line>) -> Result<real>,
                    identify: (Protocol, seq<Line>) -> Result<map<string, ParamValue>>): (r: Result<Option<Identified>>)
    ensures HasClockOrData(lines) == Ok(false) ==> r == Ok(None)
    ensures r.Ok? && r.value.Some? ==> HasClockOrData(lines) == Ok(true) && Ratings(lines, rate).Ok?
  {
    match HasClockOrData(lines)
    case Err(e) => Err(e)
    case Ok(found) =>
      if !found then Ok(None)
      else
        match Ratings(lines, rate)
        case Err(e) => Err(e)
        case Ok(rs) =>
          var best := KnownProtocols[FirstMaxIndex(rs)];
          match identify(best, lines)
          case Err(e) => Err(e)
          case Ok(parameters) => Ok(Some(Identified(best.Name(), parameters, Zip(KnownProtocolNames, rs))))
  }

  /**
   * An identified group is named after the first protocol with the highest
   * rating, gets that protocol's parameters, and its ratings list every
   * known protocol by name, in order, with a rating in [0, 1].
   */
  lemma IdentifiedIsBestRated(lines: seq<Line>, rate: (Protocol, seq<Line>) -> Result<real>,
                              identify: (Protocol, seq<Line>) -> Result<map<string, ParamValue>>)
    requires Identify(lines, rate, identify).Ok? && Identify(lines, rate, identify).value.Some?
    ensures var x := Identify(lines, rate, identify).value.value; var rs := Ratings(lines, rate).value;
      exists i :: 0 <= i < |KnownProtocols| && x.name == KnownProtocols[i].Name() &&
        identify(KnownProtocols[i], lines) == Ok(x.parameters) &&
        (forall j :: 0 <= j < |rs| ==> rs[j] <= rs[i]) && (forall j :: 0 <= j < i ==> rs[j] < rs[i])
    ensures var x := Identify(lines, rate, identify).value.value;
      |x.ratings| == |KnownProtocols| &&
      forall j :: 0 <= j < |x.ratings| ==> x.ratings[j].0 == KnownProtocols[j].Name() && 0.0 <= x.ratings[j].1 <= 1.0
  {
    var rs := Ratings(lines, rate).value;
    var i := FirstMaxIndex(rs);
    KnownProtocolNamesMatch();
    assert Identify(lines, rate, identify).value.value.name == KnownProtocols[i].Name();
  }

  /** `identify_protocols` on one group: the fields it assigns, in the order it assigns them. */
  method IdentifyGroup(group: SignalGroup, rate: (Protocol, seq<Line>) -> Result<real>,
                       identify: (Protocol, seq<Line>) -> Result<map<string, ParamValue>>) returns (err: Option<Error>)
    modifies group
    ensures group.analyzedSignals == old(group.analyzedSignals)
    ensures group.correlationRating == old(group.correlationRating)
    ensures err.None? <==> Identify(group.analyzedSignals, rate, identify).Ok?
    ensures Identify(group.analyzedSignals, rate, identify) == Ok(None) ==>
      group.protocolName == old(group.protocolName) &&
      group.encodingParameters == old(group.encodingParameters) &&
      group.identificationRatings == old(group.identificationRatings)
    ensures Identify(group.analyzedSignals, rate, identify).Ok? && Identify(group.analyzedSignals, rate, identify).value.Some? ==>
      var x := Identify(group.analyzedSignals, rate, identify).value.value;
      group.protocolName == Named(x.name) && group.encodingParameters == x.parameters &&
      group.identificationRatings == Some(x.ratings)
    ensures err.None? ==>
      IdentificationDone(group, rate, identify, old(group.protocolName), old(group.encodingParameters), old(group.identificationRatings))
  {
    var lines := group.analyzedSignals;
    var found := ContainsClockOrData(lines);
    if found.Err? {
      return Some(found.error);
    }
    if !found.value {
      return None;
    }
    var ratingArray := RateSignalGroup(lines, rate);
    if ratingArray.Err? {
      return Some(ratingArray.error);
    }
    var maxIndex := FirstMaxIndex(ratingArray.value);
    var identified := KnownProtocols[maxIndex];
    group.protocolName := Named(identified.Name());
    var parameters := identify(identified, lines);
    if parameters.Err? {
      return Some(parameters.error);
    }
    group.encodingParameters := parameters.value;
    group.identificationRatings := Some(Zip(KnownProtocolNames, ratingArray.value));
    return None;
  }

  /**
   * The fields identification leaves a group with: an identified group has
   * its protocol's name, parameters and ratings; any other keeps the
   * values it had.
   */
  predicate IdentificationDone(group: SignalGroup, rate: (Protocol, seq<Line>) -> Result<real>,
                       identify: (Protocol, seq<Line>) -> Result<map<string, ParamValue>>,
                       name: ProtocolName, parameters: map<string, ParamValue>, ratings: Option<seq<(string, real)>>)
    reads group
  {
    var r := Identify(group.analyzedSignals, rate, identify);
    r.Ok? &&
    if r.value.Some? then
      group.protocolName == Named(r.value.value.name) && group.encodingParameters == r.value.value.parameters &&
      group.identificationRatings == Some(r.value.value.ratings)
    else
      group.protocolName == name && group.encodingParameters == parameters && group.identificationRatings == ratings
  }

  /**
   * `identify_protocols`: every group in turn, stopping at the first that
   * raises. When none raises, every group is identified and the lines and
   * correlation ratings of all groups are unchanged.
   */
  method IdentifyProtocols(groups: seq<SignalGroup>, rate: (Protocol, seq<Line>) -> Result<real>,
                           identify: (Protocol, seq<Line>) -> Result<map<string, ParamValue>>) returns (err: Option<Error>)
    modifies set g | g in groups
    ensures forall g :: g in groups ==> g.analyzedSignals == old(g.analyzedSignals) && g.correlationRating == old(g.correlationRating)
    ensures err.None? <==> forall g :: g in groups ==> Identify(g.analyzedSignals, rate, identify).Ok?
    ensures err.None? ==> forall g :: g in groups ==>
      IdentificationDone(g, rate, identify, old(g.protocolName), old(g.encodingParameters), old(g.identificationRatings))
  {
    var i := 0;
    while i < |groups|
      invariant 0 <= i <= |groups|
      invariant forall g :: g in groups ==> g.analyzedSignals == old(g.analyzedSignals) && g.correlationRating == old(g.correlationRating)
      invariant forall g :: g in groups[..i] ==>
        IdentificationDone(g, rate, identify, old(g.protocolName), old(g.encodingParameters), old(g.identificationRatings))
      invariant forall g :: g in groups && g !in groups[..i] ==>
        g.protocolName == old(g.protocolName) && g.encodingParameters == old(g.encodingParameters) &&
        g.identificationRatings == old(g.identificationRatings)
    {
      var group := groups[i];
      err := IdentifyGroup(group, rate, identify);
      if err.Some? {
        return err;
      }
      assert groups[..i + 1] == groups[..i] + [group];
      i := i + 1;
    }
    assert groups[..i] == groups;
    return None;
  }
}
