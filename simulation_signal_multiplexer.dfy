/**
 * The simulated signal multiplexer: three four-entry lists (switch states,
 * digital levels, pull states) that the channel operations assign into, a
 * cached status, and the board-independent connection test and release run
 * against it.
 */
module SimulationSignalMultiplexer {
  import opened Wrappers
  import opened SignalMultiplexerConfig
  import opened SignalMultiplexer

  /** The list position of a channel: `channel.value - 1`. */
  function Index(ch: Channel): (i: nat)
    ensures i < 4 && i + 1 == Value(ch)
  {
    match ch
    case ONE => 0
    case TWO => 1
    case THREE => 2
    case FOUR => 3
  }

  /** The three lists of the simulated board. */
  datatype LineState = LineState(switches: seq<SwitchState>, levels: seq<DigitalLevel>, pulls: seq<DigitalLevel>)

  predicate WellSized(l: LineState)
  {
    |l.switches| == 4 && |l.levels| == 4 && |l.pulls| == 4
  }

  /** The lists as `__init__` creates them. */
  const InitialLines: LineState :=
    LineState([DIGITAL, DIGITAL, DIGITAL, DIGITAL], [LOW, LOW, LOW, LOW], [LOW, LOW, LOW, LOW])

  /** The analogue output of a channel's pair: A for channels 1 and 2, B for 3 and 4. */
  function AnalogOutput(ch: Channel): (r: SwitchState)
    ensures r == ANALOG_A || r == ANALOG_B
    ensures r == ANALOG_A <==> Value(ch) <= 2
  {
    if ch == ONE || ch == TWO then ANALOG_A else ANALOG_B
  }

  /** The coupled channel that shares the analogue output: 1 with 2, 3 with 4. */
  function Partner(ch: Channel): (r: Channel)
    ensures r != ch && AnalogOutput(r) == AnalogOutput(ch)
    ensures forall c: Channel :: AnalogOutput(c) == AnalogOutput(ch) ==> c == ch || c == r
  {
    match ch
    case ONE => TWO
    case TWO => ONE
    case THREE => FOUR
    case FOUR => THREE
  }

  lemma PartnerInvolution(ch: Channel)
    ensures Partner(Partner(ch)) == ch
  {
  }

  /** Every channel is digital or on its own pair's output, and never both of a pair on it. */
  predicate Routed(l: LineState)
    requires WellSized(l)
  {
    forall ch: Channel ::
      && (l.switches[Index(ch)] == DIGITAL || l.switches[Index(ch)] == AnalogOutput(ch))
      && (l.switches[Index(ch)] == AnalogOutput(ch) ==> l.switches[Index(Partner(ch))] == DIGITAL)
  }

  /** Every channel's level is its pull state, and both are HIGH or LOW. */
  predicate Settled(l: LineState)
    requires WellSized(l)
  {
    l.levels == l.pulls && forall i :: 0 <= i < 4 ==> l.levels[i] == HIGH || l.levels[i] == LOW
  }

  predicate Sane(l: LineState)
  {
    WellSized(l) && Routed(l) && Settled(l)
  }

  /** `pull_channel`: the channel's pull state and level go HIGH; nothing else changes. */
  function Pulled(l: LineState, ch: Channel): (r: LineState)
    requires WellSized(l)
    ensures WellSized(r) && r.switches == l.switches
    ensures r.levels[Index(ch)] == HIGH && r.pulls[Index(ch)] == HIGH
    ensures forall c: Channel :: c != ch ==>
      r.levels[Index(c)] == l.levels[Index(c)] && r.pulls[Index(c)] == l.pulls[Index(c)]
  {
    LineState(l.switches, l.levels[Index(ch) := HIGH], l.pulls[Index(ch) := HIGH])
  }

  /** `release_channel`: the channel's pull state and level go LOW; nothing else changes. */
  function Released(l: LineState, ch: Channel): (r: LineState)
    requires WellSized(l)
    ensures WellSized(r) && r.switches == l.switches
    ensures r.levels[Index(ch)] == LOW && r.pulls[Index(ch)] == LOW
    ensures forall c: Channel :: c != ch ==>
      r.levels[Index(c)] == l.levels[Index(c)] && r.pulls[Index(c)] == l.pulls[Index(c)]
  {
    LineState(l.switches, l.levels[Index(ch) := LOW], l.pulls[Index(ch) := LOW])
  }

  /** `connect_to_digital`: only the channel's switch changes, to DIGITAL. */
  function ToDigital(l: LineState, ch: Channel): (r: LineState)
    requires WellSized(l)
    ensures WellSized(r) && r.levels == l.levels && r.pulls == l.pulls
    ensures r.switches[Index(ch)] == DIGITAL
    ensures forall c: Channel :: c != ch ==> r.switches[Index(c)] == l.switches[Index(c)]
  {
    l.(switches := l.switches[Index(ch) := DIGITAL])
  }

  /**
   * `connect_to_analog`: the channel goes to its pair's analogue output with
   * pull state and level LOW, its partner goes to DIGITAL keeping its levels,
   * and the other pair is untouched.
   */
  function ToAnalog(l: LineState, ch: Channel): (r: LineState)
    requires WellSized(l)
    ensures WellSized(r)
    ensures r.switches[Index(ch)] == AnalogOutput(ch)
    ensures r.levels[Index(ch)] == LOW && r.pulls[Index(ch)] == LOW
    ensures r.switches[Index(Partner(ch))] == DIGITAL
    ensures r.levels[Index(Partner(ch))] == l.levels[Index(Partner(ch))]
    ensures r.pulls[Index(Partner(ch))] == l.pulls[Index(Partner(ch))]
    ensures forall c: Channel :: c != ch && c != Partner(ch) ==>
      && r.switches[Index(c)] == l.switches[Index(c)]
      && r.levels[Index(c)] == l.levels[Index(c)]
      && r.pulls[Index(c)] == l.pulls[Index(c)]
  {
    var other := Partner(ch);
    LineState(l.switches[Index(ch) := AnalogOutput(ch)][Index(other) := DIGITAL],
              l.levels[Index(ch) := LOW], l.pulls[Index(ch) := LOW])
  }

  /** Every channel released, as `release_all` leaves the lists. */
  function AllReleased(l: LineState): (r: LineState)
    requires WellSized(l)
    ensures WellSized(r) && r.switches == l.switches
    ensures forall c: Channel :: r.levels[Index(c)] == LOW && r.pulls[Index(c)] == LOW
  {
    Released(Released(Released(Released(l, ONE), TWO), THREE), FOUR)
  }

  lemma InitialSane()
    ensures Sane(InitialLines)
  {
    var l := InitialLines;
    forall ch: Channel ensures l.switches[Index(ch)] == DIGITAL {
    }
  }

  /** All four operations keep the board sane. */
  lemma OperationsKeepSane(l: LineState, ch: Channel)
    requires Sane(l)
    ensures Sane(Pulled(l, ch)) && Sane(Released(l, ch))
    ensures Sane(ToDigital(l, ch)) && Sane(ToAnalog(l, ch))
  {
    var d := ToDigital(l, ch);
    forall c: Channel
      ensures d.switches[Index(c)] == DIGITAL || d.switches[Index(c)] == AnalogOutput(c)
      ensures d.switches[Index(c)] == AnalogOutput(c) ==> d.switches[Index(Partner(c))] == DIGITAL
    {
      if c != ch && Partner(c) != ch {
        assert d.switches[Index(Partner(c))] == l.switches[Index(Partner(c))];
      }
    }
    var a := ToAnalog(l, ch);
    forall c: Channel
      ensures a.switches[Index(c)] == DIGITAL || a.switches[Index(c)] == AnalogOutput(c)
      ensures a.switches[Index(c)] == AnalogOutput(c) ==> a.switches[Index(Partner(c))] == DIGITAL
    {
      if c != ch && c != Partner(ch) {
        assert Partner(c) != ch && Partner(c) != Partner(ch);
        assert a.switches[Index(Partner(c))] == l.switches[Index(Partner(c))];
      }
    }
    var p := Pulled(l, ch);
    assert p.levels == p.pulls;
    var q := Released(l, ch);
    assert q.levels == q.pulls;
    assert a.levels == a.pulls;
    forall i | 0 <= i < 4 ensures p.levels[i] == HIGH || p.levels[i] == LOW {
    }
    forall i | 0 <= i < 4 ensures q.levels[i] == HIGH || q.levels[i] == LOW {
    }
    forall i | 0 <= i < 4 ensures a.levels[i] == HIGH || a.levels[i] == LOW {
    }
  }

  /** Releasing after a pull is the same as releasing directly. */
  lemma ReleaseUndoesPull(l: LineState, ch: Channel)
    requires WellSized(l)
    ensures Released(Pulled(l, ch), ch) == Released(l, ch)
  {
    assert Released(Pulled(l, ch), ch).levels == Released(l, ch).levels;
  }

  /** Pulls of different channels do not interfere. */
  lemma PullsCommute(l: LineState, c: Channel, d: Channel)
    requires WellSized(l)
    ensures Pulled(Pulled(l, c), d) == Pulled(Pulled(l, d), c)
  {
    if c != d {
      assert Index(c) != Index(d);
      assert Pulled(Pulled(l, c), d).levels == Pulled(Pulled(l, d), c).levels;
    }
  }

  /** On a sane board the read of a pulled channel is HIGH and of any other LOW-kept one unchanged. */
  lemma PullThenRead(l: LineState, master: Channel, test: Channel)
    requires WellSized(l)
    ensures Pulled(l, master).levels[Index(test)] == if test == master then HIGH else l.levels[Index(test)]
  {
  }

  /**
   * `test_probe_connection` on the simulated board: look up both channels,
   * refuse a pulsed test, demand a LOW test channel, then pull the master,
   * read the test channel and release the master. The result and the lists
   * afterwards.
   */
  function ConnectionTest(l: LineState, cfg: MuxConfig, testProbe: int, masterProbe: int, pulseTest: bool)
    : (Result<bool>, LineState)
    requires WellSized(l)
  {
    var t := GetChannelByProbe(cfg, testProbe);
    var m := GetChannelByProbe(cfg, masterProbe);
    if t.Err? then (Err(t.error), l)
    else if m.Err? then (Err(m.error), l)
    else if pulseTest then (Err(DomainError("NotImplementedError")), l)
    else if l.levels[Index(t.value)] != LOW then (Err(MultiplexerError), l)
    else
      var pulled := Pulled(l, m.value);
      (Ok(pulled.levels[Index(t.value)] == HIGH), Released(pulled, m.value))
  }

  /**
   * The simulated board connects nothing: the test succeeds exactly when
   * both probes are found, the test is not pulsed and the test channel is
   * LOW, and it reports a connection exactly when both probes share a
   * channel. Afterwards the master channel is released and all else is as
   * before; on any error nothing has changed.
   */
  lemma ConnectionOnlyOnSharedChannel(l: LineState, cfg: MuxConfig, testProbe: int, masterProbe: int, pulseTest: bool)
    requires WellSized(l)
    ensures var (r, after) := ConnectionTest(l, cfg, testProbe, masterProbe, pulseTest);
      var t := GetChannelByProbe(cfg, testProbe);
      var m := GetChannelByProbe(cfg, masterProbe);
      && (r.Ok? <==> t.Ok? && m.Ok? && !pulseTest && l.levels[Index(t.value)] == LOW)
      && (r.Ok? ==> r.value == (t.value == m.value) && after == Released(l, m.value))
      && (r.Err? ==> after == l)
      && (t.Ok? && m.Ok? && !pulseTest && l.levels[Index(t.value)] != LOW ==> r == Err(MultiplexerError))
  {
    var t := GetChannelByProbe(cfg, testProbe);
    var m := GetChannelByProbe(cfg, masterProbe);
    if t.Ok? && m.Ok? && !pulseTest && l.levels[Index(t.value)] == LOW {
      ReleaseUndoesPull(l, m.value);
      PullThenRead(l, m.value, t.value);
    }
  }

  /** The cached status: the board's lists while connected, the defaults otherwise. */
  function Reported(cfg: MuxConfig, connected: bool, l: LineState): (s: Status)
    ensures s.id == cfg.id && s.connected == connected
    ensures connected ==> s.switchStates == l.switches && s.digitalLevels == l.levels && s.pullStates == l.pulls
    ensures !connected ==> s.switchStates == DefaultSwitchStates && s.digitalLevels == DefaultLevels
                           && s.pullStates == DefaultLevels
  {
    if connected then Status(cfg.id, true, l.switches, l.levels, l.pulls)
    else Status(cfg.id, false, DefaultSwitchStates, DefaultLevels, DefaultLevels)
  }

  /** A fresh, unconnected board already reports what `_update_status` would. */
  lemma InitialStatusReported(cfg: MuxConfig)
    ensures InitialStatus(cfg) == Reported(cfg, false, InitialLines)
  {
  }

  class SimulatedBoard {
    const config: MuxConfig
    var switchStates: seq<SwitchState>
    var digitalLevels: seq<DigitalLevel>
    var pullStates: seq<DigitalLevel>
    var status: Status

    function State(): LineState
      reads this
    {
      LineState(switchStates, digitalLevels, pullStates)
    }

    /** The lists are sane and the cached status is up to date. */
    ghost predicate Valid()
      reads this
    {
      Sane(State()) && status == Reported(config, status.connected, State())
    }

    constructor (cfg: MuxConfig)
      ensures Valid() && config == cfg && State() == InitialLines && status == InitialStatus(cfg)
    {
      config := cfg;
      switchStates := InitialLines.switches;
      digitalLevels := InitialLines.levels;
      pullStates := InitialLines.pulls;
      status := InitialStatus(cfg);
      new;
      InitialSane();
    }

    /** `_update_status`: re-query the lists while connected, else store the defaults. */
    method UpdateStatus()
      requires Sane(State())
      modifies this
      ensures Valid() && State() == old(State()) && status == Reported(config, old(status.connected), State())
    {
      var switches := DefaultSwitchStates;
      var levels := DefaultLevels;
      var pulls := DefaultLevels;
      if status.connected {
        switches := switchStates;
        levels := digitalLevels;
        pulls := pullStates;
      }
      status := Status(config.id, status.connected, switches, levels, pulls);
    }

    method Start()
      requires Valid()
      modifies this
      ensures Valid() && State() == old(State()) && status.connected
    {
      status := status.(connected := true);
      UpdateStatus();
    }

    method Stop()
      requires Valid()
      modifies this
      ensures Valid() && State() == old(State()) && !status.connected
    {
      status := status.(connected := false);
      UpdateStatus();
    }

    /** `test_channel`: the stored level at `channel.value - 1`, always HIGH or LOW. */
    method TestChannel(ch: Channel) returns (r: DigitalLevel)
      requires Valid()
      ensures r == digitalLevels[Index(ch)] && r == pullStates[Index(ch)]
      ensures r == HIGH || r == LOW
    {
      r := digitalLevels[Index(ch)];
    }

    method PullChannel(ch: Channel)
      requires Valid()
      modifies this
      ensures Valid() && State() == Pulled(old(State()), ch) && status.connected == old(status.connected)
    {
      OperationsKeepSane(State(), ch);
      pullStates := pullStates[Index(ch) := HIGH];
      digitalLevels := digitalLevels[Index(ch) := HIGH];
      UpdateStatus();
    }

    method ReleaseChannel(ch: Channel)
      requires Valid()
      modifies this
      ensures Valid() && State() == Released(old(State()), ch) && status.connected == old(status.connected)
    {
      OperationsKeepSane(State(), ch);
      pullStates := pullStates[Index(ch) := LOW];
      digitalLevels := digitalLevels[Index(ch) := LOW];
      UpdateStatus();
    }

    method ConnectToDigital(ch: Channel)
      requires Valid()
      modifies this
      ensures Valid() && State() == ToDigital(old(State()), ch) && status.connected == old(status.connected)
    {
      OperationsKeepSane(State(), ch);
      switchStates := switchStates[Index(ch) := DIGITAL];
      UpdateStatus();
    }

    method ConnectToAnalog(ch: Channel)
      requires Valid()
      modifies this
      ensures Valid() && State() == ToAnalog(old(State()), ch) && status.connected == old(status.connected)
    {
      OperationsKeepSane(State(), ch);
      var other: Channel;
      var newValue: SwitchState;
      if ch == ONE {
        other, newValue := TWO, ANALOG_A;
      } else if ch == TWO {
        other, newValue := ONE, ANALOG_A;
      } else if ch == THREE {
        other, newValue := FOUR, ANALOG_B;
      } else {
        other, newValue := THREE, ANALOG_B;
      }
      switchStates := switchStates[Index(ch) := newValue];
      pullStates := pullStates[Index(ch) := LOW];
      digitalLevels := digitalLevels[Index(ch) := LOW];
      switchStates := switchStates[Index(other) := DIGITAL];
      UpdateStatus();
    }

    /** `get_channel_by_probe` on this board's configuration. */
    function ChannelByProbe(probeId: int): (r: Result<Channel>)
      ensures r.Ok? ==> WiredTo(config, probeId, r.value)
      ensures r.Err? ==> forall ch: Channel :: !WiredTo(config, probeId, ch)
    {
      GetChannelByProbe(config, probeId)
    }

    /** `test_probe_connection`, run against the simulated lists. */
    method TestProbeConnection(testProbe: int, masterProbe: int, pulseTest: bool) returns (r: Result<bool>)
      requires Valid()
      modifies this
      ensures Valid() && status.connected == old(status.connected)
      ensures (r, State()) == ConnectionTest(old(State()), config, testProbe, masterProbe, pulseTest)
    {
      var testChannel := ChannelByProbe(testProbe);
      if testChannel.Err? {
        return Err(testChannel.error);
      }
      var masterChannel := ChannelByProbe(masterProbe);
      if masterChannel.Err? {
        return Err(masterChannel.error);
      }
      if pulseTest {
        return Err(DomainError("NotImplementedError"));
      }
      var before := TestChannel(testChannel.value);
      if before != LOW {
        return Err(MultiplexerError);
      }
      PullChannel(masterChannel.value);
      var channelLevel := TestChannel(testChannel.value);
      var connected := channelLevel == HIGH;
      ReleaseChannel(masterChannel.value);
      return Ok(connected);
    }

    /** `release_all`: channels 1..4 released in order, then a status update. */
    method ReleaseAll()
      requires Valid()
      modifies this
      ensures Valid() && State() == AllReleased(old(State())) && status.connected == old(status.connected)
    {
      ghost var start := State();
      var k := 0;
      while k < |Members|
        invariant 0 <= k <= |Members| && Valid() && status.connected == old(status.connected)
        invariant State().switches == start.switches
        invariant forall j :: 0 <= j < k ==> digitalLevels[j] == LOW && pullStates[j] == LOW
        invariant forall j :: k <= j < 4 ==> digitalLevels[j] == start.levels[j] && pullStates[j] == start.pulls[j]
      {
        assert Index(Members[k]) == k;
        ReleaseChannel(Members[k]);
        k := k + 1;
      }
      assert State() == AllReleased(start) by {
        forall j | 0 <= j < 4 ensures digitalLevels[j] == LOW {
          assert j == Index(Members[j]);
        }
        var a := AllReleased(start);
        forall j | 0 <= j < 4 ensures a.levels[j] == LOW && a.pulls[j] == LOW {
          assert j == Index(Members[j]);
        }
      }
      UpdateStatus();
    }
  }
}
