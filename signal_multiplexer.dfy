/**
 * The board-independent part of a signal multiplexer: the channel states it
 * reports, its configuration (which probe sits on which channel) and the
 * lookup of a probe's channel.
 */
module SignalMultiplexer {
  import opened Wrappers
  import opened SignalMultiplexerConfig

  /** Where a channel is routed. */
  datatype SwitchState = DIGITAL | ANALOG_A | ANALOG_B | NOT_CONNECTED

  /** A digitised channel value. */
  datatype DigitalLevel = HIGH | LOW | UNKNOWN

  /** The raised `SignalMultiplexerException`. */
  const MultiplexerError: Error := DomainError("SignalMultiplexerException")

  /** The probes wired to channels 1..4; a missing foreign key is `None`. */
  datatype MuxConfig = MuxConfig(id: int, channel1Probe: Option<int>, channel2Probe: Option<int>,
                                 channel3Probe: Option<int>, channel4Probe: Option<int>)

  /** The configured probe id of one channel. */
  function ProbeIdOf(cfg: MuxConfig, ch: Channel): Option<int>
  {
    match ch
    case ONE => cfg.channel1Probe
    case TWO => cfg.channel2Probe
    case THREE => cfg.channel3Probe
    case FOUR => cfg.channel4Probe
  }

  /** The probe with id `probeId` is wired to channel `ch`. */
  predicate WiredTo(cfg: MuxConfig, probeId: int, ch: Channel)
  {
    ProbeIdOf(cfg, ch) == Some(probeId)
  }

  /**
   * `get_channel_by_probe`: channels are tried in the order 1, 2, 3, 4 and
   * the first one the probe is wired to is returned; a probe on no channel
   * raises.
   */
  function GetChannelByProbe(cfg: MuxConfig, probeId: int): (r: Result<Channel>)
    ensures r.Ok? ==> WiredTo(cfg, probeId, r.value)
    ensures r.Ok? ==> forall ch: Channel :: Value(ch) < Value(r.value) ==> !WiredTo(cfg, probeId, ch)
    ensures r.Err? ==> forall ch: Channel :: !WiredTo(cfg, probeId, ch)
    ensures r.Err? ==> r.error == MultiplexerError
  {
    if ProbeIdOf(cfg, ONE) == Some(probeId) then Ok(ONE)
    else if ProbeIdOf(cfg, TWO) == Some(probeId) then Ok(TWO)
    else if ProbeIdOf(cfg, THREE) == Some(probeId) then Ok(THREE)
    else if ProbeIdOf(cfg, FOUR) == Some(probeId) then Ok(FOUR)
    else Err(MultiplexerError)
  }

  /** A probe wired to exactly one channel is found on that channel. */
  lemma UniqueWiring(cfg: MuxConfig, probeId: int, ch: Channel)
    requires WiredTo(cfg, probeId, ch)
    requires forall other: Channel :: other != ch ==> !WiredTo(cfg, probeId, other)
    ensures GetChannelByProbe(cfg, probeId) == Ok(ch)
  {
  }

  /** The state the board reports; `connected` alone decides whether it is queried. */
  datatype Status = Status(id: int, connected: bool, switchStates: seq<SwitchState>,
                           digitalLevels: seq<DigitalLevel>, pullStates: seq<DigitalLevel>)

  /** `SignalMultiplexerStatus` defaults, as used while the board is not connected. */
  const DefaultSwitchStates: seq<SwitchState> := [NOT_CONNECTED, NOT_CONNECTED, NOT_CONNECTED, NOT_CONNECTED]
  const DefaultLevels: seq<DigitalLevel> := [UNKNOWN, UNKNOWN, UNKNOWN, UNKNOWN]

  /** A fresh status for a configuration: the dataclass defaults with the board's id. */
  function InitialStatus(cfg: MuxConfig): (s: Status)
    ensures s.id == cfg.id && !s.connected
  {
    Status(cfg.id, false, DefaultSwitchStates, DefaultLevels, DefaultLevels)
  }
}
