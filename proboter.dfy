/**
 * The PROBoter firmware module that centres a probe over a round pin
 * (`Proboter::center_circle`, `probe_line`, `probe_z` in the Marlin fork).
 *
 * Marlin's motion planner and the contact sensor are abstract: the planner is
 * the queue of stepper positions still to be passed through, the sensor is a
 * predicate over the physical stepper position, and `track` says which
 * positions a commanded move passes through. Coordinates are reals.
 */
module Proboter {
  import opened Wrappers
  import PythonNumeric

  datatype Position = Position(x: real, y: real, z: real, e: real)
  datatype Point3 = Point3(x: real, y: real, z: real)
  datatype Dir = Dir(dx: real, dy: real)

  /** What the firmware asks of the planner, in order. */
  datatype Event =
    | LineTo(target: Position)
    | QuickStop
    | Synchronize
    | ResyncZ
    | SyncPlanPosition

  /** A calibration point as printed: each coordinate as the text left in the `pos_string` buffer. */
  datatype PrintedPoint = PrintedPoint(x: string, y: string, z: string)

  /** What the firmware writes to the serial line. */
  datatype Message =
    | FirstProbeNotTouched
    | CalibrationPoints(points: seq<PrintedPoint>)

  /**
   * The abstract planner: where the steppers are, where the last planned move
   * ends, and the positions the steppers still pass through while blocks are queued.
   */
  datatype Planner = Planner(stepper: Position, target: Position, pending: seq<Position>)

  /** Marlin's `current_position`, the module's `last_probed_z`, the planner and the log of planner requests. */
  datatype Machine = Machine(
    current: Position,
    lastProbedZ: real,
    planner: Planner,
    motion: seq<Event>)

  /** The environment: the contact sensor and the planner's path for a move. */
  datatype Env = Env(contact: Position -> bool, track: (Position, Position) -> seq<Position>)

  /** Configuration constants of the firmware build. */
  datatype Config = Config(zMaxPos: real, zClearance: real, probingStep: real)

  const MaxSteps: nat := 20
  const CenterMinStep: real := 0.01
  const ProbeLift: real := 0.75

  function Abs(x: real): real { if x < 0.0 then -x else x }

  function Pow2(k: nat): (r: nat)
    ensures r >= 1
  {
    if k == 0 then 1 else 2 * Pow2(k - 1)
  }

  lemma {:induction false} Pow2Exceeds(k: nat)
    ensures k < Pow2(k)
  {
    if k > 0 {
      Pow2Exceeds(k - 1);
    }
  }

  /** The step factor after `k` edge transitions: 1, -1/2, 1/4, ...; each transition reverses the direction. */
  function StepFactor(k: nat): (r: real)
    ensures r > 0.0 <==> k % 2 == 0
    ensures r < 0.0 <==> k % 2 == 1
  {
    if k == 0 then 1.0 else -0.5 * StepFactor(k - 1)
  }

  lemma {:induction false} StepFactorMagnitude(k: nat)
    ensures Abs(StepFactor(k)) * Pow2(k) as real == 1.0
  {
    if k > 0 {
      StepFactorMagnitude(k - 1);
      assert Abs(StepFactor(k)) == 0.5 * Abs(StepFactor(k - 1));
    }
  }

  /** Number of halvings of a unit step that can stay at or above `minStep`. */
  function HalvingBound(minStep: real): int
    requires minStep > 0.0
  {
    (1.0 / minStep).Floor + 1
  }

  lemma BelowReciprocal(p: real, m: real)
    requires m > 0.0 && p * m <= 1.0
    ensures p <= 1.0 / m
  {
    var q := 1.0 / m;
    assert q * m == 1.0;
    assert p * m <= q * m;
  }

  lemma ScaleMonotone(a: real, b: real, p: real)
    requires a <= b && p >= 0.0
    ensures p * a <= p * b
  {
    assert p * b - p * a == p * (b - a);
  }

  lemma HalvingBounded(minStep: real, k: nat)
    requires minStep > 0.0
    requires Abs(StepFactor(k)) >= minStep
    ensures k < HalvingBound(minStep)
  {
    StepFactorMagnitude(k);
    Pow2Exceeds(k);
    var p := Pow2(k) as real;
    var f := Abs(StepFactor(k));
    ScaleMonotone(minStep, f, p);
    assert p * minStep <= 1.0;
    BelowReciprocal(p, minStep);
    var q := 1.0 / minStep;
    assert (k + 1) as real <= q;
    assert k + 1 <= q.Floor;
  }

  // ---------------------------------------------------------------------------
  // Planner primitives

  /** `line_to_current_position`: plan a move from the end of the last planned move to `current`. */
  function LineToCurrent(env: Env, m: Machine): Machine
  {
    m.(motion := m.motion + [LineTo(m.current)],
       planner := m.planner.(target := m.current,
                              pending := m.planner.pending + env.track(m.planner.target, m.current)))
  }

  /** `planner.quick_stop`: drop every queued block; the steppers stay where they are. */
  function QuickStopped(m: Machine): Machine
  {
    m.(motion := m.motion + [QuickStop],
       planner := Planner(m.planner.stepper, m.planner.stepper, []))
  }

  /** `planner.synchronize`: wait until the steppers reach the end of the planned moves. */
  function Synchronized(m: Machine): Machine
  {
    m.(motion := m.motion + [Synchronize],
       planner := Planner(m.planner.target, m.planner.target, []))
  }

  /** `set_current_from_steppers_for_axis(Z_AXIS)`. */
  function ResyncedZ(m: Machine): Machine
  {
    m.(motion := m.motion + [ResyncZ], current := m.current.(z := m.planner.stepper.z))
  }

  /** `sync_plan_position`: the planner takes `current` as its position. */
  function PlanSynced(m: Machine): Machine
  {
    m.(motion := m.motion + [SyncPlanPosition], planner := m.planner.(target := m.current))
  }

  /**
   * The poll loop of `probe_z`: while blocks are queued and there is no
   * contact, the sensor is read where the steppers stand, the steppers' z is
   * recorded when it is touched, and the steppers advance one position.
   */
  function Poll(env: Env, m: Machine, triggered: bool): (Machine, bool)
    decreases |m.planner.pending|
  {
    if triggered || m.planner.pending == [] then (m, triggered)
    else
      var p := m.planner.stepper;
      var t := env.contact(p);
      var m1 := m.(lastProbedZ := if t then p.z else m.lastProbedZ,
                   planner := m.planner.(stepper := m.planner.pending[0], pending := m.planner.pending[1..]));
      Poll(env, m1, t)
  }

  /** The positions the poll loop reads the sensor at: where the steppers stand, then every queued position but the last. */
  function Reads(pl: Planner): (r: seq<Position>)
    ensures |r| == if pl.pending == [] then 1 else |pl.pending|
    ensures r[0] == pl.stepper
  {
    ([pl.stepper] + pl.pending)[..if pl.pending == [] then 1 else |pl.pending|]
  }

  /** Some position of `path` is in contact. */
  ghost predicate Touches(env: Env, path: seq<Position>)
  {
    exists i :: 0 <= i < |path| && env.contact(path[i])
  }

  /** Position `j` of `path` is in contact and none before it is. */
  ghost predicate FirstContact(env: Env, path: seq<Position>, j: nat)
  {
    j < |path| && env.contact(path[j]) && forall i :: 0 <= i < j ==> !env.contact(path[i])
  }

  /** The retract height of `probe_z`: absolute when `zRetract >= 0`, else relative. */
  function RetractZ(zNow: real, zRetract: real, zClearance: real): real
  {
    if zRetract >= 0.0 then zRetract else zNow - zClearance
  }

  /** `probe_z`: move towards `zMax` until contact, stop, resync, retract. */
  function ProbeZRun(env: Env, m: Machine, zMax: real, zRetract: real, zClearance: real): (Machine, bool)
  {
    var m1 := LineToCurrent(env, m.(current := m.current.(z := zMax)));
    var polled := Poll(env, m1, env.contact(m1.planner.stepper));
    var m2 := polled.0;
    var m3 := PlanSynced(ResyncedZ(Synchronized(QuickStopped(m2))));
    var m4 := m3.(current := m3.current.(z := RetractZ(m3.current.z, zRetract, zClearance)));
    (Synchronized(LineToCurrent(env, m4)), polled.1)
  }

  /** The result of an edge search. */
  datatype LineOutcome = LineOutcome(m: Machine, point: Point3, found: bool, f: real, counter: nat)

  /**
   * One step of `probe_line`: move laterally by `dir`·`f`, plan the move and
   * probe down to `initZ` + 0.75, retracting to `zRetract`.
   */
  function SearchStep(env: Env, initZ: real, zRetract: real, dir: Dir, m: Machine, f: real): (Machine, bool)
  {
    ProbeZRun(env, LineToCurrent(env, Stepped(m, dir, f)), initZ + ProbeLift, zRetract, -1.0)
  }

  /** The current position moved laterally by `dir`·`f`. */
  function Stepped(m: Machine, dir: Dir, f: real): Machine
  {
    m.(current := m.current.(x := m.current.x + dir.dx * f, y := m.current.y + dir.dy * f))
  }

  /**
   * The loop of `probe_line` from a given loop state, for any step function;
   * `k` counts the edge transitions so far, so that `f` is `StepFactor(k)`.
   */
  function ProbeLineLoop(step: (Machine, real) -> (Machine, bool), m: Machine, minStep: real,
                         point: Point3, counter: nat, f: real, lastTriggered: bool, k: nat): LineOutcome
    requires minStep > 0.0 && counter <= MaxSteps
    requires f == StepFactor(k)
    decreases HalvingBound(minStep) - k, MaxSteps - counter
  {
    if !(counter < MaxSteps && Abs(f) >= minStep) then
      LineOutcome(m, point, counter < MaxSteps, f, counter)
    else
      HalvingBounded(minStep, k);
      var probed := step(m, f);
      var point' := Point3(probed.0.current.x, probed.0.current.y, probed.0.lastProbedZ);
      if probed.1 != lastTriggered then
        ProbeLineLoop(step, probed.0, minStep, point', 0, -0.5 * f, probed.1, k + 1)
      else
        ProbeLineLoop(step, probed.0, minStep, point', counter + 1, f, probed.1, k)
  }

  /** `probe_line`: step factor 1, "last triggered" set, counter 0. */
  function ProbeLineRun(env: Env, m: Machine, initZ: real, minStep: real, zRetract: real, dir: Dir,
                     point: Point3): LineOutcome
    requires minStep > 0.0
  {
    ProbeLineLoop(SearchSteps(env, initZ, zRetract, dir), m, minStep, point, 0, 1.0, true, 0)
  }

  /** `SearchStep` as a step function of the machine and the step factor. */
  function SearchSteps(env: Env, initZ: real, zRetract: real, dir: Dir): (Machine, real) -> (Machine, bool)
  {
    (m': Machine, f: real) => SearchStep(env, initZ, zRetract, dir, m', f)
  }

  /** `step` does what `SearchStep` does, wherever a `SearchStep` term is at hand. */
  ghost predicate Searches(step: (Machine, real) -> (Machine, bool), env: Env, initZ: real, zRetract: real, dir: Dir)
  {
    forall m: Machine, f: real {:trigger SearchStep(env, initZ, zRetract, dir, m, f)} ::
      step(m, f) == SearchStep(env, initZ, zRetract, dir, m, f)
  }

  /** The six search directions: +x, -x, +y, -y, +x, -x. */
  function StepDirs(step: real): (r: seq<Dir>)
    ensures |r| == 6
  {
    [Dir(step, 0.0), Dir(-1.0 * step, 0.0), Dir(0.0, step), Dir(0.0, -1.0 * step),
     Dir(step, 0.0), Dir(-1.0 * step, 0.0)]
  }

  /** The state after the edge searches `i..5`; `starts` lists the centre each of them started from. */
  datatype CenterOutcome = CenterOutcome(m: Machine, points: seq<Point3>, starts: seq<Position>)

  /** The probing centre after search `i`: x moves after search 1, y after search 3. */
  function NextCenter(i: nat, center: Position, points: seq<Point3>): Position
    requires |points| == 6
  {
    if i == 1 then center.(x := (points[0].x + points[1].x) * 0.5)
    else if i == 3 then center.(y := (points[2].y + points[3].y) * 0.5)
    else center
  }

  /** Moves to the probing centre and runs edge searches `i..5`, adjusting the centre after searches 1 and 3. */
  function CenterLoop(search: (Machine, nat, Position, Point3) -> LineOutcome, m: Machine, i: nat,
                      center: Position, points: seq<Point3>): (r: CenterOutcome)
    requires i <= 6 && |points| == 6
    ensures |r.points| == 6
    decreases 6 - i
  {
    if i == 6 then CenterOutcome(m, points, [])
    else
      var line := search(m, i, center, points[i]);
      var points' := points[i := line.point];
      var center' := NextCenter(i, center, points');
      var rest := CenterLoop(search, line.m, i + 1, center', points');
      rest.(starts := [center] + rest.starts)
  }

  /**
   * Edge search `i` of `center_circle`: copy the probing centre into the
   * current position, move there, and search between heights `z0` and `z0Cleared`.
   */
  function CenterSearch(env: Env, cfg: Config, z0: real, z0Cleared: real, m: Machine, i: nat,
                        center: Position, point: Point3): LineOutcome
  {
    var m1 := LineToCurrent(env, m.(current := center));
    if i < 6 then ProbeLineRun(env, m1, z0, CenterMinStep, z0Cleared, StepDirs(cfg.probingStep)[i], point)
    else LineOutcome(m1, point, false, 1.0, 0)
  }

  /** What `center_circle` leaves behind: the machine, its points buffer, the search starts and the serial output. */
  datatype CircleOutcome = CircleOutcome(m: Machine, points: seq<Point3>, starts: seq<Position>, messages: seq<Message>)

  /** `center_circle`, given the initial content of the uninitialised `points` buffer. */
  function CenterCircleRun(env: Env, cfg: Config, m: Machine, garbage: seq<Point3>): CircleOutcome
    requires |garbage| == 6
  {
    var probed := ProbeZRun(env, m.(lastProbedZ := 0.0), cfg.zMaxPos, -1.0, 1.0);
    var m1 := probed.0;
    var z0 := m1.lastProbedZ;
    if !probed.1 then CircleOutcome(m1, garbage, [], [FirstProbeNotTouched])
    else
      var r := CenterLoop(CenterSearches(env, cfg, z0, Cleared(cfg, z0)), m1, 0, m1.current, garbage);
      CircleOutcome(r.m, r.points, r.starts, [CalibrationPoints(PrintedPoints(r.points[2..6]))])
  }

  /** The height `center_circle` retracts to between edge probes: the clearance below the pin top. */
  function Cleared(cfg: Config, z0: real): real
  {
    z0 - cfg.zClearance
  }

  /** The edge searches of `center_circle` once the first probe found the pin top at `z0`. */
  function CenterSearches(env: Env, cfg: Config, z0: real, z0Cleared: real): (Machine, nat, Position, Point3) -> LineOutcome
  {
    (m': Machine, i: nat, c: Position, p: Point3) => CenterSearch(env, cfg, z0, z0Cleared, m', i, c, p)
  }

  /** `search` does what `CenterSearch` does at the heights of `z0`, wherever a `CenterSearch` term is at hand. */
  ghost predicate Centers(search: (Machine, nat, Position, Point3) -> LineOutcome, env: Env, cfg: Config,
                          z0: real, z0Cleared: real)
  {
    forall m: Machine, i: nat, c: Position, p: Point3
      {:trigger CenterSearch(env, cfg, z0, z0Cleared, m, i, c, p)} ::
      search(m, i, c, p) == CenterSearch(env, cfg, z0, z0Cleared, m, i, c, p)
  }

  // ---------------------------------------------------------------------------
  // Properties

  /**
   * Polling commands nothing. From an untouched start it reports contact
   * exactly when one of the positions it reads is touched; the probed z is
   * then that of the first touched position, after which the steppers advance
   * once more. Without contact it ends with an empty queue and the probed z kept.
   */
  lemma {:induction false} PollOutcome(env: Env, m: Machine, triggered: bool)
    ensures var (m', t) := Poll(env, m, triggered);
      var path := [m.planner.stepper] + m.planner.pending;
      && m'.current == m.current && m'.motion == m.motion && m'.planner.target == m.planner.target
      && (triggered ==> m' == m && t)
      && (!triggered ==> (t <==> m.planner.pending != [] && Touches(env, Reads(m.planner))))
      && (!t ==> m'.planner.pending == [] && m'.lastProbedZ == m.lastProbedZ)
      && (t && !triggered ==> exists j: nat :: j + 1 < |path| && FirstContact(env, Reads(m.planner), j)
                                              && m'.lastProbedZ == path[j].z && m'.planner.stepper == path[j + 1])
    decreases |m.planner.pending|
  {
    if !triggered && m.planner.pending != [] {
      var p := m.planner.stepper;
      var t0 := env.contact(p);
      var m1 := m.(lastProbedZ := if t0 then p.z else m.lastProbedZ,
                   planner := m.planner.(stepper := m.planner.pending[0], pending := m.planner.pending[1..]));
      PollOutcome(env, m1, t0);
      var path := [p] + m.planner.pending;
      var path1 := [m1.planner.stepper] + m1.planner.pending;
      assert path1 == m.planner.pending;
      if t0 {
        assert FirstContact(env, Reads(m.planner), 0);
        assert Poll(env, m1, true) == (m1, true);
        assert path[0] == p && path[1] == m1.planner.stepper;
      } else if |m.planner.pending| > 1 {
        ReadsAdvance(env, m.planner, m1.planner);
        var (m', t) := Poll(env, m1, false);
        if t {
          var j: nat :| j + 1 < |path1| && FirstContact(env, Reads(m1.planner), j)
                        && m'.lastProbedZ == path1[j].z && m'.planner.stepper == path1[j + 1];
          assert path[j + 1] == path1[j] && path[j + 2] == path1[j + 1];
        }
      } else {
        assert Reads(m.planner) == [p];
      }
    }
  }

  /**
   * With more than one position queued, the poll loop reads the stepper
   * position and then what it reads after the advance; past a position out of
   * contact, touching and the first contact carry over, one place later.
   */
  lemma ReadsAdvance(env: Env, pl: Planner, pl1: Planner)
    requires |pl.pending| > 1 && pl1 == pl.(stepper := pl.pending[0], pending := pl.pending[1..])
    ensures Reads(pl) == [pl.stepper] + Reads(pl1)
    ensures !env.contact(pl.stepper) ==> (Touches(env, Reads(pl)) <==> Touches(env, Reads(pl1)))
    ensures !env.contact(pl.stepper) ==>
      forall j: nat :: FirstContact(env, Reads(pl1), j) ==> FirstContact(env, Reads(pl), j + 1)
  {
    var rs, rs1 := Reads(pl), Reads(pl1);
    assert rs == [pl.stepper] + rs1;
    if !env.contact(pl.stepper) {
      if Touches(env, rs) {
        var i :| 0 <= i < |rs| && env.contact(rs[i]);
        assert i > 0 && rs1[i - 1] == rs[i];
      }
      if Touches(env, rs1) {
        var i :| 0 <= i < |rs1| && env.contact(rs1[i]);
        assert rs[i + 1] == rs1[i];
      }
      forall j: nat | FirstContact(env, rs1, j)
        ensures FirstContact(env, rs, j + 1)
      {
        assert rs[j + 1] == rs1[j];
        forall i | 0 <= i < j + 1 ensures !env.contact(rs[i]) {
          if i > 0 {
            assert rs[i] == rs1[i - 1];
          }
        }
      }
    }
  }

  /**
   * `probe_z` stops, synchronises and resynchronises on both paths, then
   * retracts and waits; only the z coordinate moves, and it ends at the
   * retract height computed from where the steppers stopped. It reports
   * contact exactly when a position it reads is touched, and records the z of
   * the first one touched inside the poll loop.
   */
  lemma ProbeZSequence(env: Env, m: Machine, zMax: real, zRetract: real, zClearance: real)
    ensures var (m', t) := ProbeZRun(env, m, zMax, zRetract, zClearance);
      var m1 := LineToCurrent(env, m.(current := m.current.(z := zMax)));
      var (m2, _) := Poll(env, m1, env.contact(m1.planner.stepper));
      var zRet := RetractZ(m2.planner.stepper.z, zRetract, zClearance);
      && m'.motion == m.motion + [LineTo(m.current.(z := zMax)), QuickStop, Synchronize, ResyncZ,
                                  SyncPlanPosition, LineTo(m.current.(z := zRet)), Synchronize]
      && m'.current == m.current.(z := zRet)
      && m'.planner == Planner(m'.current, m'.current, [])
      && (t <==> Touches(env, Reads(m1.planner)))
      && (t && !env.contact(m1.planner.stepper) ==>
            exists j: nat :: 0 < j && FirstContact(env, Reads(m1.planner), j) && m'.lastProbedZ == Reads(m1.planner)[j].z)
      && (!t || env.contact(m1.planner.stepper) ==> m'.lastProbedZ == m.lastProbedZ)
  {
    var m1 := LineToCurrent(env, m.(current := m.current.(z := zMax)));
    var start := env.contact(m1.planner.stepper);
    PollOutcome(env, m1, start);
    var rs := Reads(m1.planner);
    if start {
      assert env.contact(rs[0]);
    } else {
      var (m2, t) := Poll(env, m1, false);
      if t {
        var path := [m1.planner.stepper] + m1.planner.pending;
        var j: nat :| j + 1 < |path| && FirstContact(env, rs, j) && m2.lastProbedZ == path[j].z;
        assert rs[j] == path[j];
        assert !env.contact(rs[0]);
      }
    }
  }

  /**
   * `probe_line` ends; it reports success exactly when it left the loop because
   * the step fell below `minStep`, and failure after 20 steps without an edge;
   * once a step has run, the point holds the last probed position.
   */
  lemma {:induction false} ProbeLineLoopOutcome(step: (Machine, real) -> (Machine, bool), m: Machine, minStep: real,
                                                point: Point3, counter: nat, f: real, lastTriggered: bool, k: nat)
    requires minStep > 0.0 && counter <= MaxSteps
    requires f == StepFactor(k)
    ensures var r := ProbeLineLoop(step, m, minStep, point, counter, f, lastTriggered, k);
      && r.counter <= MaxSteps
      && (r.found <==> r.counter < MaxSteps)
      && (r.found ==> Abs(r.f) < minStep)
      && (!r.found ==> r.counter == MaxSteps)
      && (exists j: nat :: r.f == StepFactor(j))
      && (counter < MaxSteps && Abs(f) >= minStep ==>
            r.point == Point3(r.m.current.x, r.m.current.y, r.m.lastProbedZ))
      && (!(counter < MaxSteps && Abs(f) >= minStep) ==> r.m == m && r.point == point)
    decreases HalvingBound(minStep) - k, MaxSteps - counter
  {
    if counter < MaxSteps && Abs(f) >= minStep {
      HalvingBounded(minStep, k);
      var probed := step(m, f);
      var point' := Point3(probed.0.current.x, probed.0.current.y, probed.0.lastProbedZ);
      if probed.1 != lastTriggered {
        ProbeLineLoopOutcome(step, probed.0, minStep, point', 0, -0.5 * f, probed.1, k + 1);
      } else {
        ProbeLineLoopOutcome(step, probed.0, minStep, point', counter + 1, f, probed.1, k);
      }
    }
  }

  /** One iteration of the `probe_line` loop, for a step whose result is already known. */
  lemma ProbeLineLoopUnfold(step: (Machine, real) -> (Machine, bool), m: Machine, minStep: real,
                            point: Point3, counter: nat, f: real, lastTriggered: bool, k: nat,
                            m': Machine, t: bool)
    requires minStep > 0.0 && counter < MaxSteps && Abs(f) >= minStep
    requires f == StepFactor(k) && (m', t) == step(m, f)
    ensures k + 1 <= HalvingBound(minStep) && -0.5 * f == StepFactor(k + 1)
    ensures ProbeLineLoop(step, m, minStep, point, counter, f, lastTriggered, k)
         == if t != lastTriggered
            then ProbeLineLoop(step, m', minStep, Point3(m'.current.x, m'.current.y, m'.lastProbedZ), 0, -0.5 * f, t, k + 1)
            else ProbeLineLoop(step, m', minStep, Point3(m'.current.x, m'.current.y, m'.lastProbedZ), counter + 1, f, t, k)
  {
    HalvingBounded(minStep, k);
  }

  /** A step function that `Searches` agrees with `SearchSteps` everywhere. */
  lemma SearchesPointwise(step: (Machine, real) -> (Machine, bool), env: Env, initZ: real, zRetract: real, dir: Dir)
    requires Searches(step, env, initZ, zRetract, dir)
    ensures forall m': Machine, f': real :: step(m', f') == SearchSteps(env, initZ, zRetract, dir)(m', f')
  {
    forall m': Machine, f': real ensures step(m', f') == SearchSteps(env, initZ, zRetract, dir)(m', f') {
      assert SearchSteps(env, initZ, zRetract, dir)(m', f') == SearchStep(env, initZ, zRetract, dir, m', f');
    }
  }

  /** The loop depends on the step function only through its values. */
  lemma {:induction false} ProbeLineLoopCongruent(step: (Machine, real) -> (Machine, bool),
                                                  step': (Machine, real) -> (Machine, bool), m: Machine, minStep: real,
                                                  point: Point3, counter: nat, f: real, lastTriggered: bool, k: nat)
    requires minStep > 0.0 && counter <= MaxSteps
    requires f == StepFactor(k)
    requires forall m': Machine, f': real :: step(m', f') == step'(m', f')
    ensures ProbeLineLoop(step, m, minStep, point, counter, f, lastTriggered, k)
         == ProbeLineLoop(step', m, minStep, point, counter, f, lastTriggered, k)
    decreases HalvingBound(minStep) - k, MaxSteps - counter
  {
    if counter < MaxSteps && Abs(f) >= minStep {
      HalvingBounded(minStep, k);
      var probed := step(m, f);
      var point' := Point3(probed.0.current.x, probed.0.current.y, probed.0.lastProbedZ);
      if probed.1 != lastTriggered {
        ProbeLineLoopCongruent(step, step', probed.0, minStep, point', 0, -0.5 * f, probed.1, k + 1);
      } else {
        ProbeLineLoopCongruent(step, step', probed.0, minStep, point', counter + 1, f, probed.1, k);
      }
    }
  }

  // ---- Convergence of the edge search ----

  /** The edge search seen along its line: offset from the start in units of the direction vector, step factor, counter. */
  datatype Scan = Scan(s: real, f: real, counter: nat)

  /**
   * The `probe_line` loop for a sensor that is in contact exactly at the
   * offsets below `e`: each step adds `f` to the offset.
   */
  function ScanLoop(e: real, minStep: real, s: real, counter: nat, f: real, lastTriggered: bool, k: nat): Scan
    requires minStep > 0.0 && counter <= MaxSteps
    requires f == StepFactor(k)
    decreases HalvingBound(minStep) - k, MaxSteps - counter
  {
    if !(counter < MaxSteps && Abs(f) >= minStep) then
      Scan(s, f, counter)
    else
      HalvingBounded(minStep, k);
      var t := s + f < e;
      if t != lastTriggered then
        ScanLoop(e, minStep, s + f, 0, -0.5 * f, t, k + 1)
      else
        ScanLoop(e, minStep, s + f, counter + 1, f, t, k)
  }

  /** The machine as a probe leaves it: the planner idle at the current position, which is at the retract height. */
  predicate Idle(m: Machine, zRetract: real)
  {
    m.planner == Planner(m.current, m.current, []) && m.current.z == zRetract
  }

  /**
   * From an idle machine at the retract height, `step` leaves the machine idle
   * there again, moves the offset `pos` by exactly the step factor and
   * reports contact exactly below offset `e`.
   */
  ghost predicate Tracks(step: (Machine, real) -> (Machine, bool), pos: Machine -> real, e: real, zRetract: real)
  {
    forall m: Machine, f: real {:trigger step(m, f)} :: Idle(m, zRetract) ==>
      && Idle(step(m, f).0, zRetract)
      && pos(step(m, f).0) == pos(m) + f
      && (step(m, f).1 <==> pos(m) + f < e)
  }

  /** For such a step, the `probe_line` loop ends where `ScanLoop` does, with the same step factor and counter. */
  lemma {:induction false} ProbeLineLoopTracks(step: (Machine, real) -> (Machine, bool), pos: Machine -> real, e: real,
                                               zRetract: real, m: Machine, minStep: real, point: Point3, counter: nat,
                                               f: real, lastTriggered: bool, k: nat)
    requires minStep > 0.0 && counter <= MaxSteps
    requires f == StepFactor(k)
    requires Tracks(step, pos, e, zRetract) && Idle(m, zRetract)
    ensures var r := ProbeLineLoop(step, m, minStep, point, counter, f, lastTriggered, k);
      var sc := ScanLoop(e, minStep, pos(m), counter, f, lastTriggered, k);
      pos(r.m) == sc.s && r.f == sc.f && r.counter == sc.counter
    decreases HalvingBound(minStep) - k, MaxSteps - counter
  {
    if counter < MaxSteps && Abs(f) >= minStep {
      HalvingBounded(minStep, k);
      var probed := step(m, f);
      var point' := Point3(probed.0.current.x, probed.0.current.y, probed.0.lastProbedZ);
      if probed.1 != lastTriggered {
        ProbeLineLoopTracks(step, pos, e, zRetract, probed.0, minStep, point', 0, -0.5 * f, probed.1, k + 1);
      } else {
        ProbeLineLoopTracks(step, pos, e, zRetract, probed.0, minStep, point', counter + 1, f, probed.1, k);
      }
    }
  }

  /** How far the edge can still be from the offset, given the steps taken since the last turn. */
  function Slack(counter: nat, f: real): real
  {
    if counter == 0 then 2.0 * Abs(f) else if counter == 1 then Abs(f) else 0.0
  }

  /**
   * The loop state while the search closes in on the edge `e`: before the
   * first turn, full steps away from the start while in contact; after it,
   * the step points towards the edge and at most two steps of the current
   * size separate the offset from it.
   */
  ghost predicate Bracketing(e: real, s: real, counter: nat, f: real, lastTriggered: bool, k: nat)
  {
    if k == 0 then
      lastTriggered && s == counter as real && s < e <= MaxSteps as real
    else
      && counter <= 2
      && (lastTriggered <==> s < e)
      && (if lastTriggered then f > 0.0 else f < 0.0)
      && Abs(e - s) <= Slack(counter, f)
  }

  /** From a bracketing state the search succeeds, within two final steps of the edge. */
  lemma {:induction false} ScanConverges(e: real, minStep: real, s: real, counter: nat, f: real, lastTriggered: bool, k: nat)
    requires 0.0 < minStep <= 1.0 && counter <= MaxSteps
    requires f == StepFactor(k)
    requires Bracketing(e, s, counter, f, lastTriggered, k)
    ensures var sc := ScanLoop(e, minStep, s, counter, f, lastTriggered, k);
      sc.counter < MaxSteps && Abs(sc.f) < minStep && Abs(sc.s - e) <= 2.0 * Abs(sc.f)
    decreases HalvingBound(minStep) - k, MaxSteps - counter
  {
    if counter < MaxSteps && Abs(f) >= minStep {
      HalvingBounded(minStep, k);
      var t := s + f < e;
      if t != lastTriggered {
        ScanConverges(e, minStep, s + f, 0, -0.5 * f, t, k + 1);
      } else {
        ScanConverges(e, minStep, s + f, counter + 1, f, t, k);
      }
    }
  }

  /**
   * An edge less than 20 steps from the start, searched with a minimum step
   * of at most one step: the search succeeds and ends less than two minimum
   * steps from the edge.
   */
  lemma ScanFromStart(e: real, minStep: real)
    requires 0.0 < e <= MaxSteps as real && 0.0 < minStep <= 1.0
    ensures var sc := ScanLoop(e, minStep, 0.0, 0, 1.0, true, 0);
      && sc.counter < MaxSteps && Abs(sc.f) < minStep
      && Abs(sc.s - e) <= 2.0 * Abs(sc.f) < 2.0 * minStep
  {
    ScanConverges(e, minStep, 0.0, 0, 1.0, true, 0);
  }

  /** The bound is two minimum steps and not one: an edge at 0.0469 steps is left 0.0156 steps behind. */
  lemma ScanOvershoot()
    ensures var sc := ScanLoop(0.0469, 0.01, 0.0, 0, 1.0, true, 0);
      sc.counter < MaxSteps && sc.s == 0.0625 && Abs(sc.s - 0.0469) > 0.01
  {
  }

  function Norm2(dir: Dir): real
  {
    dir.dx * dir.dx + dir.dy * dir.dy
  }

  /** The offset of `p` from `c0` along `dir`, in units of `dir`. */
  function Along(dir: Dir, c0: Position, p: Position): real
  {
    if Norm2(dir) == 0.0 then 0.0
    else ((p.x - c0.x) * dir.dx + (p.y - c0.y) * dir.dy) / Norm2(dir)
  }

  /** A lateral step by factor `f` adds `f` to the offset along a non-zero direction. */
  lemma AlongStepped(dir: Dir, c0: Position, m: Machine, f: real)
    requires Norm2(dir) != 0.0
    ensures Along(dir, c0, Stepped(m, dir, f).current) == Along(dir, c0, m.current) + f
  {
    var p, q := m.current, Stepped(m, dir, f).current;
    var u, v := p.x - c0.x, p.y - c0.y;
    assert q.x - c0.x == u + dir.dx * f && q.y - c0.y == v + dir.dy * f;
    OffsetShift(u, v, dir.dx, dir.dy, f);
  }

  /** The offset along (dx, dy) of (u, v) moved by f·(dx, dy) grows by f. */
  lemma OffsetShift(u: real, v: real, dx: real, dy: real, f: real)
    requires dx * dx + dy * dy != 0.0
    ensures ((u + dx * f) * dx + (v + dy * f) * dy) / (dx * dx + dy * dy) == (u * dx + v * dy) / (dx * dx + dy * dy) + f
  {
    ShiftedDot(u, v, dx, dy, f);
    QuotientShift(u * dx + v * dy, (u + dx * f) * dx + (v + dy * f) * dy, dx * dx + dy * dy, f);
  }

  lemma QuotientShift(a: real, b: real, n: real, f: real)
    requires n != 0.0 && b == a + f * n
    ensures b / n == a / n + f
  {
    DivideSum(a, f * n, n);
    assert (f * n) / n == f;
  }

  lemma ShiftedDot(u: real, v: real, dx: real, dy: real, f: real)
    ensures (u + dx * f) * dx + (v + dy * f) * dy == u * dx + v * dy + f * (dx * dx + dy * dy)
  {
  }

  lemma DivideSum(a: real, b: real, n: real)
    requires n != 0.0
    ensures (a + b) / n == a / n + b / n
  {
    var q, r := a / n, b / n;
    assert q * n == a && r * n == b;
    assert (q + r) * n == a + b;
  }

  /** The position `p` moved laterally by `dir`·`f`. */
  function Lateral(p: Position, dir: Dir, f: real): Position
  {
    p.(x := p.x + dir.dx * f, y := p.y + dir.dy * f)
  }

  /**
   * The planner of a search step from an idle machine at `p` once both moves
   * are planned: the steppers still at `p`, the lateral move to `c1` and the
   * probing move up to `zMax` queued.
   */
  function StepPlanner(env: Env, p: Position, c1: Position, zMax: real): Planner
  {
    Planner(p, c1.(z := zMax), env.track(p, c1) + env.track(c1, c1.(z := zMax)))
  }

  /**
   * The contact sensor, seen by a search step along `dir` from `c0` that
   * starts idle at the retract height: some position the poll loop reads is
   * touched exactly when the step goes to an offset below `e`.
   */
  ghost predicate EdgeAt(env: Env, initZ: real, zRetract: real, dir: Dir, c0: Position, e: real)
  {
    forall p: Position, f: real {:trigger Lateral(p, dir, f)} :: p.z == zRetract ==>
      var touched := Touches(env, Reads(StepPlanner(env, p, Lateral(p, dir, f), initZ + ProbeLift)));
      touched <==> Along(dir, c0, Lateral(p, dir, f)) < e
  }

  /** A search step ends at the laterally stepped position: probing moves only z. */
  lemma SearchStepLateral(env: Env, initZ: real, zRetract: real, dir: Dir, m: Machine, f: real)
    ensures var m' := SearchStep(env, initZ, zRetract, dir, m, f).0;
      m'.current.x == m.current.x + dir.dx * f && m'.current.y == m.current.y + dir.dy * f
  {
    ProbeZSequence(env, LineToCurrent(env, Stepped(m, dir, f)), initZ + ProbeLift, zRetract, -1.0);
  }

  /**
   * A search step from an idle machine at an absolute retract height leaves
   * it idle there, and touches exactly when a position the poll loop reads does.
   */
  lemma SearchStepIdle(env: Env, initZ: real, zRetract: real, dir: Dir, m: Machine, f: real)
    requires zRetract >= 0.0 && Idle(m, zRetract)
    ensures var r := SearchStep(env, initZ, zRetract, dir, m, f);
      && Idle(r.0, zRetract)
      && r.0.current.x == m.current.x + dir.dx * f && r.0.current.y == m.current.y + dir.dy * f
      && (r.1 <==> Touches(env, Reads(StepPlanner(env, m.current, Lateral(m.current, dir, f), initZ + ProbeLift))))
  {
    var zMax := initZ + ProbeLift;
    var ma := LineToCurrent(env, Stepped(m, dir, f));
    ProbeZSequence(env, ma, zMax, zRetract, -1.0);
    var m1 := LineToCurrent(env, ma.(current := ma.current.(z := zMax)));
    assert ma.current == Lateral(m.current, dir, f);
    assert m1.planner == StepPlanner(env, m.current, Lateral(m.current, dir, f), zMax);
  }

  /** Along a non-zero direction from `c0`, the search steps from idle machines track the offset from `c0`. */
  lemma SearchStepsTrack(env: Env, initZ: real, zRetract: real, dir: Dir, c0: Position, e: real)
    requires Norm2(dir) != 0.0 && zRetract >= 0.0
    requires EdgeAt(env, initZ, zRetract, dir, c0, e)
    ensures Tracks(SearchSteps(env, initZ, zRetract, dir), (m: Machine) => Along(dir, c0, m.current), e, zRetract)
  {
    var pos := (m: Machine) => Along(dir, c0, m.current);
    forall m: Machine, f: real | Idle(m, zRetract)
      ensures Idle(SearchSteps(env, initZ, zRetract, dir)(m, f).0, zRetract)
      ensures pos(SearchSteps(env, initZ, zRetract, dir)(m, f).0) == pos(m) + f
      ensures SearchSteps(env, initZ, zRetract, dir)(m, f).1 <==> pos(m) + f < e
    {
      var r := SearchStep(env, initZ, zRetract, dir, m, f);
      assert SearchSteps(env, initZ, zRetract, dir)(m, f) == r;
      SearchStepIdle(env, initZ, zRetract, dir, m, f);
      var q := Lateral(m.current, dir, f);
      assert Stepped(m, dir, f).current == q;
      assert r.0.current.x == q.x && r.0.current.y == q.y;
      assert Along(dir, c0, r.0.current) == Along(dir, c0, q);
      AlongStepped(dir, c0, m, f);
      assert r.1 <==> Along(dir, c0, q) < e;
    }
  }

  /**
   * `probe_line` from an idle machine whose edge lies `e` steps along `dir`,
   * at most 20 steps away: it succeeds, the reported point is where it
   * stopped, and that point is less than two minimum steps from the edge.
   */
  lemma ProbeLineConverges(env: Env, m: Machine, initZ: real, minStep: real, zRetract: real, dir: Dir,
                           point: Point3, e: real)
    requires 0.0 < minStep <= 1.0 && 0.0 < e <= MaxSteps as real && Norm2(dir) != 0.0
    requires zRetract >= 0.0 && Idle(m, zRetract)
    requires EdgeAt(env, initZ, zRetract, dir, m.current, e)
    ensures var r := ProbeLineRun(env, m, initZ, minStep, zRetract, dir, point);
      && r.found && r.point.x == r.m.current.x && r.point.y == r.m.current.y
      && Abs(Along(dir, m.current, r.m.current) - e) <= 2.0 * Abs(r.f) < 2.0 * minStep
  {
    var step := SearchSteps(env, initZ, zRetract, dir);
    var pos := (m': Machine) => Along(dir, m.current, m'.current);
    SearchStepsTrack(env, initZ, zRetract, dir, m.current, e);
    ProbeLineLoopTracks(step, pos, e, zRetract, m, minStep, point, 0, 1.0, true, 0);
    ProbeLineLoopOutcome(step, m, minStep, point, 0, 1.0, true, 0);
    assert pos(m) == 0.0;
    ScanFromStart(e, minStep);
  }

  /** With a step of 8 along +X and the edge 4.37 from the start, the search ends at x = 4.375. */
  lemma ProbeLineEdgeScenario(env: Env, m: Machine, initZ: real, zRetract: real, point: Point3)
    requires m.current.x == 0.0 && zRetract >= 0.0 && Idle(m, zRetract)
    requires EdgeAt(env, initZ, zRetract, Dir(8.0, 0.0), m.current, 4.37 / 8.0)
    ensures var r := ProbeLineRun(env, m, initZ, CenterMinStep, zRetract, Dir(8.0, 0.0), point);
      r.found && r.point.x == 4.375 && Abs(r.point.x - 4.37) <= CenterMinStep
  {
    var dir := Dir(8.0, 0.0);
    var step := SearchSteps(env, initZ, zRetract, dir);
    var pos := (m': Machine) => Along(dir, m.current, m'.current);
    SearchStepsTrack(env, initZ, zRetract, dir, m.current, 4.37 / 8.0);
    ProbeLineLoopTracks(step, pos, 4.37 / 8.0, zRetract, m, CenterMinStep, point, 0, 1.0, true, 0);
    ProbeLineLoopOutcome(step, m, CenterMinStep, point, 0, 1.0, true, 0);
    assert pos(m) == 0.0;
    assert ScanLoop(4.37 / 8.0, CenterMinStep, 0.0, 0, 1.0, true, 0).s == 0.546875;
  }

  /**
   * An ideal pin edge: the probe, moving up, touches the pin's surface at
   * height `zSurface` and anywhere above it, over the offsets below `e` along
   * `dir` from `c0`. A move that crosses the surface passes through it on
   * its way to the end, where every move pauses.
   */
  function PinEdge(dir: Dir, c0: Position, e: real, zSurface: real): Env
  {
    Env((q: Position) => q.z >= zSurface && Along(dir, c0, q) < e,
        (a: Position, b: Position) => if a.z < zSurface <= b.z then [a.(z := zSurface), b] else [b, b])
  }

  /**
   * An ideal pin edge whose surface lies above the retract height and no
   * higher than the probing target is an edge in the sense of `EdgeAt`.
   */
  lemma PinEdgeIsEdge(dir: Dir, c0: Position, e: real, initZ: real, zRetract: real, zSurface: real)
    requires zRetract < zSurface <= initZ + ProbeLift
    ensures EdgeAt(PinEdge(dir, c0, e, zSurface), initZ, zRetract, dir, c0, e)
  {
    var env := PinEdge(dir, c0, e, zSurface);
    forall p: Position, f: real | p.z == zRetract
      ensures Touches(env, Reads(StepPlanner(env, p, Lateral(p, dir, f), initZ + ProbeLift))) <==> Along(dir, c0, Lateral(p, dir, f)) < e
    {
      var c1 := Lateral(p, dir, f);
      var c2 := c1.(z := initZ + ProbeLift);
      var cross := c1.(z := zSurface);
      var rs := Reads(StepPlanner(env, p, c1, initZ + ProbeLift));
      assert env.track(p, c1) == [c1, c1];
      assert env.track(c1, c2) == [cross, c2];
      assert rs == [p, c1, c1, cross];
      assert Along(dir, c0, cross) == Along(dir, c0, c1);
      if Along(dir, c0, c1) < e {
        assert env.contact(rs[3]);
      }
    }
  }

  /** For an ideal pin edge, `probe_line` from an idle machine below its surface converges as `ProbeLineConverges` says. */
  lemma ProbeLinePinEdge(m: Machine, initZ: real, minStep: real, zRetract: real, dir: Dir, point: Point3, e: real, zSurface: real)
    requires 0.0 < minStep <= 1.0 && 0.0 < e <= MaxSteps as real && Norm2(dir) != 0.0
    requires 0.0 <= zRetract < zSurface <= initZ + ProbeLift && Idle(m, zRetract)
    ensures var env := PinEdge(dir, m.current, e, zSurface);
      var r := ProbeLineRun(env, m, initZ, minStep, zRetract, dir, point);
      && r.found && r.point.x == r.m.current.x && r.point.y == r.m.current.y
      && Abs(Along(dir, m.current, r.m.current) - e) <= 2.0 * Abs(r.f) < 2.0 * minStep
  {
    PinEdgeIsEdge(dir, m.current, e, initZ, zRetract, zSurface);
    ProbeLineConverges(PinEdge(dir, m.current, e, zSurface), m, initZ, minStep, zRetract, dir, point, e);
  }

  /**
   * The edge scenario for an ideal pin edge 4.37 from the start, its surface
   * at the height z0 = 5 the first probe found, searched as `center_circle`
   * does from z0 minus a clearance of 1.
   */
  lemma ProbeLineEdgeScenarioMet()
    ensures var home := Position(0.0, 0.0, 4.0, 0.0);
      var env := PinEdge(Dir(8.0, 0.0), home, 4.37 / 8.0, 5.0);
      var m := Machine(home, 0.0, Planner(home, home, []), []);
      var r := ProbeLineRun(env, m, 5.0, CenterMinStep, 4.0, Dir(8.0, 0.0), Point3(0.0, 0.0, 0.0));
      r.found && r.point.x == 4.375
  {
    var home := Position(0.0, 0.0, 4.0, 0.0);
    PinEdgeIsEdge(Dir(8.0, 0.0), home, 4.37 / 8.0, 5.0, 4.0, 5.0);
    ProbeLineEdgeScenario(PinEdge(Dir(8.0, 0.0), home, 4.37 / 8.0, 5.0),
                          Machine(home, 0.0, Planner(home, home, []), []), 5.0, 4.0, Point3(0.0, 0.0, 0.0));
  }

  /**
   * Where edge search `j` starts: the initial centre for searches 0 and 1;
   * from search 2 on, x is the mean of points 0 and 1; from search 4 on, y is
   * the mean of points 2 and 3; z and e never change.
   */
  function ExpectedStart(j: nat, c0: Position, points: seq<Point3>): Position
    requires |points| == 6
  {
    if j <= 1 then c0
    else if j <= 3 then c0.(x := (points[0].x + points[1].x) * 0.5)
    else c0.(x := (points[0].x + points[1].x) * 0.5, y := (points[2].y + points[3].y) * 0.5)
  }

  /**
   * Every edge search starts from the probing centre of its turn (never from
   * where the previous search ended), and earlier points are left alone.
   */
  lemma {:induction false} CenterLoopStarts(search: (Machine, nat, Position, Point3) -> LineOutcome, m: Machine,
                                            i: nat, center: Position, points: seq<Point3>, c0: Position)
    requires i <= 6 && |points| == 6
    requires center == ExpectedStart(i, c0, points)
    ensures var r := CenterLoop(search, m, i, center, points);
      && |r.starts| == 6 - i
      && (forall j :: 0 <= j < i ==> r.points[j] == points[j])
      && (forall j :: 0 <= j < 6 - i ==> r.starts[j] == ExpectedStart(i + j, c0, r.points))
    decreases 6 - i
  {
    if i < 6 {
      var line := search(m, i, center, points[i]);
      var points' := points[i := line.point];
      var center' := NextCenter(i, center, points');
      CenterLoopStarts(search, line.m, i + 1, center', points', c0);
      var rest := CenterLoop(search, line.m, i + 1, center', points');
      assert center == ExpectedStart(i, c0, rest.points);
      var r := CenterLoop(search, m, i, center, points);
      assert r.starts == [center] + rest.starts;
      forall j | 0 <= j < 6 - i ensures r.starts[j] == ExpectedStart(i + j, c0, r.points) {
        if j > 0 {
          assert r.starts[j] == rest.starts[j - 1];
        }
      }
    }
  }




  /** One edge search of `CenterLoop`, for a search whose result is already known. */
  lemma CenterLoopUnfold(search: (Machine, nat, Position, Point3) -> LineOutcome, m: Machine, i: nat,
                         center: Position, points: seq<Point3>, line: LineOutcome)
    requires i < 6 && |points| == 6
    requires line == search(m, i, center, points[i])
    ensures var r := CenterLoop(search, m, i, center, points);
      var rest := CenterLoop(search, line.m, i + 1, NextCenter(i, center, points[i := line.point]),
                             points[i := line.point]);
      r.m == rest.m && r.points == rest.points
  {
  }

  /** A search that `Centers` agrees with `CenterSearches` everywhere. */
  lemma CentersPointwise(search: (Machine, nat, Position, Point3) -> LineOutcome, env: Env, cfg: Config,
                         z0: real, z0Cleared: real)
    requires Centers(search, env, cfg, z0, z0Cleared)
    ensures forall m: Machine, i: nat, c: Position, p: Point3 ::
      search(m, i, c, p) == CenterSearches(env, cfg, z0, z0Cleared)(m, i, c, p)
  {
    forall m: Machine, i: nat, c: Position, p: Point3
      ensures search(m, i, c, p) == CenterSearches(env, cfg, z0, z0Cleared)(m, i, c, p)
    {
      assert CenterSearches(env, cfg, z0, z0Cleared)(m, i, c, p) == CenterSearch(env, cfg, z0, z0Cleared, m, i, c, p);
    }
  }

  /** The centring loop depends on the search only through its values. */
  lemma {:induction false} CenterLoopCongruent(search: (Machine, nat, Position, Point3) -> LineOutcome,
                                               search': (Machine, nat, Position, Point3) -> LineOutcome,
                                               m: Machine, i: nat, center: Position, points: seq<Point3>)
    requires i <= 6 && |points| == 6
    requires forall m': Machine, j: nat, c: Position, p: Point3 :: search(m', j, c, p) == search'(m', j, c, p)
    ensures CenterLoop(search, m, i, center, points) == CenterLoop(search', m, i, center, points)
    decreases 6 - i
  {
    if i < 6 {
      var line := search(m, i, center, points[i]);
      var points' := points[i := line.point];
      CenterLoopCongruent(search, search', line.m, i + 1, NextCenter(i, center, points'), points');
    }
  }

  /**
   * `center_circle`: without contact on the first probe it reports the error
   * and does nothing more; otherwise it emits exactly points 2..5, in index
   * order, and every search starts from the probing centre of its turn.
   */
  lemma CenterCircleOutcome(env: Env, cfg: Config, m: Machine, garbage: seq<Point3>)
    requires |garbage| == 6
    ensures var probed := ProbeZRun(env, m.(lastProbedZ := 0.0), cfg.zMaxPos, -1.0, 1.0);
      var r := CenterCircleRun(env, cfg, m, garbage);
      && (!probed.1 ==> r == CircleOutcome(probed.0, garbage, [], [FirstProbeNotTouched]))
      && (probed.1 ==>
            && r.messages == [CalibrationPoints(PrintedPoints(r.points[2..6]))]
            && |r.starts| == 6
            && forall j :: 0 <= j < 6 ==> r.starts[j] == ExpectedStart(j, probed.0.current, r.points))
  {
    var probed := ProbeZRun(env, m.(lastProbedZ := 0.0), cfg.zMaxPos, -1.0, 1.0);
    if probed.1 {
      CenterLoopStarts(CenterSearches(env, cfg, probed.0.lastProbedZ, Cleared(cfg, probed.0.lastProbedZ)), probed.0, 0, probed.0.current, garbage,
                       probed.0.current);
    }
  }

  // ---------------------------------------------------------------------------
  // Serial output of the calibration points

  /** The size of `center_circle`'s `pos_string` buffer, terminating zero included. */
  const PosStringSize: nat := 6

  function DigitChar(d: nat): char
    requires d < 10
  {
    (48 + d) as char
  }

  function DigitValue(c: char): nat
  {
    if '0' <= c <= '9' then (c as int - 48) as nat else 0
  }

  lemma DigitRoundTrip(d: nat)
    requires d < 10
    ensures DigitValue(DigitChar(d)) == d
  {
  }

  /** The decimal digits of `n`, without leading zeros. */
  function Decimal(n: nat): (r: string)
    ensures |r| >= 1 && (|r| == 1 <==> n < 10)
    ensures forall i :: 0 <= i < |r| ==> '0' <= r[i] <= '9'
    decreases n
  {
    if n < 10 then [DigitChar(n)] else Decimal(n / 10) + [DigitChar(n % 10)]
  }

  /** The number a string of decimal digits denotes. */
  function DecimalValue(s: string): nat
  {
    if s == [] then 0 else 10 * DecimalValue(s[..|s| - 1]) + DigitValue(s[|s| - 1])
  }

  lemma {:induction false} DecimalRoundTrip(n: nat)
    ensures DecimalValue(Decimal(n)) == n
    decreases n
  {
    if n >= 10 {
      DecimalRoundTrip(n / 10);
      var s := Decimal(n);
      assert s[..|s| - 1] == Decimal(n / 10);
    }
  }

  /** The three decimals of a number of thousandths below 1000, leading zeros kept. */
  function Thousandths(r: nat): (s: string)
    requires r < 1000
    ensures |s| == 3
  {
    [DigitChar(r / 100), DigitChar(r / 10 % 10), DigitChar(r % 10)]
  }

  lemma ThousandthsValue(r: nat)
    requires r < 1000
    ensures DecimalValue(Thousandths(r)) == r
  {
    var s := Thousandths(r);
    DigitRoundTrip(r / 100);
    DigitRoundTrip(r / 10 % 10);
    DigitRoundTrip(r % 10);
    assert s[..2][..1] == [s[0]] && s[..2][..0] == [];
    assert DecimalValue([s[0]]) == r / 100;
    assert DecimalValue(s[..2]) == 10 * (r / 100) + r / 10 % 10;
    assert DecimalValue(s) == 10 * DecimalValue(s[..2]) + r % 10;
  }

  /** The magnitude of `x` in thousandths, rounded to the nearest with halves to even, as printf does. */
  function Milli(x: real): (n: nat)
    ensures Abs(n as real / 1000.0 - Abs(x)) <= 0.0005
  {
    var r := PythonNumeric.RoundHalfEven(Abs(x) * 1000.0);
    r as nat
  }

  /** `printf("%.3f", x)`: a minus sign for a negative `x`, the integer part, a point and three decimals. */
  function Fixed3(x: real): string
  {
    var n := Milli(x);
    (if x < 0.0 then "-" else "") + Decimal(n / 1000) + "." + Thousandths(n % 1000)
  }

  /** The value of digits, a point and three decimals. */
  function UnsignedValue(body: string): real
  {
    if |body| < 4 then 0.0
    else (1000 * DecimalValue(body[..|body| - 4]) + DecimalValue(body[|body| - 3..])) as real / 1000.0
  }

  /** The value of a text of the form printed by "%.3f": an optional minus sign, digits, a point and three digits. */
  function FixedValue(s: string): real
  {
    if |s| > 0 && s[0] == '-' then -UnsignedValue(s[1..]) else UnsignedValue(s)
  }

  /** A sign, the digits of `q`, a point and the three decimals of `r` read back as the signed number of thousandths. */
  lemma FixedValueOf(neg: bool, q: nat, r: nat)
    requires r < 1000
    ensures var body := Decimal(q) + "." + Thousandths(r);
      FixedValue((if neg then "-" else "") + body) == (if neg then -1.0 else 1.0) * (1000 * q + r) as real / 1000.0
  {
    var d := Decimal(q);
    var body := d + "." + Thousandths(r);
    assert body[..|body| - 4] == d && body[|body| - 3..] == Thousandths(r);
    DecimalRoundTrip(q);
    ThousandthsValue(r);
    assert UnsignedValue(body) == (1000 * q + r) as real / 1000.0;
    var s := (if neg then "-" else "") + body;
    if neg {
      assert s[0] == '-' && s[1..] == body;
    } else {
      assert s == body;
      assert s[0] == d[0] != '-';
    }
  }

  /** The "%.3f" text reads back as `x` rounded to three decimals, within half a thousandth of `x`. */
  lemma Fixed3RoundTrip(x: real)
    ensures FixedValue(Fixed3(x)) == (if x < 0.0 then -1.0 else 1.0) * Milli(x) as real / 1000.0
    ensures Abs(FixedValue(Fixed3(x)) - x) <= 0.0005
  {
    var n := Milli(x);
    var sign := if x < 0.0 then "-" else "";
    var body := Decimal(n / 1000) + "." + Thousandths(n % 1000);
    assert Fixed3(x) == sign + body;
    FixedValueOf(x < 0.0, n / 1000, n % 1000);
    assert 1000 * (n / 1000) + n % 1000 == n;
  }

  /** `snprintf(buf, size, ...)` of the text `s`: at most `size - 1` characters fit before the terminating zero. */
  function Snprintf(s: string, size: nat): (r: string)
    ensures size == 0 ==> r == []
    ensures size > 0 ==> |r| < size
    ensures |r| <= |s| && r == s[..|r|]
    ensures size > 0 ==> (r == s <==> |s| < size)
  {
    if |s| < size then s else if size == 0 then [] else s[..size - 1]
  }

  /** A coordinate as `center_circle` prints it: "%.3f" into the six bytes of `pos_string`. */
  function PosString(x: real): string
  {
    Snprintf(Fixed3(x), PosStringSize)
  }

  /** The printed form of each of the points, in order. */
  function PrintedPoints(ps: seq<Point3>): (r: seq<PrintedPoint>)
    ensures |r| == |ps|
  {
    if ps == [] then []
    else PrintedPoints(ps[..|ps| - 1]) + [PrintedPoint(PosString(ps[|ps| - 1].x), PosString(ps[|ps| - 1].y), PosString(ps[|ps| - 1].z))]
  }

  /** Printed point `k` holds the texts of point `k`'s coordinates as `pos_string` holds them. */
  lemma {:induction false} PrintedPointsAt(ps: seq<Point3>, k: nat)
    requires k < |ps|
    ensures PrintedPoints(ps)[k] == PrintedPoint(PosString(ps[k].x), PosString(ps[k].y), PosString(ps[k].z))
    decreases |ps|
  {
    if k < |ps| - 1 {
      PrintedPointsAt(ps[..|ps| - 1], k);
    }
  }

  lemma PrintedPointsAppend(ps: seq<Point3>, p: Point3)
    ensures PrintedPoints(ps + [p]) == PrintedPoints(ps) + [PrintedPoint(PosString(p.x), PosString(p.y), PosString(p.z))]
  {
    assert (ps + [p])[..|ps|] == ps;
  }

  /** The "%.3f" text has one digit before the point exactly when `x` is not negative and rounds below 10. */
  lemma Fixed3Length(x: real)
    ensures |Fixed3(x)| >= 5
    ensures |Fixed3(x)| == 5 <==> 0.0 <= x && Milli(x) < 10000
  {
  }

  /** A coordinate is printed whole exactly when it is not negative and rounds below 10; otherwise it is cut to five characters. */
  lemma PosStringComplete(x: real)
    ensures PosString(x) == Fixed3(x) <==> 0.0 <= x && Milli(x) < 10000
    ensures PosString(x) == Fixed3(x)[..5] && |PosString(x)| == 5
  {
    Fixed3Length(x);
  }

  /** The text of a coordinate whose magnitude is the whole number of thousandths `n`. */
  lemma Fixed3Of(x: real, n: nat)
    requires Abs(x) * 1000.0 == n as real
    ensures Fixed3(x) == (if x < 0.0 then "-" else "") + Decimal(n / 1000) + "." + Thousandths(n % 1000)
  {
    PythonNumeric.RoundOfInteger(n);
  }

  /** The text of a coordinate `x` with `|x| = q + r/1000`, cut to the five characters `pos_string` holds. */
  lemma PosStringOf(x: real, q: nat, r: nat)
    requires r < 1000 && Abs(x) * 1000.0 == (1000 * q + r) as real
    ensures PosString(x) == ((if x < 0.0 then "-" else "") + Decimal(q) + "." + Thousandths(r))[..5]
  {
    var n := 1000 * q + r;
    assert n / 1000 == q && n % 1000 == r;
    Fixed3Of(x, n);
    PosStringComplete(x);
  }

  /** Coordinates from 10 on, and negative ones, lose digits: 12.345 prints as "12.34", 123.456 as "123.4", -1.234 as "-1.23". */
  lemma PosStringTruncates()
    ensures PosString(12.345) == "12.34" != Fixed3(12.345)
    ensures PosString(123.456) == "123.4"
    ensures PosString(-1.234) == "-1.23"
  {
    PrintsTwelve();
    PrintsHundred();
    PrintsNegative();
    Fixed3Length(12.345);
  }

  lemma PrintsTwelve()
    ensures PosString(12.345) == "12.34"
  {
    assert Decimal(1) == "1";
    assert Decimal(12) == "12";
    assert Thousandths(345) == "345";
    PosStringOf(12.345, 12, 345);
    assert ("12" + "." + "345")[..5] == "12.34";
  }

  lemma PrintsHundred()
    ensures PosString(123.456) == "123.4"
  {
    assert Decimal(1) == "1";
    assert Decimal(12) == "12";
    assert Decimal(123) == "123";
    assert Thousandths(456) == "456";
    PosStringOf(123.456, 123, 456);
    assert ("123" + "." + "456")[..5] == "123.4";
  }

  lemma PrintsNegative()
    ensures PosString(-1.234) == "-1.23"
  {
    assert Decimal(1) == "1";
    assert Thousandths(234) == "234";
    PosStringOf(-1.234, 1, 234);
    assert ("-" + "1" + "." + "234")[..5] == "-1.23";
  }

  /**
   * With room for the whole text, as intended, a coordinate of magnitude below
   * 1000 fits a 10-byte buffer and reads back within half a thousandth.
   */
  lemma WidePosStringExact(x: real)
    requires Abs(x) < 1000.0
    ensures Snprintf(Fixed3(x), 10) == Fixed3(x)
    ensures Abs(FixedValue(Snprintf(Fixed3(x), 10)) - x) <= 0.0005
  {
    var n := Milli(x);
    assert n <= 1000000;
    var q := n / 1000;
    assert q <= 1000;
    assert |Decimal(q)| <= 4 by {
      if q >= 10 {
        assert q / 10 <= 100;
        if q / 10 >= 10 {
          assert q / 10 / 10 <= 10;
          assert |Decimal(q / 10 / 10)| <= 2;
        }
      }
    }
    Fixed3RoundTrip(x);
  }

  // ---------------------------------------------------------------------------
  // The firmware module, with Marlin's globals as fields

  class ProboterModule {
    var currentPosition: Position
    var lastProbedZ: real
    var planner: Planner
    var motion: seq<Event>
    var serial: seq<Message>
    const env: Env
    const cfg: Config

    function State(): Machine
      reads this
    {
      Machine(currentPosition, lastProbedZ, planner, motion)
    }

    constructor (env: Env, cfg: Config, home: Position)
      ensures this.env == env && this.cfg == cfg
      ensures State() == Machine(home, 0.0, Planner(home, home, []), [])
      ensures serial == []
    {
      this.env := env;
      this.cfg := cfg;
      currentPosition := home;
      lastProbedZ := 0.0;
      planner := Planner(home, home, []);
      motion := [];
      serial := [];
    }

    method LineToCurrentPosition()
      modifies this
      ensures State() == LineToCurrent(env, old(State())) && serial == old(serial)
    {
      motion := motion + [LineTo(currentPosition)];
      planner := planner.(target := currentPosition,
                          pending := planner.pending + env.track(planner.target, currentPosition));
    }

    method QuickStopPlanner()
      modifies this
      ensures State() == QuickStopped(old(State())) && serial == old(serial)
    {
      motion := motion + [QuickStop];
      planner := Planner(planner.stepper, planner.stepper, []);
    }

    method SynchronizePlanner()
      modifies this
      ensures State() == Synchronized(old(State())) && serial == old(serial)
    {
      motion := motion + [Synchronize];
      planner := Planner(planner.target, planner.target, []);
    }

    method SetCurrentFromSteppersZ()
      modifies this
      ensures State() == ResyncedZ(old(State())) && serial == old(serial)
    {
      motion := motion + [ResyncZ];
      currentPosition := currentPosition.(z := planner.stepper.z);
    }

    method SyncPlannerPosition()
      modifies this
      ensures State() == PlanSynced(old(State())) && serial == old(serial)
    {
      motion := motion + [SyncPlanPosition];
      planner := planner.(target := currentPosition);
    }

    /** `probe_z`; `feed` is accepted and, as in the firmware, not used. */
    method ProbeZ(zMax: real, zRetract: real, zClearance: real, feed: real) returns (triggered: bool)
      modifies this
      ensures (State(), triggered) == ProbeZRun(env, old(State()), zMax, zRetract, zClearance)
      ensures serial == old(serial)
    {
      currentPosition := currentPosition.(z := zMax);
      LineToCurrentPosition();
      ghost var m1 := State();
      triggered := PollUntilContact();
      ghost var polled := (State(), triggered);
      QuickStopPlanner();
      SynchronizePlanner();
      SetCurrentFromSteppersZ();
      SyncPlannerPosition();
      ghost var m3 := State();
      assert m3 == PlanSynced(ResyncedZ(Synchronized(QuickStopped(polled.0))));
      if zRetract >= 0.0 {
        currentPosition := currentPosition.(z := zRetract);
      } else {
        currentPosition := currentPosition.(z := currentPosition.z - zClearance);
      }
      assert State() == m3.(current := m3.current.(z := RetractZ(m3.current.z, zRetract, zClearance)));
      LineToCurrentPosition();
      SynchronizePlanner();
      assert m1 == LineToCurrent(env, old(State()).(current := old(State()).current.(z := zMax)));
      assert polled == Poll(env, m1, env.contact(m1.planner.stepper));
    }

    /** The polling loop of `probe_z`: run queued moves until contact or until the queue is empty. */
    method PollUntilContact() returns (triggered: bool)
      modifies this
      ensures (State(), triggered) == Poll(env, old(State()), env.contact(old(planner).stepper))
      ensures serial == old(serial)
    {
      ghost var polled := Poll(env, State(), env.contact(planner.stepper));
      triggered := env.contact(planner.stepper);
      while planner.pending != [] && !triggered
        invariant Poll(env, State(), triggered) == polled
        invariant serial == old(serial)
        decreases |planner.pending|
      {
        triggered := env.contact(planner.stepper);
        if triggered {
          lastProbedZ := planner.stepper.z;
        }
        planner := planner.(stepper := planner.pending[0], pending := planner.pending[1..]);
      }
    }

    /** The body of the `probe_line` loop up to the probe: step laterally, move there, probe. */
    method StepAndProbe(ghost step: (Machine, real) -> (Machine, bool), initZ: real, zRetract: real, dir: Dir, f: real)
      returns (triggered: bool)
      requires Searches(step, env, initZ, zRetract, dir)
      modifies this
      ensures (State(), triggered) == step(old(State()), f)
      ensures serial == old(serial)
    {
      ghost var m0 := State();
      var x, y := currentPosition.x + dir.dx * f, currentPosition.y + dir.dy * f;
      assert m0.current == currentPosition;
      assert Stepped(m0, dir, f).current == currentPosition.(x := x, y := y);
      currentPosition := currentPosition.(x := x, y := y);
      assert State() == Stepped(m0, dir, f);
      LineToCurrentPosition();
      triggered := ProbeZ(initZ + ProbeLift, zRetract, -1.0, 0.0);
      assert (State(), triggered) == SearchStep(env, initZ, zRetract, dir, m0, f);
    }

    /** `probe_line`; `point` is the caller's `out_probe_point` before the call. */
    method ProbeLine(initZ: real, minStep: real, zRetract: real, dir: Dir, point: Point3)
      returns (found: bool, out: Point3)
      requires minStep > 0.0
      modifies this
      ensures var r := ProbeLineRun(env, old(State()), initZ, minStep, zRetract, dir, point);
        State() == r.m && out == r.point && found == r.found
      ensures serial == old(serial)
    {
      assert Searches(SearchSteps(env, initZ, zRetract, dir), env, initZ, zRetract, dir);
      ghost var step: (Machine, real) -> (Machine, bool) :| Searches(step, env, initZ, zRetract, dir);
      ghost var whole := ProbeLineLoop(step, State(), minStep, point, 0, 1.0, true, 0);
      var stepCounter: nat := 0;
      var f := 1.0;
      var lastTriggered := true;
      ghost var k: nat := 0;
      out := point;
      while stepCounter < MaxSteps && Abs(f) >= minStep
        invariant stepCounter <= MaxSteps && f == StepFactor(k)
        invariant ProbeLineLoop(step, State(), minStep, out, stepCounter, f, lastTriggered, k) == whole
        invariant serial == old(serial)
        decreases HalvingBound(minStep) - k, MaxSteps - stepCounter
      {
        ghost var before := State();
        var triggered := StepAndProbe(step, initZ, zRetract, dir, f);
        ProbeLineLoopUnfold(step, before, minStep, out, stepCounter, f, lastTriggered, k, State(), triggered);
        out := Point3(currentPosition.x, currentPosition.y, lastProbedZ);
        if triggered != lastTriggered {
          f := -0.5 * f;
          stepCounter := 0;
          k := k + 1;
        } else {
          stepCounter := stepCounter + 1;
        }
        lastTriggered := triggered;
      }
      found := stepCounter < MaxSteps;
      SearchesPointwise(step, env, initZ, zRetract, dir);
      ProbeLineLoopCongruent(step, SearchSteps(env, initZ, zRetract, dir), old(State()), minStep, point, 0, 1.0, true, 0);
    }

    /** `center_circle`; the uninitialised `points` buffer starts as six zero points. */
    method CenterCircle()
      modifies this
      ensures var r := CenterCircleRun(env, cfg, old(State()), ZeroPoints());
        State() == r.m && serial == old(serial) + r.messages
    {
      lastProbedZ := 0.0;
      assert State() == old(State()).(lastProbedZ := 0.0);
      var triggered := ProbeZ(cfg.zMaxPos, -1.0, 1.0, 0.0);
      var z0 := lastProbedZ;
      if !triggered {
        serial := serial + [FirstProbeNotTouched];
        return;
      }
      var z0Cleared := Cleared(cfg, z0);
      assert Centers(CenterSearches(env, cfg, z0, z0Cleared), env, cfg, z0, z0Cleared);
      ghost var search :| Centers(search, env, cfg, z0, z0Cleared);
      ghost var m1 := State();
      var points := SearchEdges(search, z0, z0Cleared);
      var printed := PrintPoints(points);
      serial := serial + [CalibrationPoints(printed)];
      CentersPointwise(search, env, cfg, z0, z0Cleared);
      CenterLoopCongruent(search, CenterSearches(env, cfg, z0, z0Cleared), m1, 0, m1.current, ZeroPoints());
    }

    /** The printing loop of `center_circle`: each coordinate of points 2..5 rendered into `pos_string`. */
    method PrintPoints(points: seq<Point3>) returns (printed: seq<PrintedPoint>)
      requires |points| == 6
      ensures printed == PrintedPoints(points[2..6])
    {
      printed := [];
      for i := 2 to 6
        invariant printed == PrintedPoints(points[2..i])
      {
        var x := PosString(points[i].x);
        var y := PosString(points[i].y);
        var z := PosString(points[i].z);
        assert points[2..i + 1] == points[2..i] + [points[i]];
        PrintedPointsAppend(points[2..i], points[i]);
        printed := printed + [PrintedPoint(x, y, z)];
      }
    }

    /** The six edge searches of `center_circle`, after the first probe found the pin top at `z0`. */
    method SearchEdges(ghost search: (Machine, nat, Position, Point3) -> LineOutcome, z0: real, z0Cleared: real)
      returns (points: seq<Point3>)
      requires Centers(search, env, cfg, z0, z0Cleared)
      modifies this
      ensures var r := CenterLoop(search, old(State()), 0, old(State()).current, ZeroPoints());
        State() == r.m && points == r.points
      ensures serial == old(serial)
    {
      ghost var whole := CenterLoop(search, State(), 0, currentPosition, ZeroPoints());
      points := ZeroPoints();
      var stepDirs := StepDirs(cfg.probingStep);
      var probingCenter := currentPosition;
      for i := 0 to 6
        invariant |points| == 6
        invariant var rest := CenterLoop(search, State(), i, probingCenter, points);
          rest.m == whole.m && rest.points == whole.points
        invariant serial == old(serial)
      {
        ghost var before := State();
        ghost var center := probingCenter;
        var p := EdgeSearch(search, z0, z0Cleared, i, probingCenter, points[i]);
        CenterLoopUnfold(search, before, i, probingCenter, points, search(before, i, probingCenter, points[i]));
        points := points[i := p];
        if i == 1 {
          probingCenter := probingCenter.(x := (points[0].x + points[1].x) * 0.5);
        }
        if i == 3 {
          probingCenter := probingCenter.(y := (points[2].y + points[3].y) * 0.5);
        }
        assert probingCenter == NextCenter(i, center, points);
      }
    }

    /** Edge search `i` of `center_circle`: move to the probing centre, then `probe_line` along direction `i`. */
    method EdgeSearch(ghost search: (Machine, nat, Position, Point3) -> LineOutcome, z0: real, z0Cleared: real,
                      i: nat, center: Position, point: Point3) returns (p: Point3)
      requires Centers(search, env, cfg, z0, z0Cleared) && i < 6
      modifies this
      ensures var line := search(old(State()), i, center, point);
        State() == line.m && p == line.point
      ensures serial == old(serial)
    {
      currentPosition := center;
      LineToCurrentPosition();
      ghost var m1 := State();
      assert m1 == LineToCurrent(env, old(State()).(current := center));
      var dir := StepDirs(cfg.probingStep)[i];
      var ok;
      ok, p := ProbeLine(z0, CenterMinStep, z0Cleared, dir, point);
      ghost var run := ProbeLineRun(env, m1, z0, CenterMinStep, z0Cleared, dir, point);
      assert State() == run.m && p == run.point;
      assert CenterSearch(env, cfg, z0, z0Cleared, old(State()), i, center, point) == run;
    }
  }

  function ZeroPoints(): (r: seq<Point3>)
    ensures |r| == 6
  {
    seq(6, _ => Point3(0.0, 0.0, 0.0))
  }
}
