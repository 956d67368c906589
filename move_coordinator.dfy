/**
 * Planning rules of the PROBoter's move coordinator: which destination maps
 * are acceptable, where the probes without a destination are parked, when two
 * probes' paths may meet on the x-axis, and the phases of the final drop.
 *
 * A destination map (a Python dict from probe to position) is an association
 * list in insertion order; a new key is appended at the end, as in a dict.
 */
module MoveCoordinator {
  import opened Wrappers
  import opened ProbeConfig
  import opened Sorting

  datatype Point = Point(x: real, y: real, z: real)

  /**
   * A probe: its id, its type, its current global position and the global z of
   * its local origin (where the probe's own coordinate system has z = 0).
   */
  datatype Probe = Probe(id: int, probeType: ProbeType, position: Point, originZ: real)

  /** One dict entry; a destination may be `None`. */
  datatype Entry = Entry(probe: Probe, dest: Option<Point>)
  type Assignment = seq<Entry>

  /** A dict entry whose destination is known to be present. */
  datatype Placement = Placement(probe: Probe, dest: Point)

  /** `ProbeMovement`: move a probe to a destination with a feed in mm/min. */
  datatype Movement = Movement(probe: Probe, destination: Point, feed: real)

  datatype Coordinator = Coordinator(
    probes: seq<Probe>,
    planeFeed: real,
    dropSpeed: real,
    softDropSpeed: real,
    softDropOffset: real,
    high2: real,
    high1: real,
    low: real,
    constraints: set<(Probe, Probe)>)

  const InvalidDestinations: Error := DomainError("InvalidDestinationsError")

  const DefaultPlaneSpeed: real := 3000.0
  const DefaultDropSpeed: real := 2000.0
  const DefaultSoftDropSpeed: real := 300.0
  const DefaultSoftDropOffset: real := 1.0

  /** x step between two parked probes (the literal 20.0 stands for it inside products). */
  const Delta: real := 20.0

  // ---------------------------------------------------------------------------
  // Utilities

  /** `None` bounds stand for negative and positive infinity. */
  function IsBetween(v: Point, left: Option<real>, right: Option<real>): (r: bool)
    ensures r <==> (forall l :: left == Some(l) ==> l <= v.x) && (forall h :: right == Some(h) ==> v.x < h)
  {
    (left.None? || left.value <= v.x) && (right.None? || v.x < right.value)
  }

  /** The interval is half open: the left bound is included, the right one is not. */
  lemma IsBetweenHalfOpen(v: Point, l: real)
    ensures IsBetween(v, Some(l), None) <==> l <= v.x
    ensures !IsBetween(v, Some(l), Some(v.x))
    ensures IsBetween(v, None, None)
  {
  }

  function OrderKey(p: Probe): int
  {
    ToOrderIndex(p.probeType)
  }

  function Min(a: real, b: real): real { if a <= b then a else b }
  function Max(a: real, b: real): real { if a >= b then a else b }
  function Abs(a: real): real { if a < 0.0 then -a else a }

  predicate Distinct<T(==)>(s: seq<T>)
  {
    forall a, b :: 0 <= a < b < |s| ==> s[a] != s[b]
  }

  // ---------------------------------------------------------------------------
  // Construction

  /** The highest global z of any probe's local origin: `max(...)` over the probes. */
  function MaxOriginZ(ps: seq<Probe>): (r: real)
    requires |ps| > 0
    ensures forall k :: 0 <= k < |ps| ==> ps[k].originZ <= r
    ensures exists k :: 0 <= k < |ps| && ps[k].originZ == r
  {
    if |ps| == 1 then ps[0].originZ
    else
      var rest := MaxOriginZ(ps[1..]);
      assert forall k :: 1 <= k < |ps| ==> ps[k] == ps[1..][k - 1];
      if ps[0].originZ >= rest then ps[0].originZ else rest
  }

  /** One x-ordering constraint for every pair of probes in sorted order. */
  function MakeConstraints(probes: seq<Probe>): (r: set<(Probe, Probe)>)
    ensures forall i, j :: 0 <= i < j < |probes| ==> (probes[i], probes[j]) in r
    ensures forall pr :: pr in r ==> exists i, j :: 0 <= i < j < |probes| && probes[i] == pr.0 && probes[j] == pr.1
  {
    set i, j | 0 <= i < j < |probes| :: (probes[i], probes[j])
  }

  /** The only constraint: the first probe of a pair is not right of the second. */
  predicate XOrdered(d1: Point, d2: Point)
  {
    d1.x <= d2.x
  }

  /**
   * The constructor: probes sorted by order index, safety levels from the
   * highest probe origin, default constraints. `max()` of no probes raises.
   */
  function NewCoordinator(probes: seq<Probe>, planeSpeed: real, dropSpeed: real,
                          softDropSpeed: real, softDropOffset: real): (r: Result<Coordinator>)
    ensures probes == [] <==> r == Err(ValueError)
    ensures r.Ok? ==> r.value.high1 == r.value.high2 + 5.0 && r.value.low == r.value.high1 + 3.0
    ensures r.Ok? ==> (forall k :: 0 <= k < |probes| ==> probes[k].originZ <= r.value.high2)
                      && (exists k :: 0 <= k < |probes| && probes[k].originZ == r.value.high2)
    ensures r.Ok? ==> multiset(r.value.probes) == multiset(probes) && SortedBy(r.value.probes, OrderKey)
    ensures r.Ok? ==> r.value.constraints == MakeConstraints(r.value.probes)
    ensures r.Ok? ==> r.value.planeFeed == planeSpeed && r.value.dropSpeed == dropSpeed
                      && r.value.softDropSpeed == softDropSpeed && r.value.softDropOffset == softDropOffset
  {
    if probes == [] then Err(ValueError)
    else
      var sorted := SortBy(probes, OrderKey);
      SortByFacts(probes, OrderKey);
      var high2 := MaxOriginZ(probes);
      Ok(Coordinator(sorted, planeSpeed, dropSpeed, softDropSpeed, softDropOffset,
                     high2, high2 + 5.0, high2 + 8.0, MakeConstraints(sorted)))
  }

  /** Parking height by probe type: P1 and P2 have their own levels, the outer probes the low one. */
  function SafeLevel(c: Coordinator, t: ProbeType): (z: real)
    ensures t == P1 ==> z == c.high1
    ensures t == P2 ==> z == c.high2
    ensures t != P1 && t != P2 ==> z == c.low
  {
    var z := c.low;
    var z := if t == P1 then c.high1 else z;
    if t == P2 then c.high2 else z
  }

  // ---------------------------------------------------------------------------
  // Destination maps

  function Keys(m: Assignment): (ks: seq<Probe>)
    ensures |ks| == |m| && forall k {:trigger ks[k]} :: 0 <= k < |m| ==> ks[k] == m[k].probe
  {
    seq(|m|, k requires 0 <= k < |m| => m[k].probe)
  }

  function PlacedKeys(ps: seq<Placement>): (ks: seq<Probe>)
    ensures |ks| == |ps| && forall k {:trigger ks[k]} :: 0 <= k < |ps| ==> ks[k] == ps[k].probe
  {
    seq(|ps|, k requires 0 <= k < |ps| => ps[k].probe)
  }

  /** `m[p]` for a key `p`: the destination of its entry; `None` for no entry. */
  function Dest(m: Assignment, p: Probe): Option<Point>
  {
    if m == [] then None
    else if m[0].probe == p then m[0].dest
    else Dest(m[1..], p)
  }

  /** `probe in m and m[probe] is not None`. */
  predicate Assigned(m: Assignment, p: Probe)
  {
    Dest(m, p).Some?
  }

  /** Whether each of the coordinator's probes, in sorted order, has a destination. */
  function Presence(c: Coordinator, m: Assignment): (f: seq<bool>)
    ensures |f| == |c.probes| && forall k :: 0 <= k < |f| ==> f[k] == Assigned(m, c.probes[k])
  {
    seq(|c.probes|, k requires 0 <= k < |c.probes| => Assigned(m, c.probes[k]))
  }

  /** No gap: an unassigned probe never lies between two assigned ones. */
  predicate Contiguous(f: seq<bool>)
  {
    forall i, j, k :: 0 <= i < j < k < |f| && f[i] && f[k] ==> f[j]
  }

  /** The `true` entries of `f` are exactly the indices in `[lo, hi)`. */
  predicate RunOf(f: seq<bool>, lo: int, hi: int)
  {
    0 <= lo <= hi <= |f| && forall k :: 0 <= k < |f| ==> (f[k] <==> lo <= k < hi)
  }

  /** The first index at or after `i` holding `b`, or `|f|`. */
  function FirstFrom(f: seq<bool>, i: nat, b: bool): (r: nat)
    requires i <= |f|
    ensures i <= r <= |f| && (r < |f| ==> f[r] == b)
    ensures forall k :: i <= k < r ==> f[k] != b
    decreases |f| - i
  {
    if i == |f| || f[i] == b then i else FirstFrom(f, i + 1, b)
  }

  /** Gap-free flags are exactly those whose `true` entries form one run. */
  lemma ContiguousIsRun(f: seq<bool>)
    ensures Contiguous(f) <==> exists lo, hi :: RunOf(f, lo, hi)
  {
    if Contiguous(f) {
      var lo := FirstFrom(f, 0, true);
      var hi := if lo == |f| then lo else FirstFrom(f, lo, false);
      forall k | 0 <= k < |f| ensures f[k] <==> lo <= k < hi {
        if hi < k {
          var atHi := f[hi];
          assert f[lo] && !atHi && (f[k] ==> atHi);
        }
      }
      assert RunOf(f, lo, hi);
    } else {
      var i, j, k :| 0 <= i < j < k < |f| && f[i] && f[k] && !f[j];
      forall lo, hi | 0 <= lo <= hi <= |f| ensures !RunOf(f, lo, hi) {
        var atJ := f[j];
        assert RunOf(f, lo, hi) ==> lo <= i && k < hi && atJ;
      }
    }
  }

  /** `_is_continuous`: one pass over the sorted probes with `started`/`stopped` flags. */
  method IsContinuous(c: Coordinator, m: Assignment) returns (r: bool)
    ensures r == Contiguous(Presence(c, m))
  {
    ghost var f := Presence(c, m);
    var started := false;
    var stopped := false;
    var i := 0;
    while i < |c.probes|
      invariant 0 <= i <= |c.probes|
      invariant started <==> exists a :: 0 <= a < i && f[a]
      invariant stopped <==> exists a, b :: 0 <= a < b < i && f[a] && !f[b]
      invariant Contiguous(f[..i])
    {
      var isThere := Assigned(m, c.probes[i]);
      if stopped && isThere {
        ghost var a, b :| 0 <= a < b < i && f[a] && !f[b];
        assert f[a] && f[i] && !f[b];
        return false;
      }
      if isThere {
        started := true;
      }
      if started && !isThere {
        stopped := true;
      }
      assert f[..i + 1] == f[..i] + [f[i]];
      i := i + 1;
    }
    assert f[..i] == f;
    return true;
  }

  /** The keys in probe order, with `sorted(..., key=to_order_index)`. */
  function SortedKeys(m: Assignment): seq<Probe>
  {
    SortBy(Keys(m), OrderKey)
  }

  /** Both probes have destinations, and these keep the x-order. */
  predicate InOrder(m: Assignment, p1: Probe, p2: Probe)
  {
    Dest(m, p1).Some? && Dest(m, p2).Some? && XOrdered(Dest(m, p1).value, Dest(m, p2).value)
  }

  /** A pair that is unconstrained, or constrained and in order. */
  predicate PairAllowed(c: Coordinator, m: Assignment, p1: Probe, p2: Probe)
  {
    (p1, p2) in c.constraints ==> InOrder(m, p1, p2)
  }

  predicate PairsValid(c: Coordinator, m: Assignment, ks: seq<Probe>)
  {
    forall i, j :: 0 <= i < j < |ks| ==> PairAllowed(c, m, ks[i], ks[j])
  }

  /**
   * `validate_destinations`: rejects a map that is not continuous, then checks
   * every constrained ordered pair of keys. A missing destination in a
   * constrained pair fails with `TypeError`, as indexing `None` does.
   */
  method ValidateDestinations(c: Coordinator, m: Assignment) returns (r: Result<()>)
    ensures r.Ok? <==> Contiguous(Presence(c, m)) && PairsValid(c, m, SortedKeys(m))
    ensures !Contiguous(Presence(c, m)) ==> r == Err(InvalidDestinations)
    ensures r.Err? ==> r.error == InvalidDestinations || r.error == TypeError
  {
    var continuous := IsContinuous(c, m);
    if !continuous {
      return Err(InvalidDestinations);
    }
    var ks := SortBy(Keys(m), OrderKey);
    var i := 0;
    while i < |ks|
      invariant 0 <= i <= |ks|
      invariant forall a, b :: 0 <= a < i && a < b < |ks| ==> PairAllowed(c, m, ks[a], ks[b])
    {
      var d1 := Dest(m, ks[i]);
      var j := i + 1;
      while j < |ks|
        invariant i + 1 <= j <= |ks|
        invariant forall b :: i < b < j ==> PairAllowed(c, m, ks[i], ks[b])
      {
        var d2 := Dest(m, ks[j]);
        if (ks[i], ks[j]) in c.constraints {
          if d1.None? || d2.None? {
            assert !PairAllowed(c, m, ks[i], ks[j]);
            return Err(TypeError);
          }
          if !(d1.value.x <= d2.value.x) {
            assert !PairAllowed(c, m, ks[i], ks[j]);
            return Err(InvalidDestinations);
          }
        }
        j := j + 1;
      }
      i := i + 1;
    }
    return Ok(());
  }

  lemma {:induction false} AtMostOnce<T>(s: seq<T>)
    requires Distinct(s)
    ensures forall x :: multiset(s)[x] <= 1
  {
    if s != [] {
      assert Distinct(s[1..]) by {
        forall a, b | 0 <= a < b < |s[1..]| ensures s[1..][a] != s[1..][b] {
          assert s[1..][a] == s[a + 1] && s[1..][b] == s[b + 1];
        }
      }
      AtMostOnce(s[1..]);
      assert s == [s[0]] + s[1..];
      assert s[0] !in s[1..] by {
        forall b | 0 <= b < |s[1..]| ensures s[1..][b] != s[0] {
          assert s[1..][b] == s[b + 1];
        }
      }
    }
  }

  lemma TwoCopies<T>(t: seq<T>, a: int, b: int)
    requires 0 <= a < b < |t| && t[a] == t[b]
    ensures multiset(t)[t[a]] >= 2
  {
    assert t == t[..a] + [t[a]] + t[a + 1..b] + [t[b]] + t[b + 1..];
  }

  /** Reordering a duplicate-free sequence keeps it duplicate-free. */
  lemma DistinctPermutation<T>(s: seq<T>, t: seq<T>)
    requires Distinct(s) && multiset(s) == multiset(t)
    ensures Distinct(t)
  {
    AtMostOnce(s);
    forall a, b | 0 <= a < b < |t| ensures t[a] != t[b] {
      if t[a] == t[b] {
        TwoCopies(t, a, b);
      }
    }
  }

  /** Probes of a sorted duplicate-type sequence with increasing keys sit in increasing positions. */
  lemma SortedPositions(probes: seq<Probe>, p: Probe, q: Probe)
    requires SortedBy(probes, OrderKey)
    requires p in probes && q in probes && OrderKey(p) < OrderKey(q)
    ensures exists i, j :: 0 <= i < j < |probes| && probes[i] == p && probes[j] == q
  {
    var i :| 0 <= i < |probes| && probes[i] == p;
    var j :| 0 <= j < |probes| && probes[j] == q;
    assert i < j;
  }

  /** The sorted keys are the map's keys, reordered, still duplicate-free. */
  lemma SortedKeysFacts(m: Assignment)
    requires Distinct(Keys(m))
    ensures var ks := SortedKeys(m);
      |ks| == |m| && SortedBy(ks, OrderKey) && Distinct(ks) && forall i :: 0 <= i < |ks| ==> ks[i] in Keys(m)
  {
    var ks := SortedKeys(m);
    SortByFacts(Keys(m), OrderKey);
    DistinctPermutation(Keys(m), ks);
    forall i | 0 <= i < |ks| ensures ks[i] in Keys(m) {
      assert ks[i] in multiset(ks);
    }
  }

  /** Two different probes of a coordinator with one probe per type are constrained in key order. */
  lemma ConstrainedPair(c: Coordinator, p: Probe, q: Probe)
    requires c.constraints == MakeConstraints(c.probes) && SortedBy(c.probes, OrderKey)
    requires forall a, b :: 0 <= a < b < |c.probes| ==> c.probes[a].probeType != c.probes[b].probeType
    requires p in c.probes && q in c.probes && p != q && OrderKey(p) <= OrderKey(q)
    ensures (p, q) in c.constraints
  {
    var a :| 0 <= a < |c.probes| && c.probes[a] == p;
    var b :| 0 <= b < |c.probes| && c.probes[b] == q;
    assert p.probeType != q.probeType by {
      assert a < b ==> c.probes[a].probeType != c.probes[b].probeType;
      assert b < a ==> c.probes[b].probeType != c.probes[a].probeType;
    }
    OrderIndexInjective(p.probeType, q.probeType);
    SortedPositions(c.probes, p, q);
  }

  /**
   * For a map over the coordinator's own probes, one per type, every ordered
   * pair of sorted keys is constrained: validation then demands a destination
   * for every key and x-order from left to right along the probe order.
   */
  lemma ValidatePairsOrdered(c: Coordinator, m: Assignment)
    requires c.constraints == MakeConstraints(c.probes) && SortedBy(c.probes, OrderKey)
    requires forall a, b :: 0 <= a < b < |c.probes| ==> c.probes[a].probeType != c.probes[b].probeType
    requires Distinct(Keys(m)) && forall k :: 0 <= k < |m| ==> m[k].probe in c.probes
    ensures var ks := SortedKeys(m);
      PairsValid(c, m, ks) <==> forall i, j :: 0 <= i < j < |ks| ==> InOrder(m, ks[i], ks[j])
  {
    var ks := SortedKeys(m);
    SortedKeysFacts(m);
    forall i | 0 <= i < |ks| ensures ks[i] in c.probes {
      var k :| 0 <= k < |m| && Keys(m)[k] == ks[i];
      assert m[k].probe == ks[i];
    }
    forall i, j | 0 <= i < j < |ks|
      ensures PairAllowed(c, m, ks[i], ks[j]) <==> InOrder(m, ks[i], ks[j])
    {
      ConstrainedPair(c, ks[i], ks[j]);
    }
  }

  // ---------------------------------------------------------------------------
  // Parking the remaining probes

  predicate AllAssigned(m: Assignment)
  {
    forall k :: 0 <= k < |m| ==> m[k].dest.Some?
  }

  function Placements(m: Assignment): (ps: seq<Placement>)
    requires AllAssigned(m)
    ensures |ps| == |m| && forall k {:trigger ps[k]} :: 0 <= k < |m| ==> ps[k] == Placement(m[k].probe, m[k].dest.value)
  {
    seq(|m|, k requires 0 <= k < |m| => Placement(m[k].probe, m[k].dest.value))
  }

  /** `min()` of the destinations' x coordinates. */
  function MinX(ps: seq<Placement>): (r: real)
    requires |ps| > 0
    ensures forall k :: 0 <= k < |ps| ==> r <= ps[k].dest.x
    ensures exists k :: 0 <= k < |ps| && ps[k].dest.x == r
  {
    if |ps| == 1 then ps[0].dest.x
    else
      var rest := MinX(ps[1..]);
      assert forall k :: 1 <= k < |ps| ==> ps[k] == ps[1..][k - 1];
      if ps[0].dest.x <= rest then ps[0].dest.x else rest
  }

  /** `max()` of the destinations' x coordinates. */
  function MaxX(ps: seq<Placement>): (r: real)
    requires |ps| > 0
    ensures forall k :: 0 <= k < |ps| ==> ps[k].dest.x <= r
    ensures exists k :: 0 <= k < |ps| && ps[k].dest.x == r
  {
    if |ps| == 1 then ps[0].dest.x
    else
      var rest := MaxX(ps[1..]);
      assert forall k :: 1 <= k < |ps| ==> ps[k] == ps[1..][k - 1];
      if ps[0].dest.x >= rest then ps[0].dest.x else rest
  }

  /** A new entry parking probe `p` at its own y and its type's safety level. */
  predicate Parked(c: Coordinator, pl: Placement, p: Probe)
  {
    pl.probe == p && pl.dest.y == p.position.y && pl.dest.z == SafeLevel(c, p.probeType)
  }

  /**
   * The entries the first loop appends: probes from the left, until one is
   * already a key (`keys` grows with every appended probe). Each is moved left
   * to its own x if that is smaller; the next starts `Delta` further right.
   */
  function LeftFillers(c: Coordinator, keys: seq<Probe>, i: nat, x: real): seq<Placement>
    requires i <= |c.probes|
    decreases |c.probes| - i
  {
    if i == |c.probes| || c.probes[i] in keys then []
    else
      var p := c.probes[i];
      var x' := if p.position.x < x then p.position.x else x;
      [Placement(p, Point(x', p.position.y, SafeLevel(c, p.probeType)))]
        + LeftFillers(c, keys + [p], i + 1, x' + Delta)
  }

  /** The entries the second loop appends: probes from the right (`i` counts from the end). */
  function RightFillers(c: Coordinator, keys: seq<Probe>, i: nat, x: real): seq<Placement>
    requires i <= |c.probes|
    decreases |c.probes| - i
  {
    if i == |c.probes| || c.probes[|c.probes| - 1 - i] in keys then []
    else
      var p := c.probes[|c.probes| - 1 - i];
      var x' := if p.position.x > x then p.position.x else x;
      [Placement(p, Point(x', p.position.y, SafeLevel(c, p.probeType)))]
        + RightFillers(c, keys + [p], i + 1, x' - Delta)
  }

  /** `probe_count_diff`: the number of probes minus the number of entries. */
  function Spare(c: Coordinator, m: Assignment): real
  {
    (|c.probes| - |m|) as real
  }

  /** The x the left loop starts from: `min` of the given x's less `probe_count_diff * DELTA`. */
  function LeftStart(c: Coordinator, m: Assignment): real
    requires AllAssigned(m) && m != []
  {
    MinX(Placements(m)) - Spare(c, m) * 20.0
  }

  /** The x the right loop starts from: `max` of the given x's plus `probe_count_diff * DELTA`. */
  function RightStart(c: Coordinator, m: Assignment): real
    requires AllAssigned(m) && m != []
  {
    MaxX(Placements(m)) + Spare(c, m) * 20.0
  }

  /** The entries the left loop appends. */
  function LeftTail(c: Coordinator, m: Assignment): seq<Placement>
    requires AllAssigned(m) && m != []
  {
    LeftFillers(c, Keys(m), 0, LeftStart(c, m))
  }

  /** The map after the left loop. */
  function LeftOf(c: Coordinator, m: Assignment): seq<Placement>
    requires AllAssigned(m) && m != []
  {
    Placements(m) + LeftTail(c, m)
  }

  /** The entries the right loop appends. */
  function RightTail(c: Coordinator, m: Assignment): seq<Placement>
    requires AllAssigned(m) && m != []
  {
    RightFillers(c, PlacedKeys(LeftOf(c, m)), 0, RightStart(c, m))
  }

  /** The map after both loops. */
  function RightOf(c: Coordinator, m: Assignment): seq<Placement>
    requires AllAssigned(m) && m != []
  {
    LeftOf(c, m) + RightTail(c, m)
  }

  /** `_add_destinations_for_remaining_probes` as a function of the map it updates. */
  function Filled(c: Coordinator, m: Assignment): Result<seq<Placement>>
  {
    if !AllAssigned(m) then Err(TypeError)
    else if m == [] then Err(ValueError)
    else Ok(RightOf(c, m))
  }

  /** One step of the left loop: appending the parked probe `p` at `x'`. */
  lemma LeftStep(c: Coordinator, placed: seq<Placement>, i: nat, x: real, x': real, entry: Placement)
    requires i < |c.probes| && c.probes[i] !in PlacedKeys(placed)
    requires x' == if c.probes[i].position.x < x then c.probes[i].position.x else x
    requires entry == Placement(c.probes[i], Point(x', c.probes[i].position.y, SafeLevel(c, c.probes[i].probeType)))
    ensures placed + LeftFillers(c, PlacedKeys(placed), i, x)
      == (placed + [entry]) + LeftFillers(c, PlacedKeys(placed + [entry]), i + 1, x' + Delta)
  {
    var p := c.probes[i];
    assert PlacedKeys(placed + [entry]) == PlacedKeys(placed) + [p];
    var rest := LeftFillers(c, PlacedKeys(placed) + [p], i + 1, x' + Delta);
    assert LeftFillers(c, PlacedKeys(placed), i, x) == [entry] + rest;
    assert placed + ([entry] + rest) == (placed + [entry]) + rest;
  }

  /** One step of the right loop: appending the parked probe `p` at `x'`. */
  lemma RightStep(c: Coordinator, placed: seq<Placement>, i: nat, x: real, x': real, entry: Placement)
    requires i < |c.probes| && c.probes[|c.probes| - 1 - i] !in PlacedKeys(placed)
    requires x' == if c.probes[|c.probes| - 1 - i].position.x > x then c.probes[|c.probes| - 1 - i].position.x else x
    requires entry == Placement(c.probes[|c.probes| - 1 - i], Point(x', c.probes[|c.probes| - 1 - i].position.y, SafeLevel(c, c.probes[|c.probes| - 1 - i].probeType)))
    ensures placed + RightFillers(c, PlacedKeys(placed), i, x)
      == (placed + [entry]) + RightFillers(c, PlacedKeys(placed + [entry]), i + 1, x' - Delta)
  {
    var p := c.probes[|c.probes| - 1 - i];
    assert PlacedKeys(placed + [entry]) == PlacedKeys(placed) + [p];
    var rest := RightFillers(c, PlacedKeys(placed) + [p], i + 1, x' - Delta);
    assert RightFillers(c, PlacedKeys(placed), i, x) == [entry] + rest;
    assert placed + ([entry] + rest) == (placed + [entry]) + rest;
  }

  /**
   * The dict is updated in place: every new key is appended. A missing
   * destination fails at `destination[0]` and an empty map at `min()`.
   */
  method AddDestinationsForRemainingProbes(c: Coordinator, m: Assignment) returns (r: Result<seq<Placement>>)
    ensures r == Filled(c, m)
  {
    if !AllAssigned(m) {
      return Err(TypeError);
    }
    if |m| == 0 {
      return Err(ValueError);
    }
    var placed := Placements(m);
    var minX, maxX := MinX(placed), MaxX(placed);
    var diff := Spare(c, m);
    var x := minX - diff * 20.0;
    assert x == LeftStart(c, m);
    assert PlacedKeys(placed) == Keys(m);
    ghost var goal := placed + LeftFillers(c, PlacedKeys(placed), 0, x);
    var i := 0;
    while i < |c.probes|
      invariant 0 <= i <= |c.probes|
      invariant placed + LeftFillers(c, PlacedKeys(placed), i, x) == goal
    {
      var p := c.probes[i];
      if p in PlacedKeys(placed) {
        break;
      }
      ghost var x0 := x;
      if p.position.x < x {
        x := p.position.x;
      }
      var entry := Placement(p, Point(x, p.position.y, SafeLevel(c, p.probeType)));
      LeftStep(c, placed, i, x0, x, entry);
      placed := placed + [entry];
      x := x + Delta;
      i := i + 1;
    }
    assert LeftFillers(c, PlacedKeys(placed), i, x) == [];
    assert placed == LeftOf(c, m);
    x := maxX + diff * 20.0;
    assert x == RightStart(c, m);
    goal := placed + RightFillers(c, PlacedKeys(placed), 0, x);
    assert goal == RightOf(c, m);
    i := 0;
    while i < |c.probes|
      invariant 0 <= i <= |c.probes|
      invariant placed + RightFillers(c, PlacedKeys(placed), i, x) == goal
    {
      var p := c.probes[|c.probes| - 1 - i];
      if p in PlacedKeys(placed) {
        break;
      }
      ghost var x0 := x;
      if p.position.x > x {
        x := p.position.x;
      }
      var entry := Placement(p, Point(x, p.position.y, SafeLevel(c, p.probeType)));
      RightStep(c, placed, i, x0, x, entry);
      placed := placed + [entry];
      x := x - Delta;
      i := i + 1;
    }
    assert RightFillers(c, PlacedKeys(placed), i, x) == [];
    assert placed == goal;
    return Ok(placed);
  }

  /**
   * The left loop appends parked probes `probes[i]`, `probes[i+1]`, ..., none
   * of them a key already; each lies no further right than its own current x,
   * at most `Delta` right of the previous one, and at most `Delta` per step
   * right of the starting x.
   */
  lemma {:induction false} LeftFillersShape(c: Coordinator, keys: seq<Probe>, i: nat, x: real)
    requires i <= |c.probes|
    decreases |c.probes| - i
    ensures var t := LeftFillers(c, keys, i, x);
      && |t| <= |c.probes| - i
      && (forall k :: 0 <= k < |t| ==>
            && Parked(c, t[k], c.probes[i + k]) && c.probes[i + k] !in keys
            && t[k].dest.x <= c.probes[i + k].position.x
            && t[k].dest.x <= x + 20.0 * k as real)
      && (forall k :: 0 < k < |t| ==> t[k].dest.x <= t[k - 1].dest.x + Delta)
  {
    if i < |c.probes| && c.probes[i] !in keys {
      var p := c.probes[i];
      var x' := if p.position.x < x then p.position.x else x;
      LeftFillersShape(c, keys + [p], i + 1, x' + Delta);
      var rest := LeftFillers(c, keys + [p], i + 1, x' + Delta);
      var t := LeftFillers(c, keys, i, x);
      forall k | 1 <= k < |t|
        ensures t[k] == rest[k - 1] && c.probes[i + k] == c.probes[(i + 1) + (k - 1)]
      {
      }
    }
  }

  /** The mirror image of `LeftFillersShape` for the right loop. */
  lemma {:induction false} RightFillersShape(c: Coordinator, keys: seq<Probe>, i: nat, x: real)
    requires i <= |c.probes|
    decreases |c.probes| - i
    ensures var t := RightFillers(c, keys, i, x); var n := |c.probes|;
      && |t| <= n - i
      && (forall k :: 0 <= k < |t| ==>
            && Parked(c, t[k], c.probes[n - 1 - (i + k)]) && c.probes[n - 1 - (i + k)] !in keys
            && t[k].dest.x >= c.probes[n - 1 - (i + k)].position.x
            && t[k].dest.x >= x - 20.0 * k as real)
      && (forall k :: 0 < k < |t| ==> t[k].dest.x >= t[k - 1].dest.x - Delta)
  {
    var n := |c.probes|;
    if i < n && c.probes[n - 1 - i] !in keys {
      var p := c.probes[n - 1 - i];
      var x' := if p.position.x > x then p.position.x else x;
      RightFillersShape(c, keys + [p], i + 1, x' - Delta);
      var rest := RightFillers(c, keys + [p], i + 1, x' - Delta);
      var t := RightFillers(c, keys, i, x);
      forall k | 1 <= k < |t|
        ensures t[k] == rest[k - 1] && c.probes[n - 1 - (i + k)] == c.probes[n - 1 - ((i + 1) + (k - 1))]
      {
      }
    }
  }

  lemma {:induction false} SeqSetCard<T>(s: seq<T>)
    ensures |set x | x in s| <= |s|
  {
    if s != [] {
      SeqSetCard(s[1..]);
      assert (set x | x in s) == {s[0]} + (set x | x in s[1..]);
    }
  }

  lemma {:induction false} DistinctSetCard<T>(s: seq<T>)
    requires Distinct(s)
    ensures |set x | x in s| == |s|
  {
    if s != [] {
      assert Distinct(s[1..]) by {
        forall a, b | 0 <= a < b < |s[1..]| ensures s[1..][a] != s[1..][b] {
          assert s[1..][a] == s[a + 1] && s[1..][b] == s[b + 1];
        }
      }
      DistinctSetCard(s[1..]);
      assert (set x | x in s) == {s[0]} + (set x | x in s[1..]);
      assert s[0] !in (set x | x in s[1..]) by {
        forall b | 0 <= b < |s[1..]| ensures s[1..][b] != s[0] {
          assert s[1..][b] == s[b + 1];
        }
      }
    }
  }

  lemma SubsetCard<T>(a: set<T>, b: set<T>)
    requires a <= b
    ensures |a| <= |b|
  {
    assert b == a + (b - a);
    assert a * (b - a) == {};
  }

  /** A duplicate-free map whose keys all lie in `ps` has at most `|ps|` entries. */
  lemma KeysFit(m: Assignment, ps: seq<Probe>)
    requires Distinct(Keys(m)) && forall k :: 0 <= k < |m| ==> m[k].probe in ps
    ensures |m| <= |ps|
  {
    DistinctSetCard(Keys(m));
    SeqSetCard(ps);
    SubsetCard(set x | x in Keys(m), set x | x in ps);
  }

  /** The left loop's entries: probes without a destination, parked, `Delta` apart at most. */
  lemma LeftTailFacts(c: Coordinator, m: Assignment)
    requires AllAssigned(m) && m != []
    ensures var t := LeftTail(c, m);
      && |t| <= |c.probes|
      && forall k :: 0 <= k < |t| ==>
           && t[k].probe == c.probes[k] && c.probes[k] !in Keys(m) && Parked(c, t[k], t[k].probe)
           && t[k].dest.x <= LeftStart(c, m) + 20.0 * k as real
  {
    var t := LeftTail(c, m);
    LeftFillersShape(c, Keys(m), 0, LeftStart(c, m));
    forall k | 0 <= k < |t|
      ensures t[k].probe == c.probes[k] && c.probes[k] !in Keys(m)
    {
      assert Parked(c, t[k], c.probes[0 + k]);
    }
  }

  /** The keys after the left loop begin with the map's own keys. */
  lemma LeftKeys(c: Coordinator, m: Assignment)
    requires AllAssigned(m) && m != []
    ensures |m| <= |LeftOf(c, m)|
    ensures LeftOf(c, m)[..|m|] == Placements(m)
    ensures forall k :: 0 <= k < |m| ==> PlacedKeys(LeftOf(c, m))[k] == m[k].probe
  {
    var left := LeftOf(c, m);
    assert left[..|m|] == Placements(m);
    forall k | 0 <= k < |m| ensures PlacedKeys(left)[k] == m[k].probe {
      assert left[k] == Placements(m)[k];
    }
  }

  /** The right loop's entries, mirrored: probes from the right end, none placed before. */
  lemma RightTailFacts(c: Coordinator, m: Assignment)
    requires AllAssigned(m) && m != []
    ensures var t := RightTail(c, m); var n := |c.probes|;
      && |t| <= n
      && forall k :: 0 <= k < |t| ==>
           && t[k].probe == c.probes[n - 1 - k] && c.probes[n - 1 - k] !in PlacedKeys(LeftOf(c, m))
           && t[k].probe !in Keys(m) && Parked(c, t[k], t[k].probe)
           && t[k].dest.x >= RightStart(c, m) - 20.0 * k as real
  {
    var t := RightTail(c, m);
    var n := |c.probes|;
    var left := LeftOf(c, m);
    RightFillersShape(c, PlacedKeys(left), 0, RightStart(c, m));
    LeftKeys(c, m);
    forall k | 0 <= k < |t|
      ensures t[k].probe == c.probes[n - 1 - k] && c.probes[n - 1 - k] !in PlacedKeys(left)
      ensures t[k].probe !in Keys(m) && Parked(c, t[k], t[k].probe)
      ensures t[k].dest.x >= RightStart(c, m) - 20.0 * k as real
    {
      assert Parked(c, t[k], c.probes[n - 1 - (0 + k)]);
      forall j | 0 <= j < |m| ensures Keys(m)[j] != t[k].probe {
        assert Keys(m)[j] == PlacedKeys(left)[j];
      }
    }
  }

  /** The left loop parks no more probes than the map lacks. */
  lemma LeftCount(c: Coordinator, m: Assignment)
    requires AllAssigned(m) && m != []
    requires Distinct(Keys(m)) && forall k :: 0 <= k < |m| ==> m[k].probe in c.probes
    ensures |LeftTail(c, m)| + |m| <= |c.probes|
  {
    var n := |c.probes|;
    LeftTailFacts(c, m);
    var nl := |LeftTail(c, m)|;
    forall k | 0 <= k < |m| ensures m[k].probe in c.probes[nl..] {
      var j :| 0 <= j < n && c.probes[j] == m[k].probe;
      assert Keys(m)[k] == c.probes[j];
      assert j >= nl;
      assert c.probes[nl..][j - nl] == c.probes[j];
    }
    KeysFit(m, c.probes[nl..]);
  }

  /** The right loop, too, parks no more probes than the map lacks. */
  lemma RightCount(c: Coordinator, m: Assignment)
    requires AllAssigned(m) && m != []
    requires Distinct(Keys(m)) && forall k :: 0 <= k < |m| ==> m[k].probe in c.probes
    ensures |RightTail(c, m)| + |m| <= |c.probes|
  {
    var n := |c.probes|;
    var left := LeftOf(c, m);
    RightTailFacts(c, m);
    LeftKeys(c, m);
    var nr := |RightTail(c, m)|;
    forall j | n - nr <= j < n ensures c.probes[j] !in PlacedKeys(left) {
      var t := RightTail(c, m);
      assert t[n - 1 - j].probe == c.probes[n - 1 - (n - 1 - j)];
    }
    forall k | 0 <= k < |m| ensures m[k].probe in c.probes[..n - nr] {
      var j :| 0 <= j < n && c.probes[j] == m[k].probe;
      assert PlacedKeys(left)[k] == c.probes[j];
      assert j < n - nr;
      assert c.probes[..n - nr][j] == c.probes[j];
    }
    KeysFit(m, c.probes[..n - nr]);
  }

  /**
   * Filling keeps the given entries as they were, in front, and every entry it
   * appends is a probe without one, parked at its own y and its type's safety
   * level.
   */
  lemma FilledKeeps(c: Coordinator, m: Assignment)
    requires Filled(c, m).Ok?
    ensures var r := Filled(c, m).value;
      && |m| <= |r| && r[..|m|] == Placements(m)
      && forall k :: |m| <= k < |r| ==> r[k].probe !in Keys(m) && Parked(c, r[k], r[k].probe)
  {
    var left := LeftOf(c, m);
    var tl := LeftTail(c, m);
    var tr := RightTail(c, m);
    var r := RightOf(c, m);
    LeftKeys(c, m);
    LeftTailFacts(c, m);
    RightTailFacts(c, m);
    assert r[..|m|] == left[..|m|];
    forall k | |m| <= k < |r|
      ensures r[k].probe !in Keys(m) && Parked(c, r[k], r[k].probe)
    {
      if k < |left| {
        assert r[k] == tl[k - |m|];
      } else {
        assert r[k] == tr[k - |left|];
      }
    }
  }

  /** The left loop's entries lie at least `Delta` left of every given destination. */
  lemma LeftSeparated(c: Coordinator, m: Assignment)
    requires AllAssigned(m) && m != []
    requires Distinct(Keys(m)) && forall k :: 0 <= k < |m| ==> m[k].probe in c.probes
    ensures forall k :: 0 <= k < |LeftTail(c, m)| ==> LeftTail(c, m)[k].dest.x <= MinX(Placements(m)) - Delta
  {
    LeftCount(c, m);
    LeftTailFacts(c, m);
  }

  /** The right loop's entries lie at least `Delta` right of every given destination. */
  lemma RightSeparated(c: Coordinator, m: Assignment)
    requires AllAssigned(m) && m != []
    requires Distinct(Keys(m)) && forall k :: 0 <= k < |m| ==> m[k].probe in c.probes
    ensures forall k :: 0 <= k < |RightTail(c, m)| ==> RightTail(c, m)[k].dest.x >= MaxX(Placements(m)) + Delta
  {
    RightCount(c, m);
    RightTailFacts(c, m);
  }

  /**
   * When the map's keys are distinct probes of the coordinator, every parked
   * probe ends up at least `Delta` outside the x-range of the given
   * destinations: the left ones below the smallest x, the right ones above
   * the largest.
   */
  lemma FilledSeparated(c: Coordinator, m: Assignment)
    requires Filled(c, m).Ok?
    requires Distinct(Keys(m)) && forall k :: 0 <= k < |m| ==> m[k].probe in c.probes
    ensures var r := Filled(c, m).value; var ps := Placements(m);
      forall k :: |m| <= k < |r| ==> r[k].dest.x <= MinX(ps) - Delta || r[k].dest.x >= MaxX(ps) + Delta
  {
    var left := LeftOf(c, m);
    var tl := LeftTail(c, m);
    var tr := RightTail(c, m);
    var r := RightOf(c, m);
    LeftSeparated(c, m);
    RightSeparated(c, m);
    forall k | |m| <= k < |r|
      ensures r[k].dest.x <= MinX(Placements(m)) - Delta || r[k].dest.x >= MaxX(Placements(m)) + Delta
    {
      if k < |left| {
        assert r[k] == tl[k - |m|];
      } else {
        assert r[k] == tr[k - |left|];
      }
    }
  }

  // ---------------------------------------------------------------------------
  // Path intersection on the x-axis

  function SquaredDistance(a: Point, b: Point): real
  {
    (b.x - a.x) * (b.x - a.x) + (b.y - a.y) * (b.y - a.y) + (b.z - a.z) * (b.z - a.z)
  }

  /** `dist` is the Euclidean distance from `a` to `b` (the source's `np.sqrt`). */
  predicate IsDistance(dist: real, a: Point, b: Point)
  {
    dist >= 0.0 && dist * dist == SquaredDistance(a, b)
  }

  /** Either end of path 2 lies within the x-range of path 1. */
  predicate CouldIntersect(s1: Point, d1: Point, s2: Point, d2: Point)
  {
    var lo := Min(s1.x, d1.x);
    var hi := Max(s1.x, d1.x);
    (lo <= s2.x <= hi) || (lo <= d2.x <= hi)
  }

  const SpeedEpsilon: real := 0.0000001
  const TimeTolerance: real := 0.1

  lemma ScaledDown(f: real, a: real, b: real)
    requires 0.0 < a <= b
    ensures f > 0.0 ==> 0.0 < f * a / b <= f
  {
    if f > 0.0 {
      assert f * a <= f * b;
      assert f * b / b == f;
    }
  }

  /**
   * `_calculate_x_intersection`: `None` unless path 2 may cross path 1 in x,
   * both probes move in x, their x-speeds differ and the meeting time lies
   * within both travel times; otherwise the time and the two reduced feeds.
   * A zero-length path makes the source's direction NaN and every later
   * comparison false, so it yields `None`.
   */
  function XIntersection(s1: Point, d1: Point, f1: real, s2: Point, d2: Point, f2: real,
                         dist1: real, dist2: real): (r: Option<(real, real, real)>)
    requires IsDistance(dist1, s1, d1) && IsDistance(dist2, s2, d2)
    ensures !CouldIntersect(s1, d1, s2, d2) ==> r.None?
    ensures d1.x == s1.x || d2.x == s2.x || f1 == 0.0 || f2 == 0.0 ==> r.None?
    ensures r.Some? ==> f1 != 0.0 && f2 != 0.0 && dist1 > 0.0 && dist2 > 0.0
    ensures r.Some? ==> -TimeTolerance <= r.value.0 <= dist1 / (f1 / 60.0)
                        && r.value.0 <= dist2 / (f2 / 60.0)
    ensures r.Some? && f1 > 0.0 && f2 > 0.0 ==>
      0.0 < r.value.1 <= f1 && 0.0 < r.value.2 <= f2 && (r.value.1 < f1 || r.value.2 < f2)
  {
    if !CouldIntersect(s1, d1, s2, d2) then None
    else if dist1 == 0.0 || dist2 == 0.0 then None
    else
      var vx1 := f1 / 60.0 * ((d1.x - s1.x) / dist1);
      var vx2 := f2 / 60.0 * ((d2.x - s2.x) / dist2);
      var vxDiff := vx1 - vx2;
      if Abs(vx1) == 0.0 || Abs(vx2) == 0.0 then None
      else if Abs(vxDiff) < SpeedEpsilon then None
      else
        assert f1 != 0.0 && f2 != 0.0;
        var t := (s2.x - s1.x) / vxDiff;
        if -TimeTolerance <= t <= dist1 / (f1 / 60.0) && -TimeTolerance <= t <= dist2 / (f2 / 60.0) then
          var minVx := Min(Abs(vx1), Abs(vx2));
          var a1 := f1 * minVx / Abs(vx1);
          var a2 := f2 * minVx / Abs(vx2);
          ScaledDown(f1, minVx, Abs(vx1));
          ScaledDown(f2, minVx, Abs(vx2));
          if a1 < a2 then Some((t, a1 - a1 * 0.2, a2)) else Some((t, a1, a2 - a2 * 0.2))
        else None
  }

  // ---------------------------------------------------------------------------
  // Lowering

  /** The soft-drop intermediate point: `soft_drop_offset` subtracted from z. */
  function DropPoint(c: Coordinator, p: Point): Point
  {
    Point(p.x, p.y, p.z - c.softDropOffset)
  }

  /**
   * `_lower_z_axis`: with a soft drop, first every probe at drop speed to its
   * destination offset in z, then every probe to its destination at soft-drop
   * speed; without, one phase at drop speed. Entries keep the map's order.
   */
  method LowerZAxis(c: Coordinator, ps: seq<Placement>, softDrop: bool) returns (phases: seq<seq<Movement>>)
    ensures |phases| == if softDrop then 2 else 1
    ensures forall q :: 0 <= q < |phases| ==> |phases[q]| == |ps|
    ensures forall k :: 0 <= k < |ps| ==>
      phases[|phases| - 1][k] == Movement(ps[k].probe, ps[k].dest, if softDrop then c.softDropSpeed else c.dropSpeed)
    ensures softDrop ==> forall k :: 0 <= k < |ps| ==>
      && phases[0][k] == Movement(ps[k].probe, DropPoint(c, ps[k].dest), c.dropSpeed)
      && phases[1][k].destination.z - phases[0][k].destination.z == c.softDropOffset
  {
    phases := [];
    if softDrop {
      var drops := [];
      var k := 0;
      while k < |ps|
        invariant 0 <= k <= |ps| && |drops| == k
        invariant forall a :: 0 <= a < k ==> drops[a] == Movement(ps[a].probe, DropPoint(c, ps[a].dest), c.dropSpeed)
      {
        drops := drops + [Movement(ps[k].probe, DropPoint(c, ps[k].dest), c.dropSpeed)];
        k := k + 1;
      }
      phases := phases + [drops];
    }
    var movements := [];
    var feed := if softDrop then c.softDropSpeed else c.dropSpeed;
    var k := 0;
    while k < |ps|
      invariant 0 <= k <= |ps| && |movements| == k
      invariant forall a :: 0 <= a < k ==> movements[a] == Movement(ps[a].probe, ps[a].dest, feed)
    {
      movements := movements + [Movement(ps[k].probe, ps[k].dest, feed)];
      k := k + 1;
    }
    phases := phases + [movements];
  }
}
