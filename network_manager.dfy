/**
 * The pin-connectivity bookkeeping of the hardware-control service: a
 * disjoint-set forest of pins known to be connected, plus, for every set
 * representative, the representatives it was found NOT to be connected to.
 *
 * The disjoint-set forest is abstracted to the map from every registered pin
 * to the representative of its set (`Find`); path compression and the
 * shape of the forest are not observable through `find`, `union` and
 * `itersets`, which is all the manager uses.
 */
module NetworkManager {

  /** `ConnectionState`, with its integer values 0, 1 and -1. */
  datatype ConnectionState = NotConnected | Connected | Unknown
  {
    function Value(): int
    {
      match this
      case NotConnected => 0
      case Connected => 1
      case Unknown => -1
    }
  }

  /**
   * The manager's state: `root` maps every pin the disjoint set has seen to
   * its representative; `nc` is the `_not_connected` dictionary (a missing key
   * reads as the empty set, as with the `defaultdict`).
   */
  datatype Sets = Sets(root: map<int, int>, nc: map<int, set<int>>)

  const Empty: Sets := Sets(map[], map[])

  /** `DisjointSet.find`: an unseen pin is its own representative. */
  function Find(s: Sets, p: int): int
  {
    if p in s.root then s.root[p] else p
  }

  /** `_not_connected[r]`. */
  function NC(s: Sets, r: int): set<int>
  {
    if r in s.nc then s.nc[r] else {}
  }

  predicate IsRoot(s: Sets, r: int)
  {
    r in s.root && s.root[r] == r
  }

  /** `find` registers a pin it has not seen as a singleton set. */
  function Register(s: Sets, p: int): Sets
  {
    if p in s.root then s else s.(root := s.root[p := p])
  }

  /** `union` of two distinct representatives: `r2` becomes the representative of both sets. */
  function Relinked(s: Sets, r1: int, r2: int): Sets
  {
    s.(root := map p | p in s.root :: if s.root[p] == r1 then r2 else s.root[p])
  }

  /** `connect`: join the two sets and give the joint representative the union of their "not connected" sets. */
  function ConnectOp(s: Sets, a: int, b: int): Sets
  {
    var s1 := Register(Register(s, a), b);
    var f1 := Find(s1, a);
    var f2 := Find(s1, b);
    var s2 := if f1 == f2 then s1 else Relinked(s1, f1, f2);
    var f := Find(s2, f1);
    s2.(nc := s2.nc[f := NC(s1, f1) + NC(s1, f2)])
  }

  /** `disconnect`: record each representative in the other's "not connected" set. */
  function DisconnectOp(s: Sets, a: int, b: int): Sets
  {
    var s1 := Register(Register(s, a), b);
    var f1 := Find(s1, a);
    var f2 := Find(s1, b);
    var s2 := s1.(nc := s1.nc[f1 := NC(s1, f1) + {f2}]);
    s2.(nc := s2.nc[f2 := NC(s2, f2) + {f1}])
  }

  /** `set_connected`. */
  function SetConnectedOp(s: Sets, a: int, b: int, connection: bool): (r: Sets)
    ensures connection ==> r == ConnectOp(s, a, b)
    ensures !connection ==> r == DisconnectOp(s, a, b)
  {
    if connection then ConnectOp(s, a, b) else DisconnectOp(s, a, b)
  }

  /**
   * `connection_state` as written: it looks the other pin's CURRENT
   * representative up in the "not connected" set, whose entries are the
   * representatives at the time of the `disconnect`.
   */
  function ConnectionStateAsWritten(s: Sets, a: int, b: int): (r: ConnectionState)
    ensures r == Connected <==> Find(s, a) == Find(s, b)
    ensures r == NotConnected <==> Find(s, a) != Find(s, b) && (Find(s, b) in NC(s, Find(s, a)) || Find(s, a) in NC(s, Find(s, b)))
  {
    var f1 := Find(s, a);
    var f2 := Find(s, b);
    if f1 == f2 then Connected
    else if f2 in NC(s, f1) || f1 in NC(s, f2) then NotConnected
    else Unknown
  }

  /** Some entry of `x`'s "not connected" set is now in `y`'s set. */
  ghost predicate Separated(s: Sets, x: int, y: int)
  {
    exists q :: q in NC(s, Find(s, x)) && Find(s, q) == Find(s, y)
  }

  /** `connection_state`, with the stored representatives resolved to their current sets. */
  function ConnectionStateOf(s: Sets, a: int, b: int): (r: ConnectionState)
    ensures r == Connected <==> Find(s, a) == Find(s, b)
    ensures r == NotConnected <==> Find(s, a) != Find(s, b) && (Separated(s, a, b) || Separated(s, b, a))
  {
    var f1 := Find(s, a);
    var f2 := Find(s, b);
    if f1 == f2 then Connected
    else if (exists q :: q in NC(s, f1) && Find(s, q) == f2) || (exists q :: q in NC(s, f2) && Find(s, q) == f1)
    then NotConnected
    else Unknown
  }

  /** The pins of the set represented by `r`. */
  function Class(s: Sets, r: int): set<int>
  {
    set p | p in s.root && s.root[p] == r
  }

  /** `extract_networks`: one network per set of at least two pins. */
  function Networks(s: Sets): (r: set<set<int>>)
    ensures forall n :: n in r ==> |n| >= 2
    ensures forall n :: n in r ==> exists q :: q in s.root.Values && n == Class(s, q)
    ensures forall p :: p in s.root && |Class(s, s.root[p])| >= 2 ==> Class(s, s.root[p]) in r
  {
    set q | q in s.root.Values && |Class(s, q)| >= 2 :: Class(s, q)
  }

  // ---------------------------------------------------------------------------
  // The recorded facts

  /** Every representative represents itself. */
  ghost predicate WellFormed(s: Sets)
  {
    forall p :: p in s.root ==> IsRoot(s, s.root[p])
  }

  /** Every recorded "not connected" pair is still visible, unless its pins have been connected since. */
  ghost predicate Sound(s: Sets, facts: set<(int, int)>)
  {
    forall pr {:trigger Separated(s, pr.0, pr.1)} :: pr in facts ==> Find(s, pr.0) == Find(s, pr.1) || Separated(s, pr.0, pr.1)
  }

  /** Some recorded pair runs from the set of `r` to the set of `q`. */
  ghost predicate Witnessed(s: Sets, facts: set<(int, int)>, r: int, q: int)
  {
    exists pr :: pr in facts && Find(s, pr.0) == r && Find(s, pr.1) == Find(s, q)
  }

  /** Every "not connected" entry of a representative comes from a recorded pair between the two sets. */
  ghost predicate Complete(s: Sets, facts: set<(int, int)>)
  {
    forall r, q {:trigger Witnessed(s, facts, r, q)} :: Find(s, r) == r && q in NC(s, r) ==> Witnessed(s, facts, r, q)
  }

  ghost predicate Symmetric(facts: set<(int, int)>)
  {
    forall pr :: pr in facts ==> (pr.1, pr.0) in facts
  }

  /** The invariant of the manager, given the `disconnect` calls made since the last `clear`. */
  ghost predicate Valid(s: Sets, facts: set<(int, int)>)
  {
    WellFormed(s) && Sound(s, facts) && Complete(s, facts) && Symmetric(facts)
  }

  /** `t`'s sets are `s`'s sets with the representatives renamed by `g`. */
  ghost predicate Renames(s: Sets, t: Sets, g: int -> int)
  {
    forall x :: Find(t, x) == g(Find(s, x))
  }

  // ---------------------------------------------------------------------------
  // Properties

  /** Looking a representative up again gives itself. */
  lemma FindIdempotent(s: Sets, x: int)
    requires WellFormed(s)
    ensures Find(s, Find(s, x)) == Find(s, x)
  {
    if x in s.root {
      assert IsRoot(s, s.root[x]);
    }
  }

  /** Registering a pin changes no set and no "not connected" entry. */
  lemma RegisterFacts(s: Sets, p: int)
    requires WellFormed(s)
    ensures WellFormed(Register(s, p)) && Register(s, p).nc == s.nc && p in Register(s, p).root
    ensures forall x :: Find(Register(s, p), x) == Find(s, x)
  {
    var s' := Register(s, p);
    forall q | q in s'.root ensures IsRoot(s', s'.root[q]) {
      if q != p {
        assert IsRoot(s, s.root[q]);
      }
    }
  }

  /** Relinking two representatives merges exactly their two sets. */
  lemma RelinkedFacts(s: Sets, r1: int, r2: int)
    requires WellFormed(s) && IsRoot(s, r1) && IsRoot(s, r2) && r1 != r2
    ensures WellFormed(Relinked(s, r1, r2)) && Relinked(s, r1, r2).nc == s.nc
    ensures forall x :: Find(Relinked(s, r1, r2), x) == if Find(s, x) == r1 then r2 else Find(s, x)
  {
    var s' := Relinked(s, r1, r2);
    forall p | p in s'.root ensures IsRoot(s', s'.root[p]) {
      assert IsRoot(s, s.root[p]);
    }
  }

  /** What `connect` does: the set of `a` is renamed to the set of `b`, which takes both "not connected" sets. */
  lemma ConnectShape(s: Sets, a: int, b: int)
    requires WellFormed(s)
    ensures var s' := ConnectOp(s, a, b);
      && WellFormed(s')
      && Renames(s, s', x => if x == Find(s, a) then Find(s, b) else x)
      && s'.nc == s.nc[Find(s, b) := NC(s, Find(s, a)) + NC(s, Find(s, b))]
  {
    var s0 := Register(s, a);
    RegisterFacts(s, a);
    var s1 := Register(s0, b);
    RegisterFacts(s0, b);
    var f1 := Find(s1, a);
    var f2 := Find(s1, b);
    assert IsRoot(s1, f1) && IsRoot(s1, f2) by {
      assert IsRoot(s1, s1.root[a]) && IsRoot(s1, s1.root[b]);
    }
    if f1 != f2 {
      RelinkedFacts(s1, f1, f2);
    }
  }

  /** What `disconnect` does: no set changes, and each representative enters the other's "not connected" set. */
  lemma DisconnectShape(s: Sets, a: int, b: int)
    requires WellFormed(s)
    ensures var s' := DisconnectOp(s, a, b);
      && WellFormed(s')
      && (forall x :: Find(s', x) == Find(s, x))
      && (forall r :: NC(s', r) == NC(s, r) + (if r == Find(s, a) then {Find(s, b)} else {})
                                           + (if r == Find(s, b) then {Find(s, a)} else {}))
  {
    var s0 := Register(s, a);
    RegisterFacts(s, a);
    RegisterFacts(s0, b);
  }

  /** Recorded pairs stay visible when the sets are only renamed and every "not connected" set moves along. */
  lemma SoundRenamed(s: Sets, t: Sets, facts: set<(int, int)>, g: int -> int)
    requires Sound(s, facts) && Renames(s, t, g)
    requires forall x :: NC(s, Find(s, x)) <= NC(t, g(Find(s, x)))
    ensures Sound(t, facts)
  {
    forall pr | pr in facts ensures Find(t, pr.0) == Find(t, pr.1) || Separated(t, pr.0, pr.1) {
      if Find(t, pr.0) != Find(t, pr.1) {
        assert Find(s, pr.0) != Find(s, pr.1);
        assert Separated(s, pr.0, pr.1);
        var q :| q in NC(s, Find(s, pr.0)) && Find(s, q) == Find(s, pr.1);
        assert q in NC(t, Find(t, pr.0));
        assert Find(t, q) == Find(t, pr.1);
      }
    }
  }

  /** A witness for `s` is a witness for `t` once the sets are renamed. */
  lemma WitnessRenamed(s: Sets, t: Sets, facts: set<(int, int)>, g: int -> int, r: int, q: int)
    requires Renames(s, t, g) && Witnessed(s, facts, r, q)
    ensures Witnessed(t, facts, g(r), q)
  {
    var pr :| pr in facts && Find(s, pr.0) == r && Find(s, pr.1) == Find(s, q);
    assert Find(t, pr.0) == g(r) && Find(t, pr.1) == Find(t, q);
  }

  /** `connect` keeps the invariant; the recorded pairs are unchanged. */
  lemma ConnectKeeps(s: Sets, facts: set<(int, int)>, a: int, b: int)
    requires Valid(s, facts)
    ensures Valid(ConnectOp(s, a, b), facts)
  {
    var f1 := Find(s, a);
    var f2 := Find(s, b);
    var g := x => if x == f1 then f2 else x;
    var s' := ConnectOp(s, a, b);
    ConnectShape(s, a, b);
    assert Renames(s, s', g);
    FindIdempotent(s, a);
    FindIdempotent(s, b);
    forall x ensures NC(s, Find(s, x)) <= NC(s', g(Find(s, x))) {
    }
    SoundRenamed(s, s', facts, g);
    forall r, q | Find(s', r) == r && q in NC(s', r) ensures Witnessed(s', facts, r, q) {
      if r == f2 {
        var r0 := if q in NC(s, f1) then f1 else f2;
        assert Witnessed(s, facts, r0, q);
        WitnessRenamed(s, s', facts, g, r0, q);
      } else {
        assert g(Find(s, r)) == r;
        assert Find(s, r) == r && r != f1;
        assert Witnessed(s, facts, r, q);
        WitnessRenamed(s, s', facts, g, r, q);
      }
    }
  }

  /** `disconnect` keeps the invariant once the pair, in both orders, joins the recorded pairs. */
  lemma DisconnectKeeps(s: Sets, facts: set<(int, int)>, a: int, b: int)
    requires Valid(s, facts)
    ensures Valid(DisconnectOp(s, a, b), facts + {(a, b), (b, a)})
    ensures forall x :: Find(DisconnectOp(s, a, b), x) == Find(s, x)
  {
    var f1 := Find(s, a);
    var f2 := Find(s, b);
    var s' := DisconnectOp(s, a, b);
    var facts' := facts + {(a, b), (b, a)};
    DisconnectShape(s, a, b);
    FindIdempotent(s, a);
    FindIdempotent(s, b);
    var g := (x: int) => x;
    assert Renames(s, s', g);
    forall x ensures NC(s, Find(s, x)) <= NC(s', g(Find(s, x))) {
    }
    SoundRenamed(s, s', facts, g);
    forall pr | pr in facts' ensures Find(s', pr.0) == Find(s', pr.1) || Separated(s', pr.0, pr.1) {
      if pr == (a, b) {
        assert f2 in NC(s', Find(s', a));
      } else if pr == (b, a) {
        assert f1 in NC(s', Find(s', b));
      }
    }
    forall r, q | Find(s', r) == r && q in NC(s', r) ensures Witnessed(s', facts', r, q) {
      if r == f1 && q == f2 {
        assert (a, b) in facts';
      } else if r == f2 && q == f1 {
        assert (b, a) in facts';
      } else {
        assert q in NC(s, r);
        assert Witnessed(s, facts, r, q);
        var pr :| pr in facts && Find(s, pr.0) == r && Find(s, pr.1) == Find(s, q);
        assert pr in facts';
      }
    }
  }

  /** `clear` leaves a state that knows nothing and needs no recorded pairs. */
  lemma EmptyValid()
    ensures Valid(Empty, {})
  {
  }

  /**
   * With the invariant, the lookup is exact: CONNECTED iff the pins share a
   * set; NOT_CONNECTED iff they do not and some recorded `disconnect` relates
   * their two sets; UNKNOWN otherwise.
   */
  lemma ConnectionStateExact(s: Sets, facts: set<(int, int)>, x: int, y: int)
    requires Valid(s, facts)
    ensures ConnectionStateOf(s, x, y) == Connected <==> Find(s, x) == Find(s, y)
    ensures ConnectionStateOf(s, x, y) == NotConnected <==>
      Find(s, x) != Find(s, y) && exists pr :: pr in facts && Find(s, pr.0) == Find(s, x) && Find(s, pr.1) == Find(s, y)
  {
    var f1 := Find(s, x);
    var f2 := Find(s, y);
    FindIdempotent(s, x);
    FindIdempotent(s, y);
    if f1 != f2 {
      if ConnectionStateOf(s, x, y) == NotConnected {
        if q :| q in NC(s, f1) && Find(s, q) == f2 {
          assert Witnessed(s, facts, f1, q);
        } else {
          var q :| q in NC(s, f2) && Find(s, q) == f1;
          assert Witnessed(s, facts, f2, q);
          var pr :| pr in facts && Find(s, pr.0) == f2 && Find(s, pr.1) == Find(s, q);
          assert (pr.1, pr.0) in facts;
        }
      }
      if pr :| pr in facts && Find(s, pr.0) == f1 && Find(s, pr.1) == f2 {
        assert Find(s, pr.0) == Find(s, pr.1) || Separated(s, pr.0, pr.1);
        var q :| q in NC(s, Find(s, pr.0)) && Find(s, q) == Find(s, pr.1);
        assert q in NC(s, f1) && Find(s, q) == f2;
      }
    }
  }

  /** `connection_state` does not depend on the order of the pins. */
  lemma ConnectionStateSymmetric(s: Sets, x: int, y: int)
    ensures ConnectionStateOf(s, x, y) == ConnectionStateOf(s, y, x)
    ensures ConnectionStateAsWritten(s, x, y) == ConnectionStateAsWritten(s, y, x)
  {
  }

  /** Nothing has been recorded: a pin is connected to itself and everything else is UNKNOWN. */
  lemma EmptyUnknown(x: int, y: int)
    ensures ConnectionStateOf(Empty, x, y) == if x == y then Connected else Unknown
  {
  }

  /** After `connect(a, b)` the pins are connected, and so is every pair that was connected before. */
  lemma ConnectConnects(s: Sets, facts: set<(int, int)>, a: int, b: int, x: int, y: int)
    requires Valid(s, facts)
    ensures ConnectionStateOf(ConnectOp(s, a, b), a, b) == Connected
    ensures ConnectionStateOf(s, x, y) == Connected ==> ConnectionStateOf(ConnectOp(s, a, b), x, y) == Connected
  {
    ConnectShape(s, a, b);
  }

  /** `connect(1, 2)` then `connect(2, 3)`: pins 1 and 3 are connected. */
  lemma ConnectTransitive(s: Sets, facts: set<(int, int)>, p1: int, p2: int, p3: int)
    requires Valid(s, facts)
    ensures ConnectionStateOf(ConnectOp(ConnectOp(s, p1, p2), p2, p3), p1, p3) == Connected
  {
    var s1 := ConnectOp(s, p1, p2);
    ConnectShape(s, p1, p2);
    ConnectShape(s1, p2, p3);
  }

  /**
   * `connect(1, 2)` then `disconnect(2, 3)`, with 2 and 3 not connected:
   * pins 1 and 3 are not connected, by either lookup.
   */
  lemma ConnectThenDisconnect(s: Sets, facts: set<(int, int)>, p1: int, p2: int, p3: int)
    requires Valid(s, facts)
    requires Find(ConnectOp(s, p1, p2), p2) != Find(ConnectOp(s, p1, p2), p3)
    ensures ConnectionStateOf(DisconnectOp(ConnectOp(s, p1, p2), p2, p3), p1, p3) == NotConnected
    ensures ConnectionStateAsWritten(DisconnectOp(ConnectOp(s, p1, p2), p2, p3), p1, p3) == NotConnected
  {
    var s1 := ConnectOp(s, p1, p2);
    ConnectShape(s, p1, p2);
    ConnectKeeps(s, facts, p1, p2);
    DisconnectKeeps(s1, facts, p2, p3);
    var s2 := DisconnectOp(s1, p2, p3);
    var facts' := facts + {(p2, p3), (p3, p2)};
    assert Find(s2, p1) == Find(s2, p2);
    assert (p2, p3) in facts';
    ConnectionStateExact(s2, facts', p1, p3);
  }

  /**
   * The lookup as written loses a recorded fact: after `disconnect(1, 3)`,
   * `connect(1, 2)`, `connect(3, 4)` it reports pins 2 and 4 as UNKNOWN,
   * although 2 is connected to 1, 4 to 3, and 1 was found not connected to 3.
   */
  lemma StaleRepresentative()
    ensures var s := ConnectOp(ConnectOp(DisconnectOp(Empty, 1, 3), 1, 2), 3, 4);
      && ConnectionStateAsWritten(s, 2, 4) == Unknown
      && ConnectionStateOf(s, 2, 4) == NotConnected
      && Find(s, 1) == Find(s, 2) && Find(s, 3) == Find(s, 4)
  {
    var s1 := DisconnectOp(Empty, 1, 3);
    DisconnectShape(Empty, 1, 3);
    assert Find(s1, 1) == 1 && Find(s1, 3) == 3 && NC(s1, 1) == {3} && NC(s1, 3) == {1};
    var s2 := ConnectOp(s1, 1, 2);
    ConnectShape(s1, 1, 2);
    assert Find(s2, 1) == 2 && Find(s2, 2) == 2 && Find(s2, 3) == 3 && Find(s2, 4) == 4;
    assert NC(s2, 2) == {3} && NC(s2, 3) == {1} && NC(s2, 4) == {};
    var s3 := ConnectOp(s2, 3, 4);
    ConnectShape(s2, 3, 4);
    assert Find(s3, 1) == 2 && Find(s3, 2) == 2 && Find(s3, 3) == 4 && Find(s3, 4) == 4;
    assert NC(s3, 2) == {3} && NC(s3, 4) == {1};
  }

  // ---------------------------------------------------------------------------
  // The manager object

  class Manager {
    var root: map<int, int>
    var notConnected: map<int, set<int>>
    /** The `disconnect` calls since the last `clear`, in both orders. */
    ghost var facts: set<(int, int)>

    function State(): Sets
      reads this
    {
      Sets(root, notConnected)
    }

    ghost predicate Inv()
      reads this
    {
      Valid(State(), facts)
    }

    constructor ()
      ensures Inv() && State() == Empty && facts == {}
    {
      root := map[];
      notConnected := map[];
      facts := {};
    }

    method Clear()
      modifies this
      ensures Inv() && State() == Empty && facts == {}
    {
      root := map[];
      notConnected := map[];
      facts := {};
    }

    /** `find`, which registers an unseen pin. */
    method FindPin(p: int) returns (r: int)
      modifies this
      ensures State() == Register(old(State()), p) && facts == old(facts)
      ensures r == Find(State(), p) && r == Find(old(State()), p)
    {
      if p !in root {
        root := root[p := p];
      }
      r := root[p];
    }

    function ConnectionStateOfPins(pin1: int, pin2: int): (r: ConnectionState)
      reads this
      ensures r == Connected <==> Find(State(), pin1) == Find(State(), pin2)
    {
      ConnectionStateOf(State(), pin1, pin2)
    }

    method Connect(pin1: int, pin2: int)
      requires Inv()
      modifies this
      ensures Inv() && State() == ConnectOp(old(State()), pin1, pin2) && facts == old(facts)
    {
      ConnectKeeps(State(), facts, pin1, pin2);
      var find1 := FindPin(pin1);
      var find2 := FindPin(pin2);
      ghost var s1 := State();
      assert s1 == Register(Register(old(State()), pin1), pin2);
      assert find1 == Find(s1, pin1) && find2 == Find(s1, pin2);
      var total := NC(State(), find1) + NC(State(), find2);
      if find1 != find2 {
        root := map p | p in root :: if root[p] == find1 then find2 else root[p];
        assert State() == Relinked(s1, find1, find2);
      }
      ghost var s2 := State();
      assert s2 == if find1 == find2 then s1 else Relinked(s1, find1, find2);
      var find := if find1 in root then root[find1] else find1;
      assert find == Find(s2, find1);
      notConnected := notConnected[find := total];
    }

    method Disconnect(pin1: int, pin2: int)
      requires Inv()
      modifies this
      ensures Inv() && State() == DisconnectOp(old(State()), pin1, pin2)
      ensures facts == old(facts) + {(pin1, pin2), (pin2, pin1)}
    {
      DisconnectKeeps(State(), facts, pin1, pin2);
      var find1 := FindPin(pin1);
      var find2 := FindPin(pin2);
      notConnected := notConnected[find1 := NC(State(), find1) + {find2}];
      notConnected := notConnected[find2 := NC(State(), find2) + {find1}];
      facts := facts + {(pin1, pin2), (pin2, pin1)};
    }

    method SetConnected(pin1: int, pin2: int, connection: bool)
      requires Inv()
      modifies this
      ensures Inv() && State() == SetConnectedOp(old(State()), pin1, pin2, connection)
      ensures facts == if connection then old(facts) else old(facts) + {(pin1, pin2), (pin2, pin1)}
    {
      if connection {
        Connect(pin1, pin2);
      } else {
        Disconnect(pin1, pin2);
      }
    }

    function ExtractNetworks(): (r: set<set<int>>)
      reads this
      ensures forall n :: n in r ==> |n| >= 2
    {
      Networks(State())
    }
  }
}
