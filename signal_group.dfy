/**
 * A group of analysed lines that may belong to one transmission: by
 * position the clock, the first and second data line and the control line,
 * with the protocol identified for them and its encoding parameters.
 */
module SignalGroups {
  import opened Wrappers
  import opened SignalAnalysisResult
  import PythonNumeric

  /**
   * One position of a group. The aggregator puts `None` where a group has
   * no clock; the exports also expect an empty list `[]` there.
   */
  datatype Line = NoLine | EmptyLine | Present(analysed: AnalysedSignal)

  /** The protocol name: unset, a known protocol's name, or the signal type of a standalone line. */
  datatype ProtocolName = NoProtocol | Named(name: string) | OfType(signalType: SignalType)

  /** The role positions of a group. */
  const ClockRole: nat := 0
  const Data1Role: nat := 1
  const Data2Role: nat := 2
  const ControlRole: nat := 3

  /** The element at a role's position, or `None` for a shorter group. */
  function RoleOf(lines: seq<Line>, role: nat): (r: Line)
    ensures role < |lines| ==> r == lines[role]
    ensures role >= |lines| ==> r == NoLine
  {
    if role < |lines| then lines[role] else NoLine
  }

  /** The index a role is exported as: the signal's index for a present line, `None` for `None` and `[]`. */
  function RoleIndex(line: Line): (r: Option<int>)
    ensures r.Some? <==> line.Present?
    ensures line.Present? ==> r.value == line.analysed.signal.index
  {
    match line
    case Present(a) => Some(a.signal.index)
    case _ => None
  }

  /** The dictionary `to_json` builds. */
  datatype GroupJson = GroupJson(
    protocolName: ProtocolName,
    clock: Option<int>,
    data1: Option<int>,
    data2: Option<int>,
    control: Option<int>,
    identificationRatings: Option<seq<(string, real)>>,
    encodingParameters: map<string, ParamValue>,
    correlationRating: Option<Float64>)

  class SignalGroup {
    var analyzedSignals: seq<Line>
    var protocolName: ProtocolName
    var identificationRatings: Option<seq<(string, real)>>
    var encodingParameters: map<string, ParamValue>
    /** `-1` until the aggregator rates the group; `None` when it found no correlated line. */
    var correlationRating: Option<Float64>

    constructor(signals: seq<Line>)
      ensures analyzedSignals == signals
      ensures protocolName == NoProtocol && identificationRatings == None
      ensures encodingParameters == map[] && correlationRating == Some(Finite(-1.0))
    {
      analyzedSignals := signals;
      protocolName := NoProtocol;
      identificationRatings := None;
      encodingParameters := map[];
      correlationRating := Some(Finite(-1.0));
    }

    function ClockSignal(): (r: Line)
      reads this
      ensures r == RoleOf(analyzedSignals, ClockRole)
    {
      if |analyzedSignals| >= 1 then analyzedSignals[0] else NoLine
    }

    function Data1Signal(): (r: Line)
      reads this
      ensures r == RoleOf(analyzedSignals, Data1Role)
    {
      if |analyzedSignals| >= 2 then analyzedSignals[1] else NoLine
    }

    function Data2Signal(): (r: Line)
      reads this
      ensures r == RoleOf(analyzedSignals, Data2Role)
    {
      if |analyzedSignals| >= 3 then analyzedSignals[2] else NoLine
    }

    function ControlSignal(): (r: Line)
      reads this
      ensures r == RoleOf(analyzedSignals, ControlRole)
    {
      if |analyzedSignals| >= 4 then analyzedSignals[3] else NoLine
    }

    /**
     * `to_json`: the group's fields, each role as the index of its signal
     * when the role holds a signal and as `None` otherwise.
     */
    function ToJson(): (r: GroupJson)
      reads this
      ensures r.protocolName == protocolName && r.identificationRatings == identificationRatings
      ensures r.encodingParameters == encodingParameters && r.correlationRating == correlationRating
      ensures forall role :: 0 <= role < 4 && role < |analyzedSignals| && analyzedSignals[role].Present? ==>
        [r.clock, r.data1, r.data2, r.control][role] == Some(analyzedSignals[role].analysed.signal.index)
      ensures forall role :: 0 <= role < 4 && (role >= |analyzedSignals| || !analyzedSignals[role].Present?) ==>
        [r.clock, r.data1, r.data2, r.control][role] == None
    {
      GroupJson(protocolName, RoleIndex(ClockSignal()), RoleIndex(Data1Signal()), RoleIndex(Data2Signal()),
                RoleIndex(ControlSignal()), identificationRatings, encodingParameters, correlationRating)
    }
  }

  // ---------------------------------------------------------------------------
  // The optimum resolution: the greatest common divisor of the resolutions

  function Mul(k: int, d: int): int
  {
    k * d
  }

  /** Whether `n` is a multiple of `d`; only 0 is a multiple of 0. */
  ghost predicate Divides(d: nat, n: nat)
  {
    exists k: int :: Mul(k, d) == n
  }

  /** The greatest common divisor of two magnitudes, by Euclid's subtraction steps; `gcd(0, 0)` is 0. */
  function Gcd(a: nat, b: nat): nat
    decreases a + b
  {
    if a == 0 then b
    else if b == 0 then a
    else if a >= b then Gcd(a - b, b)
    else Gcd(a, b - a)
  }

  /** `math.gcd` of two integers. */
  function PyGcd(a: int, b: int): nat
  {
    Gcd(PythonNumeric.AbsInt(a), PythonNumeric.AbsInt(b))
  }

  lemma DividesSelf(n: nat)
    ensures Divides(n, n) && Divides(n, 0)
  {
    assert Mul(1, n) == n && Mul(0, n) == 0;
  }

  /** A divisor of two numbers divides their sum and their difference. */
  lemma DividesSum(d: nat, a: nat, b: nat)
    requires Divides(d, a) && Divides(d, b)
    ensures Divides(d, a + b)
    ensures a >= b ==> Divides(d, a - b)
  {
    var ka :| Mul(ka, d) == a;
    var kb :| Mul(kb, d) == b;
    assert Mul(ka + kb, d) == a + b;
    assert Mul(ka - kb, d) == a - b;
  }

  lemma DividesTransitive(g: nat, m: nat, n: nat)
    requires Divides(g, m) && Divides(m, n)
    ensures Divides(g, n)
  {
    var x :| Mul(x, g) == m;
    var y :| Mul(y, m) == n;
    assert Mul(y * x, g) == n;
  }

  /** The gcd divides both arguments. */
  lemma {:induction false} GcdDivides(a: nat, b: nat)
    ensures Divides(Gcd(a, b), a) && Divides(Gcd(a, b), b)
    decreases a + b
  {
    if a == 0 || b == 0 {
      DividesSelf(a + b);
    } else if a >= b {
      GcdDivides(a - b, b);
      DividesSum(Gcd(a, b), a - b, b);
    } else {
      GcdDivides(a, b - a);
      DividesSum(Gcd(a, b), b - a, a);
    }
  }

  /** Every common divisor divides the gcd. */
  lemma {:induction false} GcdGreatest(a: nat, b: nat, d: nat)
    requires Divides(d, a) && Divides(d, b)
    ensures Divides(d, Gcd(a, b))
    decreases a + b
  {
    if a > 0 && b > 0 {
      if a >= b {
        DividesSum(d, a, b);
        GcdGreatest(a - b, b, d);
      } else {
        DividesSum(d, b, a);
        GcdGreatest(a, b - a, d);
      }
    }
  }

  /** The resolutions of the lines that are not `[]`: a `None` line has none and raises. */
  function Resolutions(lines: seq<Line>, rule: ResolutionRule): (r: Result<seq<int>>)
    ensures r.Err? <==> exists k :: 0 <= k < |lines| && (lines[k].NoLine? || (lines[k].Present? && rule == AsWritten))
    ensures r.Err? ==> r.error == AttributeError
    ensures r.Ok? ==> |r.value| <= |lines|
  {
    if lines == [] then Ok([])
    else
      var rest := Resolutions(lines[1..], rule);
      assert forall k :: 1 <= k < |lines| ==> lines[k] == lines[1..][k - 1];
      match lines[0]
      case NoLine => Err(AttributeError)
      case EmptyLine => rest
      case Present(a) =>
        if rule == AsWritten then Err(AttributeError)
        else if rest.Err? then rest
        else Ok([a.signal.timeResolution] + rest.value)
  }

  /**
   * How a present line's resolution is read: as written through a
   * `get_time_resolution` method, which neither an analysed signal nor a
   * measurement signal has, or through the measurement signal's
   * `time_resolution` as intended.
   */
  datatype ResolutionRule = AsWritten | Intended

  /** The fold `gcd = list[0]; for r in list: gcd = math.gcd(gcd, r)` over the first `n` resolutions. */
  function GcdFold(rs: seq<int>, n: nat): (r: int)
    requires 0 < |rs| && n <= |rs|
    ensures n > 0 ==> r >= 0
  {
    if n == 0 then rs[0] else PyGcd(GcdFold(rs, n - 1), rs[n - 1])
  }

  /** After at least one step the fold divides every resolution it has seen. */
  lemma {:induction false} GcdFoldDivides(rs: seq<int>, n: nat, k: nat)
    requires 0 < n <= |rs| && k < n
    ensures GcdFold(rs, n) >= 0 && Divides(GcdFold(rs, n), PythonNumeric.AbsInt(rs[k]))
  {
    var prev := GcdFold(rs, n - 1);
    var g := PyGcd(prev, rs[n - 1]);
    GcdDivides(PythonNumeric.AbsInt(prev), PythonNumeric.AbsInt(rs[n - 1]));
    if k < n - 1 {
      GcdFoldDivides(rs, n - 1, k);
      DividesTransitive(g, prev, PythonNumeric.AbsInt(rs[k]));
    }
  }

  /** Every common divisor of the resolutions divides the fold. */
  lemma {:induction false} GcdFoldGreatest(rs: seq<int>, n: nat, d: nat)
    requires 0 < n <= |rs|
    requires forall k :: 0 <= k < n ==> Divides(d, PythonNumeric.AbsInt(rs[k]))
    ensures Divides(d, PythonNumeric.AbsInt(GcdFold(rs, n)))
  {
    var prev := GcdFold(rs, n - 1);
    if n > 1 {
      GcdFoldGreatest(rs, n - 1, d);
    }
    GcdGreatest(PythonNumeric.AbsInt(prev), PythonNumeric.AbsInt(rs[n - 1]), d);
  }

  /**
   * `__get_new_optimum_resolution`: the gcd of the resolutions of the lines;
   * a group without resolutions raises on `list_of_resolutions[0]`.
   */
  function OptimumResolution(lines: seq<Line>, rule: ResolutionRule): (r: Result<nat>)
    ensures r.Err? <==> Resolutions(lines, rule).Err? || Resolutions(lines, rule).value == []
    ensures Resolutions(lines, rule).Ok? && Resolutions(lines, rule).value == [] ==> r == Err(IndexError)
  {
    match Resolutions(lines, rule)
    case Err(e) => Err(e)
    case Ok(rs) => if rs == [] then Err(IndexError) else Ok(GcdFold(rs, |rs|))
  }

  /** As written, every group fails: a `None` or a present line raises, and a group of `[]` only has no resolutions. */
  lemma OptimumResolutionAsWrittenFails(lines: seq<Line>)
    ensures OptimumResolution(lines, AsWritten).Err?
  {
    var rs := Resolutions(lines, AsWritten);
    if rs.Ok? {
      EmptyLinesOnly(lines);
    }
  }

  lemma {:induction false} EmptyLinesOnly(lines: seq<Line>)
    requires Resolutions(lines, AsWritten).Ok?
    ensures Resolutions(lines, AsWritten).value == []
  {
    if lines != [] {
      EmptyLinesOnly(lines[1..]);
    }
  }

  /** As intended, the result divides the resolution of every present line. */
  lemma OptimumResolutionDivides(lines: seq<Line>)
    requires OptimumResolution(lines, Intended).Ok?
    ensures var g := OptimumResolution(lines, Intended).value; var rs := Resolutions(lines, Intended).value;
      forall k :: 0 <= k < |rs| ==> Divides(g, PythonNumeric.AbsInt(rs[k]))
  {
    var rs := Resolutions(lines, Intended).value;
    forall k | 0 <= k < |rs|
      ensures Divides(GcdFold(rs, |rs|), PythonNumeric.AbsInt(rs[k]))
    {
      GcdFoldDivides(rs, |rs|, k);
    }
  }

  /** As intended, every common divisor of the present lines' resolutions divides the result: it is their gcd. */
  lemma OptimumResolutionGreatest(lines: seq<Line>, d: nat)
    requires OptimumResolution(lines, Intended).Ok?
    requires var rs := Resolutions(lines, Intended).value; forall k :: 0 <= k < |rs| ==> Divides(d, PythonNumeric.AbsInt(rs[k]))
    ensures Divides(d, OptimumResolution(lines, Intended).value)
  {
    var rs := Resolutions(lines, Intended).value;
    GcdFoldDivides(rs, |rs|, 0);
    forall k | 0 <= k < |rs|
      ensures Divides(d, PythonNumeric.AbsInt(rs[k]))
    {
      assert rs[k] == Resolutions(lines, Intended).value[k];
    }
    GcdFoldGreatest(rs, |rs|, d);
  }

  /** The two loops of `__get_new_optimum_resolution`, with the resolutions read as intended. */
  method GetNewOptimumResolution(lines: seq<Line>) returns (r: Result<nat>)
    ensures r == OptimumResolution(lines, Intended)
  {
    var rs := CollectResolutions(lines);
    if rs.Err? {
      return Err(rs.error);
    }
    if rs.value == [] {
      return Err(IndexError);
    }
    var list := rs.value;
    var gcd: int := list[0];
    var i := 0;
    while i < |list|
      invariant 0 <= i <= |list|
      invariant gcd == GcdFold(list, i)
    {
      gcd := PyGcd(gcd, list[i]);
      i := i + 1;
    }
    return Ok(gcd);
  }

  /** The resolutions collected so far, followed by those of the lines still to come. */
  function Prepend(list: seq<int>, rest: Result<seq<int>>): Result<seq<int>>
  {
    if rest.Err? then rest else Ok(list + rest.value)
  }

  /** The first loop: the resolutions of the lines that are not `[]`. */
  method CollectResolutions(lines: seq<Line>) returns (r: Result<seq<int>>)
    ensures r == Resolutions(lines, Intended)
  {
    var list: seq<int> := [];
    var i := 0;
    assert lines[0..] == lines;
    if Resolutions(lines, Intended).Ok? {
      assert [] + Resolutions(lines, Intended).value == Resolutions(lines, Intended).value;
    }
    while i < |lines|
      invariant 0 <= i <= |lines|
      invariant Resolutions(lines, Intended) == Prepend(list, Resolutions(lines[i..], Intended))
    {
      assert lines[i..][1..] == lines[i + 1..];
      var rest := Resolutions(lines[i + 1..], Intended);
      if lines[i].NoLine? {
        return Err(AttributeError);
      }
      if lines[i].Present? {
        var x := lines[i].analysed.signal.timeResolution;
        if rest.Ok? {
          assert (list + [x]) + rest.value == list + ([x] + rest.value);
        }
        list := list + [x];
      }
      i := i + 1;
    }
    assert lines[i..] == [];
    assert list + [] == list;
    return Ok(list);
  }
}
