/**
 * The simple pin-detection metric: detections are matched to ground-truth
 * boxes by their centres, then split into true positives (the first match
 * of a box), multiple matches (its further matches), false negatives
 * (boxes without a match) and false positives (detections in no box),
 * with precision, recall and the mean relative box distance.
 */
module PinDetectionMetrics {
  import opened Wrappers
  import Sorting

  /** A ground-truth box `(x0, y0, x1, y1)`. */
  datatype Box = Box(x0: real, y0: real, x1: real, y1: real)

  /** The centre of a detected pin. */
  datatype Center = Center(x: real, y: real)

  /** A detection matches a box when its centre lies in the closed box. */
  predicate InBox(b: Box, c: Center)
  {
    b.x0 <= c.x <= b.x1 && b.y0 <= c.y <= b.y1
  }

  predicate Increasing(s: seq<nat>)
  {
    forall a, b :: 0 <= a < b < |s| ==> s[a] < s[b]
  }

  /** `pin_matches[j]`: the indices of the detections inside box `b`, in detection order. */
  function MatchesOf(b: Box, cs: seq<Center>): (r: seq<nat>)
    ensures forall i: nat :: i in r <==> i < |cs| && InBox(b, cs[i])
    ensures Increasing(r) && forall k :: 0 <= k < |r| ==> r[k] < |cs|
  {
    if cs == [] then []
    else
      var prefix := MatchesOf(b, cs[..|cs| - 1]);
      assert forall i: nat :: i < |cs| - 1 ==> cs[..|cs| - 1][i] == cs[i];
      prefix + (if InBox(b, cs[|cs| - 1]) then [|cs| - 1] else [])
  }

  /** The whole `pin_matches` table, one list per box. */
  function MatchTable(boxes: seq<Box>, cs: seq<Center>): (r: seq<seq<nat>>)
    ensures |r| == |boxes|
    ensures forall j: nat, i: nat :: j < |boxes| ==> (i in r[j] <==> i < |cs| && InBox(boxes[j], cs[i]))
  {
    seq(|boxes|, j requires 0 <= j < |boxes| => MatchesOf(boxes[j], cs))
  }

  /** The number of boxes a centre lies in. */
  function BoxCount(boxes: seq<Box>, c: Center): nat
  {
    if boxes == [] then 0
    else BoxCount(boxes[..|boxes| - 1], c) + (if InBox(boxes[|boxes| - 1], c) then 1 else 0)
  }

  lemma {:induction false} BoxCountZero(boxes: seq<Box>, c: Center)
    ensures BoxCount(boxes, c) == 0 <==> forall j :: 0 <= j < |boxes| ==> !InBox(boxes[j], c)
  {
    if boxes != [] {
      var init := boxes[..|boxes| - 1];
      BoxCountZero(init, c);
      assert forall j :: 0 <= j < |init| ==> init[j] == boxes[j];
    }
  }

  /**
   * The nested matching loops: for every detection in turn, its index is
   * appended to the list of every box containing its centre.
   */
  method MatchPins(boxes: seq<Box>, cs: seq<Center>) returns (pm: seq<seq<nat>>)
    ensures pm == MatchTable(boxes, cs)
  {
    pm := seq(|boxes|, j => []);
    var i := 0;
    while i < |cs|
      invariant 0 <= i <= |cs| && |pm| == |boxes|
      invariant forall j :: 0 <= j < |boxes| ==> pm[j] == MatchesOf(boxes[j], cs[..i])
    {
      assert cs[..i + 1][..i] == cs[..i];
      var j := 0;
      while j < |boxes|
        invariant 0 <= j <= |boxes| && |pm| == |boxes|
        invariant forall k :: 0 <= k < j ==> pm[k] == MatchesOf(boxes[k], cs[..i + 1])
        invariant forall k :: j <= k < |boxes| ==> pm[k] == MatchesOf(boxes[k], cs[..i])
      {
        if InBox(boxes[j], cs[i]) {
          pm := pm[j := pm[j] + [i]];
        }
        j := j + 1;
      }
      i := i + 1;
    }
    assert cs[..|cs|] == cs;
  }

  // ---------------------------------------------------------------------------
  // The lists, in the order the comprehensions build them

  /** `(matched[0], j)` for every box `j` with a match. */
  function TruePositiveMatches(pm: seq<seq<nat>>): seq<(nat, nat)>
  {
    if pm == [] then []
    else
      var last := pm[|pm| - 1];
      TruePositiveMatches(pm[..|pm| - 1]) + (if |last| >= 1 then [(last[0], |pm| - 1)] else [])
  }

  /** `matched[1:]` of every box with more than one match, concatenated. */
  function MultipleMatches(pm: seq<seq<nat>>): seq<nat>
  {
    if pm == [] then []
    else
      var last := pm[|pm| - 1];
      MultipleMatches(pm[..|pm| - 1]) + (if |last| > 1 then last[1..] else [])
  }

  /** The boxes without a match. */
  function NotMatched(pm: seq<seq<nat>>): seq<nat>
  {
    if pm == [] then []
    else NotMatched(pm[..|pm| - 1]) + (if |pm[|pm| - 1]| < 1 then [|pm| - 1] else [])
  }

  /** `all_matches`: every list flattened. */
  function AllMatches(pm: seq<seq<nat>>): seq<nat>
  {
    if pm == [] then [] else AllMatches(pm[..|pm| - 1]) + pm[|pm| - 1]
  }

  /** The detection indices below `n` that no list contains. */
  function Unmatched(n: nat, all: seq<nat>): seq<nat>
  {
    if n == 0 then [] else Unmatched(n - 1, all) + (if n - 1 !in all then [n - 1] else [])
  }

  function First(v: (nat, nat)): int { v.0 }
  function Id(x: nat): int { x }

  /** The per-true-positive relative box distance; a zero-width or zero-height box gives NaN (`None`). */
  function Rbd(b: Box, c: Center): (r: Option<real>)
    ensures r.None? <==> b.x1 == b.x0 || b.y1 == b.y0
  {
    var w := b.x1 - b.x0;
    var h := b.y1 - b.y0;
    if w == 0.0 || h == 0.0 then None
    else
      var gx := (b.x1 + b.x0) * 0.5;
      var gy := (b.y1 + b.y0) * 0.5;
      Some((1.0 - Abs(gx - c.x) / (w * 0.5)) * (1.0 - Abs(gy - c.y) / (h * 0.5)))
  }

  function Abs(a: real): real { if a < 0.0 then -a else a }

  /** The centre of a ground-truth box. */
  function BoxCenter(b: Box): Center
  {
    Center((b.x1 + b.x0) * 0.5, (b.y1 + b.y0) * 0.5)
  }

  /**
   * `pin_dist` squared: the squared Euclidean distance from the box centre to
   * the detected centre; never negative, and zero when the centres coincide.
   */
  function SquaredCenterDistance(b: Box, c: Center): (d: real)
    ensures d >= 0.0
    ensures c == BoxCenter(b) ==> d == 0.0
  {
    var dx := (b.x1 + b.x0) * 0.5 - c.x;
    var dy := (b.y1 + b.y0) * 0.5 - c.y;
    SquareNonNegative(dx);
    SquareNonNegative(dy);
    dx * dx + dy * dy
  }

  lemma SquareNonNegative(a: real)
    ensures a * a >= 0.0
  {
    if a < 0.0 {
      assert a * a == (-a) * (-a);
    }
  }

  function SumValues(vs: seq<real>): real
  {
    if vs == [] then 0.0 else SumValues(vs[..|vs| - 1]) + vs[|vs| - 1]
  }

  predicate AllDefined(vs: seq<Option<real>>)
  {
    forall k :: 0 <= k < |vs| ==> vs[k].Some?
  }

  function Values(vs: seq<Option<real>>): (r: seq<real>)
    requires AllDefined(vs)
    ensures |r| == |vs| && forall k :: 0 <= k < |vs| ==> r[k] == vs[k].value
  {
    seq(|vs|, k requires 0 <= k < |vs| => vs[k].value)
  }

  /** `mean_tp_rbd`: the sum over the true positives divided by the number of boxes, 0 without boxes. */
  function MeanRbd(vs: seq<Option<real>>, numBoxes: nat): (r: Option<real>)
    ensures numBoxes == 0 ==> r == Some(0.0)
    ensures numBoxes > 0 ==> (r.Some? <==> AllDefined(vs))
    ensures numBoxes > 0 && AllDefined(vs) ==> r.value * numBoxes as real == SumValues(Values(vs))
  {
    if numBoxes == 0 then Some(0.0)
    else if AllDefined(vs) then Some(SumValues(Values(vs)) / numBoxes as real)
    else None
  }

  datatype SimpleMetricResults = SimpleMetricResults(
    truePositiveMatches: seq<(nat, nat)>,
    falsePositives: seq<nat>,
    falseNegatives: seq<nat>,
    multipleMatches: seq<nat>,
    tpSquaredDistances: seq<real>,
    tpRbd: seq<Option<real>>,
    meanTpRbd: Option<real>)

  /** Every pair names a detection and a box that exist. */
  predicate InRange(tp: seq<(nat, nat)>, numDetections: nat, numBoxes: nat)
  {
    forall k :: 0 <= k < |tp| ==> tp[k].0 < numDetections && tp[k].1 < numBoxes
  }

  function RbdValues(boxes: seq<Box>, cs: seq<Center>, tp: seq<(nat, nat)>): (r: seq<Option<real>>)
    requires InRange(tp, |cs|, |boxes|)
    ensures |r| == |tp|
  {
    seq(|tp|, k requires 0 <= k < |tp| => Rbd(boxes[tp[k].1], cs[tp[k].0]))
  }

  /** `matched_pin_dist` before the square root: one squared distance per true positive. */
  function SquaredDistances(boxes: seq<Box>, cs: seq<Center>, tp: seq<(nat, nat)>): (r: seq<real>)
    requires InRange(tp, |cs|, |boxes|)
    ensures |r| == |tp| && forall k :: 0 <= k < |r| ==> r[k] >= 0.0
  {
    seq(|tp|, k requires 0 <= k < |tp| => SquaredCenterDistance(boxes[tp[k].1], cs[tp[k].0]))
  }

  /**
   * `calculate_simple_metric` as a value: the sorted lists, the distances
   * and their mean, or the plausibility assertion's failure.
   */
  function SimpleMetric(boxes: seq<Box>, cs: seq<Center>): (r: Result<SimpleMetricResults>)
    ensures r.Ok? ==> |r.value.truePositiveMatches| == |r.value.tpSquaredDistances| == |r.value.tpRbd|
    ensures r.Ok? ==> |r.value.truePositiveMatches| + |r.value.falseNegatives| == |boxes|
    ensures r.Ok? ==> forall k :: 0 <= k < |r.value.tpSquaredDistances| ==> r.value.tpSquaredDistances[k] >= 0.0
  {
    var pm := MatchTable(boxes, cs);
    var tp := Sorting.SortBy(TruePositiveMatches(pm), First);
    var mm := Sorting.SortBy(MultipleMatches(pm), Id);
    var fn := Sorting.SortBy(NotMatched(pm), Id);
    var fp := Sorting.SortBy(Unmatched(|cs|, AllMatches(pm)), Id);
    SortedTruePositivesInRange(boxes, cs);
    var dists := SquaredDistances(boxes, cs, tp);
    var values := RbdValues(boxes, cs, tp);
    if |cs| != |tp| + |mm| + |fp| || |boxes| != |tp| + |fn| then Err(AssertionError)
    else Ok(SimpleMetricResults(tp, fp, fn, mm, dists, values, MeanRbd(values, |boxes|)))
  }

  /** The distance loop: one squared distance and one value per true positive, written into fresh arrays. */
  method TruePositiveRbd(boxes: seq<Box>, cs: seq<Center>, tp: seq<(nat, nat)>)
    returns (ds: seq<real>, vs: seq<Option<real>>)
    requires InRange(tp, |cs|, |boxes|)
    ensures ds == SquaredDistances(boxes, cs, tp)
    ensures vs == RbdValues(boxes, cs, tp)
  {
    var dists := new real[|tp|](_ => 0.0);
    var values := new Option<real>[|tp|](_ => None);
    var k := 0;
    while k < |tp|
      invariant 0 <= k <= |tp|
      invariant forall a :: 0 <= a < k ==> dists[a] == SquaredCenterDistance(boxes[tp[a].1], cs[tp[a].0])
      invariant forall a :: 0 <= a < k ==> values[a] == Rbd(boxes[tp[a].1], cs[tp[a].0])
    {
      dists[k] := SquaredCenterDistance(boxes[tp[k].1], cs[tp[k].0]);
      values[k] := Rbd(boxes[tp[k].1], cs[tp[k].0]);
      k := k + 1;
    }
    ds, vs := dists[..], values[..];
  }

  /** `calculate_simple_metric`: match, build the sorted lists, the distances, then check plausibility. */
  method CalculateSimpleMetric(boxes: seq<Box>, cs: seq<Center>) returns (r: Result<SimpleMetricResults>)
    ensures r == SimpleMetric(boxes, cs)
  {
    var pm := MatchPins(boxes, cs);
    var tp := Sorting.SortBy(TruePositiveMatches(pm), First);
    var mm := Sorting.SortBy(MultipleMatches(pm), Id);
    var fn := Sorting.SortBy(NotMatched(pm), Id);
    var fp := Sorting.SortBy(Unmatched(|cs|, AllMatches(pm)), Id);
    SortedTruePositivesInRange(boxes, cs);
    var dists, values := TruePositiveRbd(boxes, cs, tp);
    var mean := MeanRbd(values, |boxes|);
    if |cs| != |tp| + |mm| + |fp| || |boxes| != |tp| + |fn| {
      return Err(AssertionError);
    }
    return Ok(SimpleMetricResults(tp, fp, fn, mm, dists, values, mean));
  }

  function TruePositives(r: SimpleMetricResults): (t: seq<nat>)
    ensures |t| == |r.truePositiveMatches|
  {
    seq(|r.truePositiveMatches|, k requires 0 <= k < |r.truePositiveMatches| => r.truePositiveMatches[k].0)
  }

  /** Pascal VOC precision: true positives over all matched or unmatched detections, 0 if none. */
  function Precision(r: SimpleMetricResults): (p: real)
    ensures 0.0 <= p <= 1.0
    ensures |r.truePositiveMatches| + |r.falsePositives| + |r.multipleMatches| == 0 ==> p == 0.0
    ensures p == 1.0 <==> |r.truePositiveMatches| > 0 && |r.falsePositives| + |r.multipleMatches| == 0
  {
    var sum := |TruePositives(r)| + |r.falsePositives| + |r.multipleMatches|;
    if sum > 0 then
      Fraction(|TruePositives(r)| as real, sum as real);
      |TruePositives(r)| as real / sum as real
    else 0.0
  }

  /** Pascal VOC recall: true positives over true positives plus false negatives, 0 if none. */
  function Recall(r: SimpleMetricResults): (p: real)
    ensures 0.0 <= p <= 1.0
    ensures |r.truePositiveMatches| + |r.falseNegatives| == 0 ==> p == 0.0
    ensures p == 1.0 <==> |r.truePositiveMatches| > 0 && |r.falseNegatives| == 0
  {
    var sum := |TruePositives(r)| + |r.falseNegatives|;
    if sum > 0 then
      Fraction(|TruePositives(r)| as real, sum as real);
      |TruePositives(r)| as real / sum as real
    else 0.0
  }

  // ---------------------------------------------------------------------------
  // Facts about the lists

  /** Every pair is a box's index with its first match. */
  predicate FirstMatches(tp: seq<(nat, nat)>, pm: seq<seq<nat>>)
  {
    forall k :: 0 <= k < |tp| ==> tp[k].1 < |pm| && |pm[tp[k].1]| >= 1 && tp[k].0 == pm[tp[k].1][0]
  }

  /** Each true positive is the first match of its box. */
  lemma {:induction false} TruePositiveFacts(pm: seq<seq<nat>>)
    ensures FirstMatches(TruePositiveMatches(pm), pm)
  {
    if pm != [] {
      var init := pm[..|pm| - 1];
      TruePositiveFacts(init);
      var tp := TruePositiveMatches(pm);
      var prev := TruePositiveMatches(init);
      assert FirstMatches(prev, init);
      forall k | 0 <= k < |tp|
        ensures tp[k].1 < |pm| && |pm[tp[k].1]| >= 1 && tp[k].0 == pm[tp[k].1][0]
      {
        if k < |prev| {
          assert tp[k] == prev[k];
          var j := prev[k].1;
          assert j < |init|;
          assert init[j] == pm[j];
        }
      }
    }
  }

  /** Every box is either a true positive's box or a false negative: `#GT = TP + FN`. */
  lemma {:induction false} BoxesSplit(pm: seq<seq<nat>>)
    ensures |TruePositiveMatches(pm)| + |NotMatched(pm)| == |pm|
  {
    if pm != [] {
      BoxesSplit(pm[..|pm| - 1]);
    }
  }

  /** The false negatives are the boxes without a match. */
  lemma {:induction false} NotMatchedMembers(pm: seq<seq<nat>>)
    ensures forall j: nat :: j in NotMatched(pm) <==> j < |pm| && |pm[j]| == 0
  {
    if pm != [] {
      var init := pm[..|pm| - 1];
      NotMatchedMembers(init);
      assert forall j :: 0 <= j < |init| ==> init[j] == pm[j];
    }
  }

  function TotalLength(pm: seq<seq<nat>>): nat
  {
    if pm == [] then 0 else TotalLength(pm[..|pm| - 1]) + |pm[|pm| - 1]|
  }

  /** True positives and multiple matches together are all the matches. */
  lemma {:induction false} MatchesSplit(pm: seq<seq<nat>>)
    ensures |TruePositiveMatches(pm)| + |MultipleMatches(pm)| == TotalLength(pm)
    ensures |AllMatches(pm)| == TotalLength(pm)
  {
    if pm != [] {
      MatchesSplit(pm[..|pm| - 1]);
    }
  }

  lemma {:induction false} AllMatchesMembers(pm: seq<seq<nat>>, i: nat)
    ensures i in AllMatches(pm) <==> exists j :: 0 <= j < |pm| && i in pm[j]
  {
    if pm != [] {
      var init := pm[..|pm| - 1];
      AllMatchesMembers(init, i);
      assert forall j :: 0 <= j < |init| ==> init[j] == pm[j];
      if i in pm[|pm| - 1] {
        assert i in AllMatches(pm);
      }
    }
  }

  /** A detection is in no list exactly when it lies in no box. */
  lemma MatchedIffInSomeBox(boxes: seq<Box>, cs: seq<Center>, i: nat)
    requires i < |cs|
    ensures i in AllMatches(MatchTable(boxes, cs)) <==> BoxCount(boxes, cs[i]) > 0
  {
    var pm := MatchTable(boxes, cs);
    AllMatchesMembers(pm, i);
    BoxCountZero(boxes, cs[i]);
    if BoxCount(boxes, cs[i]) > 0 {
      var j :| 0 <= j < |boxes| && InBox(boxes[j], cs[i]);
      assert i in pm[j];
    }
  }

  lemma {:induction false} UnmatchedMembers(n: nat, all: seq<nat>)
    ensures forall i: nat :: i in Unmatched(n, all) <==> i < n && i !in all
    ensures Increasing(Unmatched(n, all))
    ensures forall k :: 0 <= k < |Unmatched(n, all)| ==> Unmatched(n, all)[k] < n
  {
    if n > 0 {
      UnmatchedMembers(n - 1, all);
    }
  }

  /** The false positives are exactly the detections in no box. */
  lemma FalsePositivesExact(boxes: seq<Box>, cs: seq<Center>, i: nat)
    requires SimpleMetric(boxes, cs).Ok?
    ensures i in SimpleMetric(boxes, cs).value.falsePositives <==>
      i < |cs| && forall j :: 0 <= j < |boxes| ==> !InBox(boxes[j], cs[i])
  {
    var all := AllMatches(MatchTable(boxes, cs));
    var fp := Unmatched(|cs|, all);
    Sorting.SortByFacts(fp, Id);
    assert i in Sorting.SortBy(fp, Id) <==> i in multiset(fp);
    UnmatchedMembers(|cs|, all);
    if i < |cs| {
      MatchedIffInSomeBox(boxes, cs, i);
      BoxCountZero(boxes, cs[i]);
    }
  }

  /** The false negatives are exactly the boxes containing no detection. */
  lemma FalseNegativesExact(boxes: seq<Box>, cs: seq<Center>, j: nat)
    requires SimpleMetric(boxes, cs).Ok?
    ensures j in SimpleMetric(boxes, cs).value.falseNegatives <==>
      j < |boxes| && forall i :: 0 <= i < |cs| ==> !InBox(boxes[j], cs[i])
  {
    var pm := MatchTable(boxes, cs);
    var fn := NotMatched(pm);
    Sorting.SortByFacts(fn, Id);
    assert j in Sorting.SortBy(fn, Id) <==> j in multiset(fn);
    NotMatchedMembers(pm);
    if j < |boxes| && |pm[j]| > 0 {
      assert pm[j][0] in pm[j];
    }
  }

  lemma SortedTruePositivesInRange(boxes: seq<Box>, cs: seq<Center>)
    ensures InRange(Sorting.SortBy(TruePositiveMatches(MatchTable(boxes, cs)), First), |cs|, |boxes|)
  {
    var pm := MatchTable(boxes, cs);
    var tp := TruePositiveMatches(pm);
    var sorted := Sorting.SortBy(tp, First);
    TruePositiveFacts(pm);
    Sorting.SortByFacts(tp, First);
    forall k | 0 <= k < |sorted| ensures sorted[k].0 < |cs| && sorted[k].1 < |boxes| {
      assert sorted[k] in multiset(tp);
      var a :| 0 <= a < |tp| && tp[a] == sorted[k];
      assert pm[tp[a].1][0] in pm[tp[a].1];
    }
  }

  // ---------------------------------------------------------------------------
  // The plausibility checks

  /** One more detection adds its box count to the total length of the table. */
  lemma {:induction false} TotalLengthStep(boxes: seq<Box>, cs: seq<Center>, c: Center)
    ensures TotalLength(MatchTable(boxes, cs + [c])) == TotalLength(MatchTable(boxes, cs)) + BoxCount(boxes, c)
  {
    if boxes != [] {
      var init := boxes[..|boxes| - 1];
      TotalLengthStep(init, cs, c);
      assert MatchTable(init, cs + [c]) == MatchTable(boxes, cs + [c])[..|boxes| - 1];
      assert MatchTable(init, cs) == MatchTable(boxes, cs)[..|boxes| - 1];
      assert (cs + [c])[..|cs|] == cs;
    }
  }

  /** The sum of the box counts of all detections. */
  function CountSum(boxes: seq<Box>, cs: seq<Center>): nat
  {
    if cs == [] then 0 else CountSum(boxes, cs[..|cs| - 1]) + BoxCount(boxes, cs[|cs| - 1])
  }

  /** The number of detections inside at least one box. */
  function Covered(boxes: seq<Box>, cs: seq<Center>): nat
  {
    if cs == [] then 0 else Covered(boxes, cs[..|cs| - 1]) + (if BoxCount(boxes, cs[|cs| - 1]) > 0 then 1 else 0)
  }

  lemma {:induction false} TotalLengthIsCountSum(boxes: seq<Box>, cs: seq<Center>)
    ensures TotalLength(MatchTable(boxes, cs)) == CountSum(boxes, cs)
  {
    if cs == [] {
      if boxes != [] {
        EmptyTable(boxes);
      }
    } else {
      var init := cs[..|cs| - 1];
      TotalLengthIsCountSum(boxes, init);
      assert init + [cs[|cs| - 1]] == cs;
      TotalLengthStep(boxes, init, cs[|cs| - 1]);
    }
  }

  lemma {:induction false} EmptyTable(boxes: seq<Box>)
    ensures TotalLength(MatchTable(boxes, [])) == 0
  {
    if boxes != [] {
      EmptyTable(boxes[..|boxes| - 1]);
      assert MatchTable(boxes[..|boxes| - 1], []) == MatchTable(boxes, [])[..|boxes| - 1];
    }
  }

  /** Covered detections plus false positives are all detections. */
  lemma {:induction false} CoveredSplit(boxes: seq<Box>, cs: seq<Center>)
    ensures Covered(boxes, cs) + |Unmatched(|cs|, AllMatches(MatchTable(boxes, cs)))| == |cs|
  {
    var all := AllMatches(MatchTable(boxes, cs));
    CoveredPrefix(boxes, cs, all, |cs|);
    assert cs[..|cs|] == cs;
  }

  lemma {:induction false} CoveredPrefix(boxes: seq<Box>, cs: seq<Center>, all: seq<nat>, n: nat)
    requires n <= |cs| && all == AllMatches(MatchTable(boxes, cs))
    ensures Covered(boxes, cs[..n]) + |Unmatched(n, all)| == n
  {
    if n > 0 {
      CoveredPrefix(boxes, cs, all, n - 1);
      assert cs[..n][..n - 1] == cs[..n - 1];
      MatchedIffInSomeBox(boxes, cs, n - 1);
    }
  }

  /** The box counts sum to the covered count exactly when no detection lies in two boxes. */
  lemma {:induction false} CountSumCovered(boxes: seq<Box>, cs: seq<Center>)
    ensures CountSum(boxes, cs) >= Covered(boxes, cs)
    ensures CountSum(boxes, cs) == Covered(boxes, cs) <==>
      forall i :: 0 <= i < |cs| ==> BoxCount(boxes, cs[i]) <= 1
  {
    if cs != [] {
      var init := cs[..|cs| - 1];
      CountSumCovered(boxes, init);
      assert forall i :: 0 <= i < |init| ==> init[i] == cs[i];
    }
  }

  /**
   * The box-count assertion always holds, and the detection-count
   * assertion holds exactly when no detection centre lies in two boxes; so
   * the metric fails exactly on overlapping matches.
   */
  lemma SimpleMetricSucceeds(boxes: seq<Box>, cs: seq<Center>)
    ensures var pm := MatchTable(boxes, cs);
      |boxes| == |TruePositiveMatches(pm)| + |NotMatched(pm)|
    ensures SimpleMetric(boxes, cs).Ok? <==> forall i :: 0 <= i < |cs| ==> BoxCount(boxes, cs[i]) <= 1
  {
    var pm := MatchTable(boxes, cs);
    BoxesSplit(pm);
    MatchesSplit(pm);
    TotalLengthIsCountSum(boxes, cs);
    CountSumCovered(boxes, cs);
    CoveredSplit(boxes, cs);
    Sorting.SortByFacts(TruePositiveMatches(pm), First);
    Sorting.SortByFacts(MultipleMatches(pm), Id);
    Sorting.SortByFacts(NotMatched(pm), Id);
    Sorting.SortByFacts(Unmatched(|cs|, AllMatches(pm)), Id);
  }

  /** On success recall is the true positives over the number of boxes. */
  lemma RecallOverBoxes(boxes: seq<Box>, cs: seq<Center>)
    requires SimpleMetric(boxes, cs).Ok? && |boxes| > 0
    ensures var r := SimpleMetric(boxes, cs).value;
      Recall(r) == |r.truePositiveMatches| as real / |boxes| as real
  {
    var r := SimpleMetric(boxes, cs).value;
    var sum := |TruePositives(r)| + |r.falseNegatives|;
    assert sum == |boxes|;
    assert Recall(r) == |TruePositives(r)| as real / sum as real;
  }

  /** A true positive's relative box distance lies in [0, 1], and is 1 at the box centre. */
  lemma RbdBounds(b: Box, c: Center)
    requires InBox(b, c) && b.x0 < b.x1 && b.y0 < b.y1
    ensures Rbd(b, c).Some? && 0.0 <= Rbd(b, c).value <= 1.0
    ensures c == Center((b.x1 + b.x0) * 0.5, (b.y1 + b.y0) * 0.5) ==> Rbd(b, c) == Some(1.0)
  {
    var w := b.x1 - b.x0;
    var h := b.y1 - b.y0;
    var dx := Abs((b.x1 + b.x0) * 0.5 - c.x) / (w * 0.5);
    var dy := Abs((b.y1 + b.y0) * 0.5 - c.y) / (h * 0.5);
    UnitQuotient(Abs((b.x1 + b.x0) * 0.5 - c.x), w * 0.5);
    UnitQuotient(Abs((b.y1 + b.y0) * 0.5 - c.y), h * 0.5);
    UnitProduct(1.0 - dx, 1.0 - dy);
  }

  lemma UnitProduct(a: real, b: real)
    requires 0.0 <= a <= 1.0 && 0.0 <= b <= 1.0
    ensures 0.0 <= a * b <= 1.0
  {
    assert 0.0 <= a * b;
    assert a * b <= a;
  }

  lemma Fraction(t: real, s: real)
    requires 0.0 <= t <= s && s > 0.0
    ensures 0.0 <= t / s <= 1.0
    ensures t / s == 1.0 <==> t == s
  {
    UnitQuotient(t, s);
    assert t / s * s == t;
  }

  lemma UnitQuotient(n: real, d: real)
    requires 0.0 <= n <= d && d > 0.0
    ensures 0.0 <= n / d <= 1.0
  {
    assert n / d * d == n;
  }
}
