/**
 * The shape check of the project storage's request validation: a nested
 * list is accepted as an array when its rank is the expected one and every
 * dimension that is not a wildcard has the expected size.
 */
module Validators {
  /**
   * A dimension list matches an expected one when the ranks agree and each
   * non-negative expected dimension equals the actual one; a negative
   * expected dimension is a wildcard.
   */
  predicate ShapeMatches(shape: seq<nat>, expected: seq<int>)
  {
    |shape| == |expected| && forall i :: 0 <= i < |shape| && expected[i] >= 0 ==> shape[i] == expected[i]
  }

  /**
   * `__np_shape_checker` on the shape numpy gives the nested list: the
   * ranks first, then the dimensions in order, stopping at the first mismatch.
   */
  method NpShapeChecker(shape: seq<nat>, expected: seq<int>) returns (ok: bool)
    ensures ok <==> ShapeMatches(shape, expected)
  {
    if |shape| != |expected| {
      return false;
    }
    var i := 0;
    while i < |shape|
      invariant 0 <= i <= |shape|
      invariant forall k :: 0 <= k < i && expected[k] >= 0 ==> shape[k] == expected[k]
    {
      if expected[i] >= 0 && shape[i] != expected[i] {
        return false;
      }
      i := i + 1;
    }
    return true;
  }

  /** Different ranks never match. */
  lemma RankMismatch(shape: seq<nat>, expected: seq<int>)
    requires |shape| != |expected|
    ensures !ShapeMatches(shape, expected)
  {
  }

  /** An expected shape of wildcards only matches every shape of its rank. */
  lemma WildcardsMatchAll(shape: seq<nat>, expected: seq<int>)
    requires forall i :: 0 <= i < |expected| ==> expected[i] < 0
    ensures ShapeMatches(shape, expected) <==> |shape| == |expected|
  {
  }

  /** A shape matches itself, and without wildcards only itself. */
  lemma ExactShape(shape: seq<nat>, expected: seq<int>)
    requires forall i :: 0 <= i < |expected| ==> expected[i] >= 0
    ensures ShapeMatches(shape, expected) <==> |shape| == |expected| && forall i :: 0 <= i < |shape| ==> shape[i] == expected[i]
  {
  }

  /** Replacing an expected dimension by a wildcard keeps every shape that matched. */
  lemma WildcardWidens(shape: seq<nat>, expected: seq<int>, i: nat)
    requires i < |expected| && ShapeMatches(shape, expected)
    ensures ShapeMatches(shape, expected[i := -1])
  {
  }

  /** What `to_np_array` is handed: a list (given by its numpy shape) or any other value. */
  datatype Input = ListInput(shape: seq<nat>) | OtherInput

  /**
   * `to_np_array`'s validation: the value must be a list, and then pass the
   * shape check; only then is it converted.
   */
  function ToNpArrayAccepts(input: Input, expected: seq<int>): (r: bool)
    ensures input.OtherInput? ==> !r
  {
    match input
    case OtherInput => false
    case ListInput(shape) => ShapeMatches(shape, expected)
  }
}
