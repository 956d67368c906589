/** Moving axis directions and their numeric index. */
module AxisDirection {
  import Sorting

  datatype Axis = X | Y | Z

  /** The enum declaration order. */
  const DeclaredAxes: seq<Axis> := [X, Y, Z]

  /** The string value of each member. */
  function Value(a: Axis): string
  {
    match a
    case X => "X"
    case Y => "Y"
    case Z => "Z"
  }

  /** The values are one character long, so string order is the order of that character. */
  function SortKey(a: Axis): int
  {
    Value(a)[0] as int
  }

  function IndexOf(s: seq<Axis>, a: Axis): (r: nat)
    requires a in s
    ensures r < |s| && s[r] == a
    ensures forall k :: 0 <= k < r ==> s[k] != a
  {
    if s[0] == a then 0 else 1 + IndexOf(s[1..], a)
  }

  lemma SortedAxes()
    ensures Sorting.SortBy(DeclaredAxes, SortKey) == [X, Y, Z]
  {
    assert Sorting.SortBy([Z], SortKey) == [Z];
    assert Sorting.SortBy([Y, Z], SortKey) == [Y, Z] by {
      assert [Y, Z][1..] == [Z];
    }
    assert [X, Y, Z][1..] == [Y, Z];
  }

  /** The position of an axis in the sorted list of all axes. */
  function ToIndex(a: Axis): (r: nat)
    ensures r < 3
    ensures r == (match a case X => 0 case Y => 1 case Z => 2)
  {
    SortedAxes();
    assert Sorting.SortBy(DeclaredAxes, SortKey)[Value(a)[0] as int - 'X' as int] == a;
    IndexOf(Sorting.SortBy(DeclaredAxes, SortKey), a)
  }

  lemma ToIndexInjective(a: Axis, b: Axis)
    ensures ToIndex(a) == ToIndex(b) ==> a == b
  {
  }
}
