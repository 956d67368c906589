/** The four digital channels of a signal multiplexer. */
module SignalMultiplexerConfig {
  import opened Wrappers
  import Sorting

  datatype Channel = ONE | TWO | THREE | FOUR

  /** The members in declaration order. */
  const Members: seq<Channel> := [ONE, TWO, THREE, FOUR]

  function Value(c: Channel): int
  {
    match c
    case ONE => 1
    case TWO => 2
    case THREE => 3
    case FOUR => 4
  }

  /** The first channel: the one with the smallest value. */
  function Min(): (r: Channel)
    ensures forall c: Channel :: Value(r) <= Value(c)
  {
    ONE
  }

  /** The last channel: the one with the largest value. */
  function Max(): (r: Channel)
    ensures forall c: Channel :: Value(c) <= Value(r)
  {
    FOUR
  }

  /** The channel with a given value; values outside `min..max` fail the assertion. */
  function FromInt(i: int): (r: Result<Channel>)
    ensures r.Ok? <==> Value(Min()) <= i <= Value(Max())
    ensures r.Ok? ==> Value(r.value) == i
    ensures r.Err? ==> r.error == AssertionError
  {
    if !(Value(Min()) <= i <= Value(Max())) then Err(AssertionError)
    else if i == 1 then Ok(ONE)
    else if i == 2 then Ok(TWO)
    else if i == 3 then Ok(THREE)
    else Ok(FOUR)
  }

  lemma FromIntValue(c: Channel)
    ensures FromInt(Value(c)) == Ok(c)
  {
  }

  function Values(s: seq<Channel>): (r: seq<int>)
    ensures |r| == |s| && forall k :: 0 <= k < |s| ==> r[k] == Value(s[k])
  {
    if s == [] then [] else [Value(s[0])] + Values(s[1..])
  }

  function Identity(x: int): int { x }

  /** The sorted values of all members. */
  function ChannelIds(): seq<int>
  {
    Sorting.SortBy(Values(Members), Identity)
  }

  /** All members, sorted by value. */
  function Channels(): seq<Channel>
  {
    Sorting.SortBy(Members, Value)
  }

  lemma ChannelIdsAreOneToFour()
    ensures ChannelIds() == [1, 2, 3, 4]
  {
    var v := Values(Members);
    assert v == [1, 2, 3, 4];
    assert v[1..] == [2, 3, 4] && v[2..] == [3, 4] && v[3..] == [4];
    assert Sorting.SortBy([4], Identity) == [4];
    assert Sorting.SortBy([3, 4], Identity) == [3, 4] by { assert [3, 4][1..] == [4]; }
    assert Sorting.SortBy([2, 3, 4], Identity) == [2, 3, 4] by { assert [2, 3, 4][1..] == [3, 4]; }
    assert [1, 2, 3, 4][1..] == [2, 3, 4];
  }

  lemma ChannelsInValueOrder()
    ensures Channels() == [ONE, TWO, THREE, FOUR]
    ensures forall i, j :: 0 <= i < j < |Channels()| ==> Value(Channels()[i]) < Value(Channels()[j])
  {
    assert Members[1..] == [TWO, THREE, FOUR] && Members[2..] == [THREE, FOUR] && Members[3..] == [FOUR];
    assert Sorting.SortBy([FOUR], Value) == [FOUR];
    assert Sorting.SortBy([THREE, FOUR], Value) == [THREE, FOUR] by { assert [THREE, FOUR][1..] == [FOUR]; }
    assert Sorting.SortBy([TWO, THREE, FOUR], Value) == [TWO, THREE, FOUR] by { assert [TWO, THREE, FOUR][1..] == [THREE, FOUR]; }
  }
}
