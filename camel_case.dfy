/**
 * Conversion of snake_case names to camelCase, and of the keys of nested
 * JSON-like dictionaries to camelCase, as the event stream does before
 * serialising an event.
 */
module CamelCase {

  // ---------------------------------------------------------------------------
  // Characters (ASCII case mapping)

  function Upper(c: char): (r: char)
    ensures r != '_' <==> c != '_'
    ensures 'a' <= c <= 'z' ==> 'A' <= r <= 'Z'
  {
    if 'a' <= c <= 'z' then (c as int - 32) as char else c
  }

  function Lower(c: char): (r: char)
    ensures r != '_' <==> c != '_'
    ensures 'A' <= c <= 'Z' ==> 'a' <= r <= 'z'
  {
    if 'A' <= c <= 'Z' then (c as int + 32) as char else c
  }

  function LowerAll(s: string): (r: string)
    ensures |r| == |s| && forall i :: 0 <= i < |s| ==> r[i] == Lower(s[i])
  {
    if s == [] then [] else [Lower(s[0])] + LowerAll(s[1..])
  }

  /** `str.capitalize()`: the first character upper-cased, all others lower-cased. */
  function Capitalize(s: string): (r: string)
    ensures |r| == |s|
    ensures s != [] ==> r[0] == Upper(s[0])
    ensures forall i :: 0 < i < |s| ==> r[i] == Lower(s[i])
    ensures '_' in r <==> '_' in s
  {
    if s == [] then [] else [Upper(s[0])] + LowerAll(s[1..])
  }

  // ---------------------------------------------------------------------------
  // Splitting at '_'

  /** Segments joined back with '_' between them. */
  function Join(segs: seq<string>): string
    requires |segs| >= 1
  {
    if |segs| == 1 then segs[0] else segs[0] + "_" + Join(segs[1..])
  }

  /** `str.split('_')`: always at least one segment, none containing '_'. */
  function Split(s: string): (r: seq<string>)
    ensures |r| >= 1
    ensures forall i :: 0 <= i < |r| ==> '_' !in r[i]
  {
    if s == [] then [[]]
    else
      var rest := Split(s[1..]);
      if s[0] == '_' then [[]] + rest else [[s[0]] + rest[0]] + rest[1..]
  }

  /** Splitting and joining again gives the string back. */
  lemma {:induction false} JoinSplit(s: string)
    ensures Join(Split(s)) == s
  {
    if s != [] {
      JoinSplit(s[1..]);
      var rest := Split(s[1..]);
      if s[0] != '_' {
        JoinCons(s[0], rest);
      }
    }
  }

  lemma {:induction false} JoinCons(c: char, segs: seq<string>)
    requires |segs| >= 1
    ensures Join([[c] + segs[0]] + segs[1..]) == [c] + Join(segs)
  {
    var t := [[c] + segs[0]] + segs[1..];
    assert t[0] == [c] + segs[0];
    if |segs| > 1 {
      assert t[1..] == segs[1..];
      var j := Join(segs[1..]);
      calc {
        Join(t);
        ([c] + segs[0]) + "_" + j;
        { SeqAssoc([c], segs[0], "_" + j); }
        [c] + (segs[0] + "_" + j);
        [c] + Join(segs);
      }
    }
  }

  lemma {:induction false} SeqAssoc(a: string, b: string, c: string)
    ensures (a + b) + c == a + (b + c)
  {
  }

  /** Joining segments free of '_' and splitting again gives the segments back. */
  lemma {:induction false} SplitJoin(segs: seq<string>)
    requires |segs| >= 1 && forall i :: 0 <= i < |segs| ==> '_' !in segs[i]
    ensures Split(Join(segs)) == segs
  {
    if |segs| == 1 {
      SplitNoSeparator(segs[0]);
    } else {
      SplitJoin(segs[1..]);
      SplitPrepend(segs[0], Join(segs[1..]));
      assert [segs[0]] + segs[1..] == segs;
    }
  }

  lemma {:induction false} SplitNoSeparator(s: string)
    requires '_' !in s
    ensures Split(s) == [s]
  {
    if s != [] {
      assert s[0] in s;
      assert forall c :: c in s[1..] ==> c in s;
      SplitNoSeparator(s[1..]);
      assert [s[0]] + s[1..] == s;
    }
  }

  /** Split of `a + "_" + t` for a segment `a`. */
  lemma {:induction false} SplitPrepend(a: string, t: string)
    requires '_' !in a
    ensures Split(a + "_" + t) == [a] + Split(t)
  {
    if a != [] {
      assert a[0] in a;
      assert forall c :: c in a[1..] ==> c in a;
      SplitPrepend(a[1..], t);
      var u := a + "_" + t;
      assert u[0] == a[0];
      assert u[1..] == a[1..] + "_" + t;
      assert [a[0]] + a[1..] == a;
    } else {
      assert a + "_" + t == "_" + t;
      assert ("_" + t)[1..] == t;
    }
  }

  // ---------------------------------------------------------------------------
  // convert_to_camelcase

  /** A later segment: capitalised, or '_' when it is empty. */
  function Segment(s: string): (r: string)
    ensures r != []
    ensures '_' in r <==> s == [] || '_' in s
  {
    var c := Capitalize(s);
    if c == [] then "_" else c
  }

  function Segments(segs: seq<string>): string
  {
    if segs == [] then [] else Segments(segs[..|segs| - 1]) + Segment(segs[|segs| - 1])
  }

  /** `convert_to_camelcase`: the first segment verbatim, then every later one through `Segment`. */
  function Camel(s: string): string
  {
    var segs := Split(s);
    segs[0] + Segments(segs[1..])
  }

  /** Camel-casing the join of segments works segment by segment. */
  lemma CamelOfSegments(segs: seq<string>)
    requires |segs| >= 1 && forall i :: 0 <= i < |segs| ==> '_' !in segs[i]
    ensures Camel(Join(segs)) == segs[0] + Segments(segs[1..])
  {
    SplitJoin(segs);
  }

  /** A name without '_' is left unchanged. */
  lemma NoUnderscoreUnchanged(s: string)
    requires '_' !in s
    ensures Camel(s) == s
  {
    SplitNoSeparator(s);
  }

  /** The part before the first '_' is a prefix of the name, ended by its first '_'. */
  lemma FirstSegmentKept(s: string)
    ensures var first := Split(s)[0];
      first <= s && first <= Camel(s) && (|first| == |s| || s[|first|] == '_')
  {
    var segs := Split(s);
    var first := segs[0];
    ConcatPrefix(first, Segments(segs[1..]));
    JoinSplit(s);
    if |segs| > 1 {
      var rest := "_" + Join(segs[1..]);
      assert Join(segs) == first + "_" + Join(segs[1..]);
      SeqAssoc(first, "_", Join(segs[1..]));
      ConcatPrefix(first, rest);
    }
  }

  lemma ConcatPrefix(a: string, b: string)
    ensures a <= a + b && (b != [] ==> (a + b)[|a|] == b[0])
  {
    assert (a + b)[..|a|] == a;
  }

  lemma {:induction false} SegmentsUnderscore(segs: seq<string>)
    requires forall i :: 0 <= i < |segs| ==> '_' !in segs[i]
    ensures '_' in Segments(segs) <==> [] in segs
  {
    if segs != [] {
      var init := segs[..|segs| - 1];
      SegmentsUnderscore(init);
      assert segs == init + [segs[|segs| - 1]];
    }
  }

  /** The result keeps a '_' exactly where `s` has an empty segment after the first. */
  lemma CamelUnderscore(s: string)
    ensures '_' in Camel(s) <==> [] in Split(s)[1..]
  {
    var segs := Split(s);
    SegmentsUnderscore(segs[1..]);
  }

  lemma CamelExample()
    ensures Camel("pin_id") == "pinId"
  {
    SplitJoin(["pin", "id"]);
    assert Join(["pin", "id"]) == "pin_id";
  }

  lemma CamelEmptySegmentExample()
    ensures Camel("a__b") == "a_B"
  {
    SplitJoin(["a", "", "b"]);
    assert Join(["a", "", "b"]) == "a__b";
  }

  // ---------------------------------------------------------------------------
  // convert_dict_to_camelcase

  /**
   * A JSON-like value: a dictionary, kept as its entries in insertion order,
   * or any other value, which the conversion never looks into.
   */
  datatype Value = Atom(id: int) | Obj(entries: seq<Entry>)
  datatype Entry = Entry(key: string, value: Value)

  function MaxOf(xs: seq<nat>): (r: nat)
    ensures forall i :: 0 <= i < |xs| ==> xs[i] <= r
  {
    if xs == [] then 0
    else
      var m := MaxOf(xs[..|xs| - 1]);
      if xs[|xs| - 1] > m then xs[|xs| - 1] else m
  }

  /** How deeply dictionaries are nested. */
  function Depth(v: Value): nat
  {
    match v
    case Atom(_) => 0
    case Obj(es) => 1 + MaxOf(seq(|es|, i requires 0 <= i < |es| => Depth(es[i].value)))
  }

  function Keys(d: seq<Entry>): (r: seq<string>)
    ensures |r| == |d| && forall i :: 0 <= i < |d| ==> r[i] == d[i].key
  {
    seq(|d|, i requires 0 <= i < |d| => d[i].key)
  }

  function KeySet(d: seq<Entry>): set<string>
  {
    set e | e in d :: e.key
  }

  predicate DistinctKeys(d: seq<Entry>)
  {
    forall i, j :: 0 <= i < j < |d| ==> d[i].key != d[j].key
  }

  predicate Distinct(ks: seq<string>)
  {
    forall i, j :: 0 <= i < j < |ks| ==> ks[i] != ks[j]
  }

  /** Every dictionary inside `v` has distinct keys, as a Python dict does. */
  predicate ValidValue(v: Value)
  {
    match v
    case Atom(_) => true
    case Obj(es) => DistinctKeys(es) && forall i :: 0 <= i < |es| ==> ValidValue(es[i].value)
  }

  predicate AllValid(d: seq<Entry>)
  {
    forall i :: 0 <= i < |d| ==> ValidValue(d[i].value)
  }

  /** Every value in `d` is nested less than `bound` deep. */
  predicate Below(d: seq<Entry>, bound: nat)
  {
    forall i :: 0 <= i < |d| ==> Depth(d[i].value) < bound
  }

  /** Entries a turn of the conversion can work on: nested less than `bound` deep, valid, with distinct keys. */
  predicate Proper(d: seq<Entry>, bound: nat)
  {
    Below(d, bound) && AllValid(d) && DistinctKeys(d)
  }

  lemma EntriesBelow(es: seq<Entry>)
    ensures Below(es, Depth(Obj(es)))
  {
    var depths := seq(|es|, i requires 0 <= i < |es| => Depth(es[i].value));
    assert forall i :: 0 <= i < |es| ==> Depth(es[i].value) == depths[i];
  }

  lemma DepthBelow(es: seq<Entry>, bound: nat)
    requires Below(es, bound) && bound > 0
    ensures Depth(Obj(es)) <= bound
  {
    var depths := seq(|es|, i requires 0 <= i < |es| => Depth(es[i].value));
    MaxBelow(depths, bound);
  }

  lemma {:induction false} MaxBelow(xs: seq<nat>, bound: nat)
    requires bound > 0 && forall i :: 0 <= i < |xs| ==> xs[i] < bound
    ensures MaxOf(xs) < bound
  {
    if xs != [] {
      MaxBelow(xs[..|xs| - 1], bound);
    }
  }

  /** The position of key `k` in `d`, or `|d|` when it is absent. */
  function IndexOf(d: seq<Entry>, k: string): (r: nat)
    ensures r <= |d|
    ensures r < |d| ==> d[r].key == k
    ensures forall j :: 0 <= j < r ==> d[j].key != k
    ensures r == |d| <==> k !in KeySet(d)
  {
    if d == [] then 0
    else if d[0].key == k then 0
    else
      assert forall e :: e in d[1..] ==> e in d;
      assert forall e :: e in d ==> e == d[0] || e in d[1..];
      1 + IndexOf(d[1..], k)
  }

  /** `dict.pop`'s removal of the entry at position `i`. */
  function Remove(d: seq<Entry>, i: nat): (r: seq<Entry>)
    requires i < |d|
    ensures |r| == |d| - 1
  {
    d[..i] + d[i + 1..]
  }

  /** `d[k] = v`: an existing key keeps its position, a new one goes last. */
  function Store(d: seq<Entry>, k: string, v: Value): (r: seq<Entry>)
    ensures |d| <= |r| <= |d| + 1
  {
    var i := IndexOf(d, k);
    if i < |d| then d[i := Entry(k, v)] else d + [Entry(k, v)]
  }

  lemma RemoveFacts(d: seq<Entry>, i: nat, bound: nat)
    requires i < |d| && DistinctKeys(d)
    ensures var r := Remove(d, i);
      KeySet(r) == KeySet(d) - {d[i].key} && DistinctKeys(r) &&
      (AllValid(d) ==> AllValid(r)) && (Below(d, bound) ==> Below(r, bound))
  {
    var r := Remove(d, i);
    assert forall j :: 0 <= j < |r| ==> r[j] == if j < i then d[j] else d[j + 1];
    forall k | k in KeySet(d) - {d[i].key}
      ensures k in KeySet(r)
    {
      var e :| e in d && e.key == k;
      var j :| 0 <= j < |d| && d[j] == e;
      if j < i {
        assert r[j] == e;
      } else {
        assert r[j - 1] == e;
      }
    }
  }

  lemma StoreFacts(d: seq<Entry>, k: string, v: Value, bound: nat)
    requires DistinctKeys(d)
    ensures var r := Store(d, k, v);
      KeySet(r) == KeySet(d) + {k} && DistinctKeys(r) &&
      (AllValid(d) && ValidValue(v) ==> AllValid(r)) &&
      (Below(d, bound) && Depth(v) < bound ==> Below(r, bound))
  {
    var i := IndexOf(d, k);
    var r := Store(d, k, v);
    if i < |d| {
      assert forall j :: 0 <= j < |d| && j != i ==> r[j] == d[j];
      forall x | x in KeySet(d)
        ensures x in KeySet(r)
      {
        var e :| e in d && e.key == x;
        var j :| 0 <= j < |d| && d[j] == e;
        if j == i {
          assert r[i].key == x;
        } else {
          assert r[j] == e;
        }
      }
    } else {
      assert forall j :: 0 <= j < |d| ==> r[j] == d[j];
    }
  }

  /**
   * One turn of the loop of `convert_dict_to_camelcase`: the value of `k` is
   * popped, converted when it is a dictionary, and stored under the camelCase
   * key.
   */
  function Step(d: seq<Entry>, k: string, bound: nat): (r: seq<Entry>)
    requires Proper(d, bound) && k in KeySet(d)
    ensures Proper(r, bound)
    ensures KeySet(r) == KeySet(d) - {k} + {Camel(k)} && |r| <= |d|
    decreases bound, 0
  {
    var i := IndexOf(d, k);
    var popped := d[i].value;
    var rest := Remove(d, i);
    var value := if popped.Obj? then ConvertValue(popped) else popped;
    RemoveFacts(d, i, bound);
    StoreFacts(rest, Camel(k), value, bound);
    Store(rest, Camel(k), value)
  }

  /**
   * The loop over the snapshot `keys`. The value a turn pops is the current
   * one, which an earlier turn's store may already have overwritten.
   */
  function Replay(d: seq<Entry>, keys: seq<string>, bound: nat): (r: seq<Entry>)
    requires Proper(d, bound)
    requires Distinct(keys) && forall k :: k in keys ==> k in KeySet(d)
    ensures Proper(r, bound)
    decreases bound, 1, |keys|
  {
    if keys == [] then d
    else
      var next := Step(d, keys[0], bound);
      assert forall k :: k in keys[1..] ==> k in keys && k != keys[0];
      Replay(next, keys[1..], bound)
  }

  /** `convert_dict_to_camelcase` as a value: dictionaries are converted, anything else is returned as is. */
  function ConvertValue(v: Value): (r: Value)
    requires ValidValue(v)
    ensures ValidValue(r) && Depth(r) <= Depth(v)
    ensures v.Atom? ==> r == v
    ensures v.Obj? ==> r.Obj?
    decreases Depth(v), 2
  {
    match v
    case Atom(_) => v
    case Obj(es) =>
      EntriesBelow(es);
      var r := Replay(es, Keys(es), Depth(v));
      DepthBelow(r, Depth(v));
      Obj(r)
  }

  /** The dictionary conversion, popping and re-inserting every key in place. */
  method ConvertDictToCamelcase(v: Value) returns (r: Value)
    requires ValidValue(v)
    ensures r == ConvertValue(v)
    decreases Depth(v)
  {
    if v.Atom? {
      return v;
    }
    var bound := Depth(v);
    EntriesBelow(v.entries);
    var data := v.entries;
    var keys := Keys(data);
    var i := 0;
    while i < |keys|
      invariant 0 <= i <= |keys|
      invariant Proper(data, bound)
      invariant forall k :: k in keys[i..] ==> k in KeySet(data)
      invariant Replay(data, keys[i..], bound) == Replay(v.entries, keys, bound)
    {
      ReplayStep(data, keys, i, bound);
      data := PopAndStore(data, keys[i], bound);
      i := i + 1;
    }
    DepthBelow(data, bound);
    return Obj(data);
  }

  lemma ReplayStep(d: seq<Entry>, keys: seq<string>, i: nat, bound: nat)
    requires i < |keys| && Distinct(keys)
    requires Proper(d, bound)
    requires forall k :: k in keys[i..] ==> k in KeySet(d)
    ensures keys[i] in KeySet(d)
    ensures forall k :: k in keys[i + 1..] ==> k in KeySet(Step(d, keys[i], bound))
    ensures Replay(d, keys[i..], bound) == Replay(Step(d, keys[i], bound), keys[i + 1..], bound)
  {
    assert keys[i..][0] == keys[i];
    assert keys[i..][1..] == keys[i + 1..];
    assert forall k :: k in keys[i + 1..] ==> k in keys[i..] && k != keys[i];
  }

  /** The body of the loop above, converting a nested dictionary by the recursive call. */
  method PopAndStore(data: seq<Entry>, key: string, bound: nat) returns (r: seq<Entry>)
    requires Proper(data, bound) && key in KeySet(data)
    ensures r == Step(data, key, bound)
    decreases bound, 0
  {
    var newKey := Camel(key);
    var j := IndexOf(data, key);
    var newData := data[j].value;
    var rest := Remove(data, j);
    if newData.Obj? {
      newData := ConvertDictToCamelcase(newData);
    }
    r := Store(rest, newKey, newData);
  }

  // ---------------------------------------------------------------------------
  // Properties of the dictionary conversion

  function CamelKeys(keys: seq<string>): set<string>
  {
    set k | k in keys :: Camel(k)
  }

  lemma KeySetsCons(keys: seq<string>)
    requires keys != []
    ensures (set k | k in keys) == {keys[0]} + set k | k in keys[1..]
    ensures CamelKeys(keys) == {Camel(keys[0])} + CamelKeys(keys[1..])
  {
    assert forall k :: k in keys <==> k == keys[0] || k in keys[1..];
  }

  lemma {:induction false} ReplayKeys(d: seq<Entry>, keys: seq<string>, bound: nat)
    requires Proper(d, bound)
    requires Distinct(keys) && forall k :: k in keys ==> k in KeySet(d)
    ensures var r := Replay(d, keys, bound);
      KeySet(r) <= (KeySet(d) - set k | k in keys) + CamelKeys(keys) && |r| <= |d|
    decreases |keys|
  {
    if keys != [] {
      var next := Step(d, keys[0], bound);
      assert forall k :: k in keys[1..] ==> k in keys && k != keys[0];
      ReplayKeys(next, keys[1..], bound);
      KeySetsCons(keys);
    }
  }

  /** Every key of the result is the camelCase form of an original key, and no entry is added. */
  lemma ConvertedKeys(es: seq<Entry>)
    requires ValidValue(Obj(es))
    ensures var r := ConvertValue(Obj(es)).entries;
      KeySet(r) <= CamelKeys(Keys(es)) && |r| <= |es|
  {
    EntriesBelow(es);
    var keys := Keys(es);
    assert forall k :: k in keys ==> k in KeySet(es);
    forall k | k in KeySet(es)
      ensures k in keys
    {
      var e :| e in es && e.key == k;
      var j :| 0 <= j < |es| && es[j] == e;
      assert keys[j] == k;
    }
    ReplayKeys(es, keys, Depth(Obj(es)));
  }

  /** Entries with camelCase keys and converted values, in the original order. */
  function Converted(es: seq<Entry>): (r: seq<Entry>)
    requires AllValid(es)
    ensures |r| == |es|
  {
    seq(|es|, i requires 0 <= i < |es| => Entry(Camel(es[i].key), ConvertValue(es[i].value)))
  }

  /**
   * No camelCase key meets another one, or a key that has not been popped
   * yet, or one already in `done`.
   */
  predicate NoClash(rest: seq<Entry>, done: seq<Entry>)
  {
    (forall i, j :: 0 <= i < j < |rest| ==> Camel(rest[i].key) != rest[j].key) &&
    (forall i, j :: 0 <= i < j < |rest| ==> Camel(rest[i].key) != Camel(rest[j].key)) &&
    (forall i :: 0 <= i < |rest| ==> Camel(rest[i].key) !in KeySet(done))
  }

  /** Without a clash the first key is popped from the front and its entry appended. */
  lemma NoClashStep(rest: seq<Entry>, done: seq<Entry>, bound: nat)
    requires rest != [] && NoClash(rest, done)
    requires Proper(rest + done, bound)
    ensures rest[0].key in KeySet(rest + done) && ValidValue(rest[0].value)
    ensures Step(rest + done, rest[0].key, bound) ==
      rest[1..] + (done + [Entry(Camel(rest[0].key), ConvertValue(rest[0].value))])
  {
    var d := rest + done;
    var k0 := rest[0].key;
    assert d[0] == rest[0];
    assert IndexOf(d, k0) == 0;
    var tail := rest[1..];
    assert Remove(d, 0) == tail + done;
    CamelAbsent(rest, done);
  }

  lemma CamelAbsent(rest: seq<Entry>, done: seq<Entry>)
    requires rest != [] && NoClash(rest, done)
    ensures Camel(rest[0].key) !in KeySet(rest[1..] + done)
  {
    var tail := rest[1..];
    forall e | e in tail + done
      ensures e.key != Camel(rest[0].key)
    {
      if e in tail {
        var j :| 0 <= j < |tail| && tail[j] == e;
        assert rest[j + 1] == e;
      } else {
        assert e.key in KeySet(done);
      }
    }
  }

  lemma ConvertedCons(rest: seq<Entry>)
    requires rest != [] && AllValid(rest)
    ensures Keys(rest)[1..] == Keys(rest[1..])
    ensures Converted(rest) == [Entry(Camel(rest[0].key), ConvertValue(rest[0].value))] + Converted(rest[1..])
  {
  }

  lemma NoClashNext(rest: seq<Entry>, done: seq<Entry>, e: Entry)
    requires rest != [] && NoClash(rest, done) && e.key == Camel(rest[0].key)
    ensures NoClash(rest[1..], done + [e])
  {
    var tail := rest[1..];
    forall i | 0 <= i < |tail|
      ensures Camel(tail[i].key) !in KeySet(done + [e])
    {
      assert tail[i] == rest[i + 1];
      assert forall x :: x in done + [e] ==> x in done || x == e;
    }
  }

  lemma KeysCovered(rest: seq<Entry>, done: seq<Entry>)
    ensures forall k :: k in Keys(rest) ==> k in KeySet(rest + done)
    ensures DistinctKeys(rest + done) ==> Distinct(Keys(rest))
  {
    forall k | k in Keys(rest)
      ensures k in KeySet(rest + done)
    {
      var j :| 0 <= j < |rest| && Keys(rest)[j] == k;
      assert (rest + done)[j] == rest[j];
    }
    if DistinctKeys(rest + done) {
      assert forall i :: 0 <= i < |rest| ==> (rest + done)[i] == rest[i];
    }
  }

  /** The state of the loop before popping the entries `rest`, with `done` converted and appended already. */
  predicate ReplayState(rest: seq<Entry>, done: seq<Entry>, bound: nat)
  {
    Proper(rest + done, bound) && AllValid(rest) && NoClash(rest, done)
  }

  /** One turn without a clash: the first entry moves to the end, converted, and the rest still clash with nothing. */
  lemma NoClashTurn(rest: seq<Entry>, done: seq<Entry>, bound: nat)
    requires rest != [] && ReplayState(rest, done, bound)
    ensures Distinct(Keys(rest)) && forall k :: k in Keys(rest) ==> k in KeySet(rest + done)
    ensures var e := Entry(Camel(rest[0].key), ConvertValue(rest[0].value)); var next := rest[1..] + (done + [e]);
      && ReplayState(rest[1..], done + [e], bound)
      && Distinct(Keys(rest[1..])) && (forall k :: k in Keys(rest[1..]) ==> k in KeySet(next))
      && Replay(rest + done, Keys(rest), bound) == Replay(next, Keys(rest[1..]), bound)
  {
    KeysCovered(rest, done);
    var k0 := rest[0].key;
    var e := Entry(Camel(k0), ConvertValue(rest[0].value));
    var tail := rest[1..];
    NoClashStep(rest, done, bound);
    NoClashNext(rest, done, e);
    assert forall i :: 0 <= i < |tail| ==> tail[i] == rest[i + 1];
    KeysCovered(tail, done + [e]);
    ConvertedCons(rest);
    assert Keys(rest)[0] == k0;
  }

  lemma {:induction false} ReplayNoClash(rest: seq<Entry>, done: seq<Entry>, bound: nat)
    requires ReplayState(rest, done, bound)
    ensures Distinct(Keys(rest)) && forall k :: k in Keys(rest) ==> k in KeySet(rest + done)
    ensures Replay(rest + done, Keys(rest), bound) == done + Converted(rest)
    decreases |rest|
  {
    KeysCovered(rest, done);
    if rest == [] {
      assert rest + done == done;
    } else {
      var e := Entry(Camel(rest[0].key), ConvertValue(rest[0].value));
      var tail := rest[1..];
      NoClashTurn(rest, done, bound);
      ReplayNoClash(tail, done + [e], bound);
      ConvertedCons(rest);
      assert (done + [e]) + Converted(tail) == done + ([e] + Converted(tail));
    }
  }

  /**
   * Without collisions the result holds every entry, in the original order,
   * under its camelCase key and with its value converted.
   */
  lemma ConvertWithoutClash(es: seq<Entry>)
    requires ValidValue(Obj(es)) && NoClash(es, [])
    ensures ConvertValue(Obj(es)) == Obj(Converted(es))
  {
    EntriesBelow(es);
    assert es + [] == es;
    forall k | k in Keys(es)
      ensures k in KeySet(es)
    {
      var j :| 0 <= j < |es| && Keys(es)[j] == k;
      assert es[j] in es;
    }
    ReplayNoClash(es, [], Depth(Obj(es)));
  }

  /** A turn for the first key, whose value is not a dictionary. */
  lemma StepFront(d: seq<Entry>, bound: nat)
    requires d != [] && d[0].value.Atom?
    requires Proper(d, bound)
    ensures d[0].key in KeySet(d)
    ensures Step(d, d[0].key, bound) == Store(d[1..], Camel(d[0].key), d[0].value)
  {
    assert IndexOf(d, d[0].key) == 0;
    assert Remove(d, 0) == d[1..];
  }

  /** Popping `k1` stores its value over the entry of `k2`, its camelCase form. */
  lemma TurnOverwrites(k1: string, k2: string, p: int, q: int, b: nat)
    requires k1 != k2 && Camel(k1) == k2 && b > 0
    ensures var d := [Entry(k1, Atom(p)), Entry(k2, Atom(q))];
      Proper(d, b) && k1 in KeySet(d) && Step(d, k1, b) == [Entry(k2, Atom(p))]
  {
    var d := [Entry(k1, Atom(p)), Entry(k2, Atom(q))];
    StepFront(d, b);
    assert d[1..] == [Entry(k2, Atom(q))];
    assert IndexOf(d[1..], k2) == 0;
  }

  /** Popping a key already in camelCase stores its entry back in place. */
  lemma TurnKeeps(k2: string, p: int, b: nat)
    requires Camel(k2) == k2 && b > 0
    ensures var r := [Entry(k2, Atom(p))];
      Proper(r, b) && k2 in KeySet(r) && Step(r, k2, b) == r
  {
    var r := [Entry(k2, Atom(p))];
    StepFront(r, b);
    assert r[1..] == [];
  }

  /** Popping a key already in camelCase that is not last moves its entry to the end. */
  lemma TurnMovesLast(k1: string, k2: string, p: int, q: int, b: nat)
    requires k1 != k2 && Camel(k2) == k2 && b > 0
    ensures var d := [Entry(k2, Atom(q)), Entry(k1, Atom(p))];
      Proper(d, b) && k2 in KeySet(d) && Step(d, k2, b) == [Entry(k1, Atom(p)), Entry(k2, Atom(q))]
  {
    var d := [Entry(k2, Atom(q)), Entry(k1, Atom(p))];
    StepFront(d, b);
    assert d[1..] == [Entry(k1, Atom(p))];
    assert IndexOf(d[1..], k2) == 1;
  }

  /**
   * A key whose camelCase form is a later key already in camelCase: its
   * store overwrites the later key's value before that key is popped, so
   * the earlier value is the one kept.
   */
  lemma EarlierKeyWins(k1: string, k2: string, p: int, q: int)
    requires k1 != k2 && Camel(k1) == k2 && Camel(k2) == k2
    ensures ConvertValue(Obj([Entry(k1, Atom(p)), Entry(k2, Atom(q))])) == Obj([Entry(k2, Atom(p))])
  {
    var d := [Entry(k1, Atom(p)), Entry(k2, Atom(q))];
    var r := [Entry(k2, Atom(p))];
    var b := Depth(Obj(d));
    EntriesBelow(d);
    assert Keys(d) == [k1, k2];
    TurnOverwrites(k1, k2, p, q, b);
    TurnKeeps(k2, p, b);
    assert Replay(r, [k2], b) == r;
  }

  /** The same two keys in the other order: the later value is the one kept. */
  lemma LaterKeyWins(k1: string, k2: string, p: int, q: int)
    requires k1 != k2 && Camel(k1) == k2 && Camel(k2) == k2
    ensures ConvertValue(Obj([Entry(k2, Atom(q)), Entry(k1, Atom(p))])) == Obj([Entry(k2, Atom(p))])
  {
    var d := [Entry(k2, Atom(q)), Entry(k1, Atom(p))];
    var s := [Entry(k1, Atom(p)), Entry(k2, Atom(q))];
    var r := [Entry(k2, Atom(p))];
    var b := Depth(Obj(d));
    EntriesBelow(d);
    assert Keys(d) == [k2, k1];
    TurnMovesLast(k1, k2, p, q, b);
    TurnOverwrites(k1, k2, p, q, b);
    assert Replay(s, [k1], b) == r;
  }

  /** `pin_id` and `pinId` are such a pair. */
  lemma CollidingKeys()
    ensures Camel("pin_id") == "pinId" && Camel("pinId") == "pinId"
  {
    CamelExample();
    NoUnderscoreUnchanged("pinId");
  }
}
