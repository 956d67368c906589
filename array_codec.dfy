/**
 * The binary array column format shared by the storage type decorators and
 * the model fields: a 4-byte big-endian number of dimensions, each
 * dimension as a 4-byte big-endian number, then the raw element bytes.
 */
module ArrayCodec {
  import opened Wrappers

  newtype byte = x: int | 0 <= x < 256

  /** The element types the two binary columns accept. */
  datatype DType = UInt8 | Float32 | OtherDType(name: string)

  function ItemSize(d: DType): nat
  {
    match d
    case UInt8 => 1
    case Float32 => 4
    case OtherDType(_) => 8
  }

  /** An array: element type, shape and the raw bytes `tobytes()` yields (elements are not interpreted). */
  datatype NdArray = NdArray(dtype: DType, shape: seq<nat>, data: seq<byte>)

  /** What a column is handed: `None`, an array, or anything else. */
  datatype PyValue = PyNone | PyArray(arr: NdArray) | PyOther

  function Product(shape: seq<nat>): nat
  {
    if shape == [] then 1 else Product(shape[..|shape| - 1]) * shape[|shape| - 1]
  }

  /** The array holds exactly as many bytes as its shape asks for. */
  predicate WellShaped(a: NdArray)
  {
    |a.data| == Product(a.shape) * ItemSize(a.dtype)
  }

  function Pow256(k: nat): nat
  {
    if k == 0 then 1 else 256 * Pow256(k - 1)
  }

  const Word: nat := 0x1_0000_0000

  /** `int.from_bytes(bs, 'big')`. */
  function FromBytesBE(bs: seq<byte>): nat
  {
    if bs == [] then 0 else FromBytesBE(bs[..|bs| - 1]) * 256 + bs[|bs| - 1] as nat
  }

  /** The `k` low bytes of `n`, most significant first. */
  function ToBytesBE(n: nat, k: nat): (r: seq<byte>)
    ensures |r| == k
  {
    if k == 0 then [] else ToBytesBE(n / 256, k - 1) + [(n % 256) as byte]
  }

  /** `n.to_bytes(4, 'big')`, which refuses numbers of more than 32 bits. */
  function U32(n: nat): (r: Result<seq<byte>>)
    ensures r.Ok? <==> n < Word
    ensures r.Ok? ==> |r.value| == 4
    ensures r.Err? ==> r.error == OverflowError
  {
    if n < Word then Ok(ToBytesBE(n, 4)) else Err(OverflowError)
  }

  lemma {:induction false} FromToBytes(n: nat, k: nat)
    requires n < Pow256(k)
    ensures FromBytesBE(ToBytesBE(n, k)) == n
  {
    if k > 0 {
      assert n / 256 < Pow256(k - 1);
      FromToBytes(n / 256, k - 1);
      var bs := ToBytesBE(n, k);
      assert bs[..|bs| - 1] == ToBytesBE(n / 256, k - 1);
    }
  }

  lemma Pow256Four()
    ensures Pow256(4) == Word
  {
  }

  /** `to_bytes` then `from_bytes` gives the number back. */
  lemma U32RoundTrip(n: nat)
    requires n < Word
    ensures FromBytesBE(U32(n).value) == n
  {
    Pow256Four();
    FromToBytes(n, 4);
  }

  /** The header: the number of dimensions, then every dimension, 4 bytes each. */
  function Header(shape: seq<nat>): (r: Result<seq<byte>>)
    ensures r.Ok? <==> |shape| < Word && forall i :: 0 <= i < |shape| ==> shape[i] < Word
    ensures r.Ok? ==> |r.value| == 4 * (|shape| + 1)
  {
    var count := U32(|shape|);
    if count.Err? then Err(count.error)
    else
      var dims := Dims(shape);
      if dims.Err? then Err(dims.error) else Ok(count.value + dims.value)
  }

  /** The per-dimension part of the header. */
  function Dims(shape: seq<nat>): (r: Result<seq<byte>>)
    ensures r.Ok? <==> forall i :: 0 <= i < |shape| ==> shape[i] < Word
    ensures r.Ok? ==> |r.value| == 4 * |shape|
    ensures r.Ok? ==> forall i :: 0 <= i < |shape| ==> r.value[4 * i..4 * i + 4] == U32(shape[i]).value
  {
    if shape == [] then Ok([])
    else
      var init := shape[..|shape| - 1];
      var prefix := Dims(init);
      var last := U32(shape[|shape| - 1]);
      assert forall i :: 0 <= i < |init| ==> init[i] == shape[i];
      if prefix.Err? then Err(prefix.error)
      else if last.Err? then Err(last.error)
      else
        var r := prefix.value + last.value;
        assert forall i :: 0 <= i < |init| ==> r[4 * i..4 * i + 4] == prefix.value[4 * i..4 * i + 4];
        assert r[4 * |init|..4 * |init| + 4] == last.value;
        Ok(r)
  }

  /**
   * `process_bind_param` / `to_db_value` as a value: `None` stays `None`,
   * anything but an array of the column's dtype fails the assertion, else
   * the header followed by the data.
   */
  function Encode(v: PyValue, dtype: DType): Result<Option<seq<byte>>>
  {
    match v
    case PyNone => Ok(None)
    case PyOther => Err(AssertionError)
    case PyArray(a) =>
      if a.dtype != dtype then Err(AssertionError)
      else
        var header := Header(a.shape);
        if header.Err? then Err(header.error) else Ok(Some(header.value + a.data))
  }

  /** Python's `value[lo:hi]` for `0 <= lo`: both ends clamped to the length. */
  function Slice(s: seq<byte>, lo: nat, hi: nat): (r: seq<byte>)
    ensures lo <= hi <= |s| ==> r == s[lo..hi]
  {
    var a := if lo < |s| then lo else |s|;
    var b := if hi < |s| then hi else |s|;
    if a <= b then s[a..b] else []
  }

  /** Dimension `i` as the decoder reads it, from bytes `4(i+1) .. 4(i+2)`. */
  function DimAt(v: seq<byte>, i: nat): nat
  {
    FromBytesBE(Slice(v, (i + 1) * 4, (i + 2) * 4))
  }

  /** The decoded shape: `num_dims` dimensions read one after the other. */
  function ShapeOf(v: seq<byte>, numDims: nat): (r: seq<nat>)
    ensures |r| == numDims && forall i :: 0 <= i < numDims ==> r[i] == DimAt(v, i)
  {
    seq(numDims, i requires 0 <= i < numDims => DimAt(v, i))
  }

  /**
   * `process_result_value` / `to_python_value` as a value: `frombuffer`
   * refuses a byte count that is not a multiple of the item size and
   * `reshape` one that does not match the shape, both with `ValueError`.
   */
  function Decode(v: Option<seq<byte>>, dtype: DType): (r: Result<Option<NdArray>>)
    ensures v.None? ==> r == Ok(None)
    ensures v.Some? ==> (r.Ok? ==> r.value.Some?) && (r.Err? ==> r.error == ValueError)
    ensures r.Ok? && r.value.Some? ==> r.value.value.dtype == dtype && WellShaped(r.value.value)
  {
    match v
    case None => Ok(None)
    case Some(bytes) =>
      var numDims := FromBytesBE(Slice(bytes, 0, 4));
      var shape := ShapeOf(bytes, numDims);
      var data := Slice(bytes, (numDims + 1) * 4, (numDims + 1) * 4 + |bytes|);
      if |data| % ItemSize(dtype) != 0 then Err(ValueError)
      else if Product(shape) != |data| / ItemSize(dtype) then Err(ValueError)
      else Ok(Some(NdArray(dtype, shape, data)))
  }

  // ---------------------------------------------------------------------------
  // The loops

  /** The header-building loop of the encoder. */
  method BuildHeader(shape: seq<nat>) returns (r: Result<seq<byte>>)
    ensures r == Header(shape)
  {
    var count := U32(|shape|);
    if count.Err? {
      return Err(count.error);
    }
    var header := count.value;
    var i := 0;
    while i < |shape|
      invariant 0 <= i <= |shape|
      invariant Dims(shape[..i]).Ok? && header == count.value + Dims(shape[..i]).value
    {
      var dim := U32(shape[i]);
      assert shape[..i + 1][..i] == shape[..i];
      if dim.Err? {
        DimsError(shape);
        return Err(dim.error);
      }
      header := header + dim.value;
      i := i + 1;
    }
    assert shape[..|shape|] == shape;
    return Ok(header);
  }

  /** The only way the header fails is an overflowing number. */
  lemma {:induction false} DimsError(shape: seq<nat>)
    ensures Dims(shape).Err? ==> Dims(shape).error == OverflowError
  {
    if shape != [] {
      DimsError(shape[..|shape| - 1]);
    }
  }

  /** `process_bind_param` / `to_db_value`. */
  method ToDbValue(v: PyValue, dtype: DType) returns (r: Result<Option<seq<byte>>>)
    ensures r == Encode(v, dtype)
  {
    if v.PyNone? {
      return Ok(None);
    }
    if !v.PyArray? || v.arr.dtype != dtype {
      return Err(AssertionError);
    }
    var header := BuildHeader(v.arr.shape);
    if header.Err? {
      return Err(header.error);
    }
    return Ok(Some(header.value + v.arr.data));
  }

  /** The shape-reading loop of `process_result_value`: dimension `i` from bytes `4(i+1) .. 4(i+2)`. */
  method ReadShape(bytes: seq<byte>, numDims: nat) returns (shape: seq<nat>)
    ensures shape == ShapeOf(bytes, numDims)
  {
    shape := [];
    var i := 0;
    while i < numDims
      invariant 0 <= i <= numDims && |shape| == i
      invariant forall k :: 0 <= k < i ==> shape[k] == DimAt(bytes, k)
    {
      shape := shape + [FromBytesBE(Slice(bytes, (i + 1) * 4, (i + 2) * 4))];
      i := i + 1;
    }
  }

  /** `process_result_value` / `to_python_value`: the shape, then the checks of `frombuffer` and `reshape`. */
  method ToPythonValue(v: Option<seq<byte>>, dtype: DType) returns (r: Result<Option<NdArray>>)
    ensures r == Decode(v, dtype)
  {
    if v.None? {
      return Ok(None);
    }
    var bytes := v.value;
    var numDims := FromBytesBE(Slice(bytes, 0, 4));
    var shape := ReadShape(bytes, numDims);
    var data := Slice(bytes, (numDims + 1) * 4, (numDims + 1) * 4 + |bytes|);
    if |data| % ItemSize(dtype) != 0 || Product(shape) != |data| / ItemSize(dtype) {
      return Err(ValueError);
    }
    return Ok(Some(NdArray(dtype, shape, data)));
  }

  // ---------------------------------------------------------------------------
  // Properties

  /** The encoding is the header, 4 bytes per dimension plus 4, followed by the data. */
  lemma EncodedLength(a: NdArray)
    requires Encode(PyArray(a), a.dtype).Ok?
    ensures var bytes := Encode(PyArray(a), a.dtype).value.value;
      |bytes| == 4 * (|a.shape| + 1) + |a.data| && bytes[4 * (|a.shape| + 1)..] == a.data
  {
  }

  /** Encoding fails exactly on a foreign value, a wrong dtype or a number beyond 32 bits. */
  lemma EncodeFails(v: PyValue, dtype: DType)
    ensures Encode(v, dtype).Err? <==>
      v.PyOther? || (v.PyArray? && (v.arr.dtype != dtype || Header(v.arr.shape).Err?))
    ensures v.PyOther? || (v.PyArray? && v.arr.dtype != dtype) ==> Encode(v, dtype) == Err(AssertionError)
    ensures v.PyNone? ==> Encode(v, dtype) == Ok(None)
  {
  }

  /** Reading dimension `i` back out of an encoding. */
  lemma DimRoundTrip(a: NdArray, i: nat)
    requires Header(a.shape).Ok? && i < |a.shape|
    ensures DimAt(Header(a.shape).value + a.data, i) == a.shape[i]
  {
    var count := U32(|a.shape|).value;
    var dims := Dims(a.shape).value;
    var bytes := count + dims + a.data;
    assert Header(a.shape).value + a.data == bytes;
    assert bytes[(i + 1) * 4..(i + 2) * 4] == dims[4 * i..4 * i + 4];
    U32RoundTrip(a.shape[i]);
  }

  /** The header of an encoding gives back the number of dimensions, the shape and the data. */
  lemma HeaderRoundTrip(a: NdArray)
    requires Header(a.shape).Ok?
    ensures var bytes := Header(a.shape).value + a.data;
      var n := FromBytesBE(Slice(bytes, 0, 4));
      n == |a.shape| && ShapeOf(bytes, n) == a.shape && Slice(bytes, (n + 1) * 4, (n + 1) * 4 + |bytes|) == a.data
  {
    var bytes := Header(a.shape).value + a.data;
    var n := |a.shape|;
    assert bytes[0..4] == U32(n).value;
    U32RoundTrip(n);
    forall i | 0 <= i < n
      ensures DimAt(bytes, i) == a.shape[i]
    {
      DimRoundTrip(a, i);
    }
  }

  /** A whole number of elements is a byte count `frombuffer` accepts, and gives that many elements back. */
  lemma ExactQuotient(p: nat, d: DType)
    ensures (p * ItemSize(d)) % ItemSize(d) == 0 && (p * ItemSize(d)) / ItemSize(d) == p
  {
    match d
    case UInt8 =>
    case Float32 => assert p * 4 == 4 * p;
    case OtherDType(_) => assert p * 8 == 8 * p;
  }

  /** Decoding an encoded well-shaped array gives back the same array. */
  lemma RoundTrip(a: NdArray)
    requires WellShaped(a) && Encode(PyArray(a), a.dtype).Ok?
    ensures Decode(Encode(PyArray(a), a.dtype).value, a.dtype) == Ok(Some(a))
  {
    var bytes := Header(a.shape).value + a.data;
    assert Encode(PyArray(a), a.dtype) == Ok(Some(bytes));
    DecodeWhole(bytes, a);
  }

  /** Decoding the header of a well-shaped array followed by its data gives back that array. */
  lemma DecodeWhole(bytes: seq<byte>, a: NdArray)
    requires WellShaped(a) && Header(a.shape).Ok? && bytes == Header(a.shape).value + a.data
    ensures Decode(Some(bytes), a.dtype) == Ok(Some(a))
  {
    HeaderRoundTrip(a);
    ExactQuotient(Product(a.shape), a.dtype);
  }

  /** Decoding `None` gives `None` and encoding `None` gives `None`. */
  lemma NonePassesThrough(dtype: DType)
    ensures Encode(PyNone, dtype) == Ok(None) && Decode(None, dtype) == Ok(None)
  {
  }

  // ---------------------------------------------------------------------------
  // The JSON string field

  /** What the string field's `to_python_value` is handed: `None`, an array, or stored text. */
  datatype StringFieldInput = NullText | ArrayValue(arr: NdArray) | Text(text: string)

  /**
   * `NumpyArrayStringField.to_python_value`: `None` and arrays come back
   * unchanged; text is parsed by `parse`, standing in for `json.loads`
   * followed by `np.array`.
   */
  function StringFieldToPython(v: StringFieldInput, parse: string -> NdArray): (r: Option<NdArray>)
    ensures v.NullText? ==> r.None?
    ensures v.ArrayValue? ==> r == Some(v.arr)
    ensures v.Text? ==> r == Some(parse(v.text))
  {
    match v
    case NullText => None
    case ArrayValue(a) => Some(a)
    case Text(s) => Some(parse(s))
  }
}
