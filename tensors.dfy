/// The tensor value type: a little-endian byte buffer, a shape and a data
/// type, with typed decoding; and `TensorSpec`, the declared interface of
/// a model input or output whose dimensions may be dynamic.
module Tensors {
  import opened Base
  import opened Errors

  datatype DataType = F32 | F64 | I32 | I64 | U8 | U32 | Bool
  {
    /// Width of one element in bytes (`size_bytes`).
    function SizeBytes(): nat
    {
      match this
      case F32 => 4
      case F64 => 8
      case I32 => 4
      case I64 => 8
      case U8 => 1
      case U32 => 4
      case Bool => 1
    }

    /// The long name (`name`).
    function Name(): string
    {
      match this
      case F32 => "float32"
      case F64 => "float64"
      case I32 => "int32"
      case I64 => "int64"
      case U8 => "uint8"
      case U32 => "uint32"
      case Bool => "bool"
    }

    /// The derived `{:?}` text.
    function DebugName(): string
    {
      match this
      case F32 => "F32"
      case F64 => "F64"
      case I32 => "I32"
      case I64 => "I64"
      case U8 => "U8"
      case U32 => "U32"
      case Bool => "Bool"
    }
  }

  /// Distinct data types have distinct long names.
  lemma NameInjective(a: DataType, b: DataType)
    requires a.Name() == b.Name()
    ensures a == b
  {
    assert a.Name()[0] == b.Name()[0];
    assert |a.Name()| == |b.Name()|;
    if a.Name()[0] == 'f' || a.Name()[0] == 'i' {
      assert a.Name()[|a.Name()| - 1] == b.Name()[|b.Name()| - 1];
    } else if a.Name()[0] == 'u' {
      assert a.Name()[4] == b.Name()[4];
    }
  }

  // ---------------------------------------------------------------------
  // Element values are opaque machine words: an `f32` is its IEEE-754 bit
  // pattern, an `i32` its two's-complement value.

  type F32Bits = x: nat | x < 0x1_0000_0000
  type F64Bits = x: nat | x < 0x1_0000_0000_0000_0000
  type I32 = x: int | -0x8000_0000 <= x < 0x8000_0000
  type I64 = x: int | -0x8000_0000_0000_0000 <= x < 0x8000_0000_0000_0000

  function Pow256(n: nat): (p: nat)
    ensures p >= 1
  {
    if n == 0 then 1 else 256 * Pow256(n - 1)
  }

  lemma Pow256Widths()
    ensures Pow256(4) == 0x1_0000_0000
    ensures Pow256(8) == 0x1_0000_0000_0000_0000
  {
    assert Pow256(2) == 0x1_0000;
    assert Pow256(4) == 0x1_0000_0000;
    assert Pow256(6) == 0x1_0000_0000_0000;
  }

  /// `to_le_bytes` of an unsigned value of `width` bytes.
  function EncodeLE(x: nat, width: nat): (bs: seq<byte>)
    requires x < Pow256(width)
    ensures |bs| == width
  {
    if width == 0 then [] else [x % 256] + EncodeLE(x / 256, width - 1)
  }

  /// `from_le_bytes` read as an unsigned value.
  function DecodeLE(bs: seq<byte>): (x: nat)
    ensures x < Pow256(|bs|)
  {
    if |bs| == 0 then 0 else bs[0] + 256 * DecodeLE(bs[1..])
  }

  lemma {:induction false} DecodeEncodeLE(x: nat, width: nat)
    requires x < Pow256(width)
    ensures DecodeLE(EncodeLE(x, width)) == x
  {
    if width > 0 {
      DecodeEncodeLE(x / 256, width - 1);
      assert EncodeLE(x, width)[1..] == EncodeLE(x / 256, width - 1);
    }
  }

  /// Half the range of a `width`-byte word: the bound of its signed values.
  function Half(width: nat): int
  {
    Pow256(width) / 2
  }

  /// Two's-complement bit pattern of a signed value of `width` bytes.
  function ToTwos(x: int, width: nat): (u: nat)
    requires width > 0
    requires -Half(width) <= x < Half(width)
    ensures u < Pow256(width)
  {
    if x < 0 then x + Pow256(width) else x
  }

  /// The signed value of a two's-complement bit pattern.
  function FromTwos(u: nat, width: nat): (x: int)
    requires width > 0
    requires u < Pow256(width)
    ensures -Half(width) <= x < Half(width)
  {
    Pow256Even(width);
    if u >= Pow256(width) / 2 then u - Pow256(width) else u
  }

  lemma Pow256Even(width: nat)
    ensures width > 0 ==> Pow256(width) % 2 == 0
  {
  }

  lemma TwosRoundTrip(x: int, width: nat)
    requires width > 0
    requires -Half(width) <= x < Half(width)
    ensures FromTwos(ToTwos(x, width), width) == x
  {
    Pow256Even(width);
  }

  /// The byte image of a sequence of `width`-byte words, element after
  /// element (`flat_map(to_le_bytes).collect()`).
  function EncodeWords(xs: seq<nat>, width: nat): (bs: seq<byte>)
    requires forall i :: 0 <= i < |xs| ==> xs[i] < Pow256(width)
    ensures |bs| == width * |xs|
  {
    if |xs| == 0 then [] else EncodeLE(xs[0], width) + EncodeWords(xs[1..], width)
  }

  /// `chunks_exact(width)` decoded word by word; a trailing partial chunk
  /// is ignored.
  function DecodeWords(bs: seq<byte>, width: nat): (xs: seq<nat>)
    requires width > 0
    ensures forall i :: 0 <= i < |xs| ==> xs[i] < Pow256(width)
    ensures |xs| * width <= |bs| < |xs| * width + width
    decreases |bs|
  {
    if |bs| < width then []
    else [DecodeLE(bs[..width])] + DecodeWords(bs[width..], width)
  }

  /// The first word of the decoding is the first `width` bytes.
  lemma DecodeFirstWord(bs: seq<byte>, width: nat)
    requires 0 < width <= |bs|
    ensures 0 < |DecodeWords(bs, width)|
    ensures DecodeWords(bs, width)[0] == DecodeLE(bs[..width])
  {
  }

  lemma {:induction false} DecodeEncodeWords(xs: seq<nat>, width: nat)
    requires width > 0
    requires forall i :: 0 <= i < |xs| ==> xs[i] < Pow256(width)
    ensures DecodeWords(EncodeWords(xs, width), width) == xs
  {
    if |xs| > 0 {
      var head := EncodeLE(xs[0], width);
      var bs := EncodeWords(xs, width);
      assert bs[..width] == head;
      assert bs[width..] == EncodeWords(xs[1..], width);
      DecodeEncodeLE(xs[0], width);
      DecodeEncodeWords(xs[1..], width);
    }
  }

  lemma {:induction false} EncodeDecodeLE(bs: seq<byte>)
    ensures EncodeLE(DecodeLE(bs), |bs|) == bs
  {
    if |bs| > 0 {
      EncodeDecodeLE(bs[1..]);
      var x := DecodeLE(bs);
      assert x % 256 == bs[0] && x / 256 == DecodeLE(bs[1..]);
    }
  }

  /// A buffer made of whole words is the encoding of its decoding.
  lemma {:induction false} EncodeDecodeWords(bs: seq<byte>, width: nat)
    requires width > 0 && |DecodeWords(bs, width)| * width == |bs|
    ensures EncodeWords(DecodeWords(bs, width), width) == bs
    decreases |bs|
  {
    if |bs| >= width {
      var xs := DecodeWords(bs, width);
      assert xs[1..] == DecodeWords(bs[width..], width);
      assert |xs[1..]| * width == |xs| * width - width;
      EncodeDecodeWords(bs[width..], width);
      EncodeDecodeLE(bs[..width]);
      assert bs == bs[..width] + bs[width..];
    }
  }

  function Product(shape: seq<nat>): nat
  {
    if |shape| == 0 then 1 else shape[0] * Product(shape[1..])
  }

  // ---------------------------------------------------------------------
  // Tensors

  datatype Tensor = Tensor(data: seq<byte>, shape: seq<nat>, dataType: DataType)
  {
    /// The invariant every `Tensor` the constructors hand out satisfies;
    /// the Rust fields are private, so no other tensor exists.
    predicate Valid()
    {
      |data| == Product(shape) * dataType.SizeBytes()
    }

    /// Number of elements (`len`).
    function Len(): nat { Product(shape) }

    function IsEmpty(): bool { Len() == 0 }

    function NDim(): nat { |shape| }
  }

  /// `Tensor::new`: the only check is the byte count.
  function New(data: seq<byte>, shape: seq<nat>, dataType: DataType): (r: Result<Tensor>)
    ensures r.Ok? <==> |data| == Product(shape) * dataType.SizeBytes()
    ensures r.Ok? ==> r.value.Valid() && r.value.data == data && r.value.shape == shape
                      && r.value.dataType == dataType
    ensures r.Err? ==> r.error.InvalidTensorData?
  {
    var expected := Product(shape) * dataType.SizeBytes();
    if |data| != expected then
      Err(InvalidTensorDataError(
        "Data size " + NatToString(|data|) + " doesn't match expected size " + NatToString(expected)
        + " for shape " + ShapeDebug(shape) + " and type " + dataType.DebugName()))
    else
      Ok(Tensor(data, shape, dataType))
  }

  function FromF32(xs: seq<F32Bits>, shape: seq<nat>): (r: Result<Tensor>)
    ensures r.Ok? <==> |xs| == Product(shape)
    ensures r.Ok? ==> r.value.dataType == F32 && r.value.shape == shape && |r.value.data| == 4 * |xs|
    ensures r.Err? ==> r.error.InvalidTensorData?
  {
    Pow256Widths();
    New(EncodeWords(xs, 4), shape, F32)
  }

  function FromF64(xs: seq<F64Bits>, shape: seq<nat>): (r: Result<Tensor>)
    ensures r.Ok? <==> |xs| == Product(shape)
    ensures r.Ok? ==> r.value.dataType == F64 && r.value.shape == shape && |r.value.data| == 8 * |xs|
    ensures r.Err? ==> r.error.InvalidTensorData?
  {
    Pow256Widths();
    New(EncodeWords(xs, 8), shape, F64)
  }

  function FromI32(xs: seq<I32>, shape: seq<nat>): (r: Result<Tensor>)
    ensures r.Ok? <==> |xs| == Product(shape)
    ensures r.Ok? ==> r.value.dataType == I32 && r.value.shape == shape && |r.value.data| == 4 * |xs|
    ensures r.Err? ==> r.error.InvalidTensorData?
  {
    Pow256Widths();
    New(EncodeWords(seq(|xs|, i requires 0 <= i < |xs| => ToTwos(xs[i], 4)), 4), shape, I32)
  }

  function FromI64(xs: seq<I64>, shape: seq<nat>): (r: Result<Tensor>)
    ensures r.Ok? <==> |xs| == Product(shape)
    ensures r.Ok? ==> r.value.dataType == I64 && r.value.shape == shape && |r.value.data| == 8 * |xs|
    ensures r.Err? ==> r.error.InvalidTensorData?
  {
    Pow256Widths();
    New(EncodeWords(seq(|xs|, i requires 0 <= i < |xs| => ToTwos(xs[i], 8)), 8), shape, I64)
  }

  /// The words of a tensor's buffer read as bit patterns of `f32`.
  function F32Words(data: seq<byte>): (xs: seq<F32Bits>)
    ensures |xs| == |data| / 4
  {
    Pow256Widths();
    DecodeWords(data, 4)
  }

  function F64Words(data: seq<byte>): (xs: seq<F64Bits>)
    ensures |xs| == |data| / 8
  {
    Pow256Widths();
    DecodeWords(data, 8)
  }

  /// What `to_f32_vec` returns.
  function ToF32Values(t: Tensor): (r: Result<seq<F32Bits>>)
    ensures r.Ok? <==> t.dataType == F32
    ensures r.Ok? ==> |r.value| == |t.data| / 4
    ensures r.Err? ==> r.error.InvalidTensorData?
  {
    if t.dataType == F32 then Ok(F32Words(t.data))
    else Err(InvalidTensorDataError("Cannot convert " + t.dataType.DebugName() + " to f32 vector"))
  }

  /// What `to_f64_vec` returns; `widen` is the exact `f32 as f64` cast.
  function ToF64Values(t: Tensor, widen: F32Bits -> F64Bits): (r: Result<seq<F64Bits>>)
    ensures r.Ok? <==> t.dataType == F64 || t.dataType == F32
    ensures r.Ok? && t.dataType == F64 ==> |r.value| == |t.data| / 8
    ensures r.Ok? && t.dataType == F32 ==> |r.value| == |t.data| / 4
    ensures r.Err? ==> r.error.InvalidTensorData?
  {
    match t.dataType
    case F64 => Ok(F64Words(t.data))
    case F32 =>
      var v := F32Words(t.data);
      Ok(seq(|v|, i requires 0 <= i < |v| => widen(v[i])))
    case _ => Err(InvalidTensorDataError("Cannot convert " + t.dataType.DebugName() + " to f64 vector"))
  }

  /// `to_f32_vec`: decodes the buffer four bytes at a time.
  method ToF32Vec(t: Tensor) returns (r: Result<seq<F32Bits>>)
    ensures r == ToF32Values(t)
  {
    if t.dataType != F32 {
      return Err(InvalidTensorDataError("Cannot convert " + t.dataType.DebugName() + " to f32 vector"));
    }
    Pow256Widths();
    var result: seq<F32Bits> := [];
    var pos := 0;
    while pos + 4 <= |t.data|
      invariant pos <= |t.data|
      invariant result + DecodeWords(t.data[pos..], 4) == DecodeWords(t.data, 4)
    {
      assert t.data[pos..][4..] == t.data[pos + 4..];
      assert t.data[pos..][..4] == t.data[pos..pos + 4];
      result := result + [DecodeLE(t.data[pos..pos + 4])];
      pos := pos + 4;
    }
    assert DecodeWords(t.data[pos..], 4) == [];
    assert result == DecodeWords(t.data, 4);
    assert F32Words(t.data) == DecodeWords(t.data, 4);
    return Ok(result);
  }

  /// `to_f64_vec`: eight bytes at a time for `F64`, widening for `F32`.
  method ToF64Vec(t: Tensor, widen: F32Bits -> F64Bits) returns (r: Result<seq<F64Bits>>)
    ensures r == ToF64Values(t, widen)
  {
    match t.dataType {
      case F64 =>
        Pow256Widths();
        var result: seq<F64Bits> := [];
        var pos := 0;
        while pos + 8 <= |t.data|
          invariant pos <= |t.data|
          invariant result + DecodeWords(t.data[pos..], 8) == DecodeWords(t.data, 8)
        {
          assert t.data[pos..][8..] == t.data[pos + 8..];
          assert t.data[pos..][..8] == t.data[pos..pos + 8];
          result := result + [DecodeLE(t.data[pos..pos + 8])];
          pos := pos + 8;
        }
        assert DecodeWords(t.data[pos..], 8) == [];
        assert result == DecodeWords(t.data, 8);
        assert F64Words(t.data) == DecodeWords(t.data, 8);
        return Ok(result);
      case F32 =>
        var f := ToF32Vec(t);
        var v := f.value;
        return Ok(seq(|v|, i requires 0 <= i < |v| => widen(v[i])));
      case _ =>
        return Err(InvalidTensorDataError("Cannot convert " + t.dataType.DebugName() + " to f64 vector"));
    }
  }

  /// `to_f32_vec` decodes exactly what `from_f32` encoded.
  lemma F32RoundTrip(xs: seq<F32Bits>, shape: seq<nat>)
    requires FromF32(xs, shape).Ok?
    ensures ToF32Values(FromF32(xs, shape).value) == Ok(xs)
  {
    Pow256Widths();
    DecodeEncodeWords(xs, 4);
  }

  /// A valid `F32` tensor is what `from_f32` builds from its own words.
  lemma F32Rebuild(t: Tensor)
    requires t.Valid() && t.dataType == F32
    ensures FromF32(F32Words(t.data), t.shape) == Ok(t)
  {
    Pow256Widths();
    assert |F32Words(t.data)| * 4 == |t.data|;
    EncodeDecodeWords(t.data, 4);
  }

  lemma F64RoundTrip(xs: seq<F64Bits>, shape: seq<nat>, widen: F32Bits -> F64Bits)
    requires FromF64(xs, shape).Ok?
    ensures ToF64Values(FromF64(xs, shape).value, widen) == Ok(xs)
  {
    Pow256Widths();
    DecodeEncodeWords(xs, 8);
  }

  /// `reshape`: same bytes and type under a shape with the same element count.
  function Reshape(t: Tensor, newShape: seq<nat>): (r: Result<Tensor>)
    ensures r.Ok? <==> Product(newShape) == t.Len()
    ensures r.Ok? ==> r.value == Tensor(t.data, newShape, t.dataType)
    ensures r.Ok? && t.Valid() ==> r.value.Valid()
    ensures r.Err? ==> r.error == InvalidShape([t.Len()], [Product(newShape)])
  {
    var newLen := Product(newShape);
    if newLen != t.Len() then Err(InvalidShapeError([t.Len()], [newLen]))
    else Ok(Tensor(t.data, newShape, t.dataType))
  }

  /// Reshaping back to the original shape gives the original tensor.
  lemma ReshapeRoundTrip(t: Tensor, newShape: seq<nat>)
    requires Reshape(t, newShape).Ok?
    ensures Reshape(Reshape(t, newShape).value, t.shape) == Ok(t)
  {
  }

  const ScalarMessage := "Tensor must have exactly one element to get scalar value"

  /// `scalar_f32`.
  function ScalarF32(t: Tensor): (r: Result<F32Bits>)
    requires t.Valid()
    ensures r.Ok? <==> t.Len() == 1 && t.dataType == F32
    ensures r.Ok? ==> r.value == DecodeLE(t.data[..4])
    ensures r.Err? ==> r.error.InvalidTensorData?
  {
    if t.Len() != 1 then Err(InvalidTensorDataError(ScalarMessage))
    else
      var v :- ToF32Values(t);
      DecodeFirstWord(t.data, 4);
      Ok(v[0])
  }

  /// `scalar_f64`.
  function ScalarF64(t: Tensor, widen: F32Bits -> F64Bits): (r: Result<F64Bits>)
    requires t.Valid()
    ensures r.Ok? <==> t.Len() == 1 && (t.dataType == F32 || t.dataType == F64)
    ensures r.Ok? && t.dataType == F64 ==> r.value == DecodeLE(t.data[..8])
    ensures r.Ok? && t.dataType == F32 ==> r.value == widen(DecodeLE(t.data[..4]))
    ensures r.Err? ==> r.error.InvalidTensorData?
  {
    if t.Len() != 1 then Err(InvalidTensorDataError(ScalarMessage))
    else
      var v :- ToF64Values(t, widen);
      FirstWords(t.data);
      Ok(v[0])
  }

  /// The first word of a buffer long enough to hold one.
  lemma FirstWords(data: seq<byte>)
    ensures |data| >= 4 ==> F32Words(data)[0] == DecodeLE(data[..4])
    ensures |data| >= 8 ==> F64Words(data)[0] == DecodeLE(data[..8])
  {
    if |data| >= 4 { DecodeFirstWord(data, 4); }
    if |data| >= 8 { DecodeFirstWord(data, 8); }
  }

  /// A one-element tensor built from `x` yields `x` as its scalar, also
  /// for the rank-0 shape `[]`.
  lemma ScalarOfSingleton(x: F32Bits, shape: seq<nat>)
    requires Product(shape) == 1
    ensures FromF32([x], shape).Ok?
    ensures ScalarF32(FromF32([x], shape).value) == Ok(x)
  {
    var t := FromF32([x], shape).value;
    Pow256Widths();
    DecodeEncodeWords([x], 4);
    assert t.data[..4] == t.data;
    DecodeFirstWord(t.data, 4);
  }

  // The `as_*_slice` views reinterpret the buffer in place; the model
  // reads it in little-endian order.

  function AsF32Slice(t: Tensor): (r: Option<seq<F32Bits>>)
    ensures r.Some? <==> t.dataType == F32 && |t.data| % 4 == 0
    ensures r.Some? ==> |r.value| == |t.data| / 4
  {
    if t.dataType != F32 || |t.data| % 4 != 0 then None else Some(F32Words(t.data))
  }

  function AsF64Slice(t: Tensor): (r: Option<seq<F64Bits>>)
    ensures r.Some? <==> t.dataType == F64 && |t.data| % 8 == 0
    ensures r.Some? ==> |r.value| == |t.data| / 8
  {
    if t.dataType != F64 || |t.data| % 8 != 0 then None else Some(F64Words(t.data))
  }

  function AsI32Slice(t: Tensor): (r: Option<seq<I32>>)
    ensures r.Some? <==> t.dataType == I32 && |t.data| % 4 == 0
    ensures r.Some? ==> |r.value| == |t.data| / 4
  {
    if t.dataType != I32 || |t.data| % 4 != 0 then None
    else
      Pow256Widths();
      var w := F32Words(t.data);
      Some(seq(|w|, i requires 0 <= i < |w| => FromTwos(w[i], 4)))
  }

  function AsI64Slice(t: Tensor): (r: Option<seq<I64>>)
    ensures r.Some? <==> t.dataType == I64 && |t.data| % 8 == 0
    ensures r.Some? ==> |r.value| == |t.data| / 8
  {
    if t.dataType != I64 || |t.data| % 8 != 0 then None
    else
      Pow256Widths();
      var w := F64Words(t.data);
      Some(seq(|w|, i requires 0 <= i < |w| => FromTwos(w[i], 8)))
  }

  /// On a valid tensor the alignment test always passes, so a view exists
  /// exactly for the matching type, and the `f32` view agrees with
  /// `to_f32_vec`.
  lemma SliceViewsOfValidTensor(t: Tensor)
    requires t.Valid()
    ensures AsF32Slice(t).Some? <==> t.dataType == F32
    ensures AsF64Slice(t).Some? <==> t.dataType == F64
    ensures AsI32Slice(t).Some? <==> t.dataType == I32
    ensures AsI64Slice(t).Some? <==> t.dataType == I64
    ensures AsF32Slice(t).Some? ==> ToF32Values(t) == Ok(AsF32Slice(t).value)
  {
    var n := Product(t.shape);
    if t.dataType == F32 || t.dataType == I32 { assert |t.data| == n * 4; }
    if t.dataType == F64 || t.dataType == I64 { assert |t.data| == n * 8; }
  }

  /// The signed views read back what `from_i32` / `from_i64` wrote.
  lemma I32RoundTrip(xs: seq<I32>, shape: seq<nat>)
    requires FromI32(xs, shape).Ok?
    ensures AsI32Slice(FromI32(xs, shape).value) == Some(xs)
  {
    Pow256Widths();
    var us := seq(|xs|, i requires 0 <= i < |xs| => ToTwos(xs[i], 4));
    DecodeEncodeWords(us, 4);
    var t := FromI32(xs, shape).value;
    assert t.data == EncodeWords(us, 4);
    var r := AsI32Slice(t).value;
    assert |r| == |xs|;
    forall i | 0 <= i < |xs|
      ensures r[i] == xs[i]
    {
      TwosRoundTrip(xs[i], 4);
    }
    assert r == xs;
  }

  lemma I64RoundTrip(xs: seq<I64>, shape: seq<nat>)
    requires FromI64(xs, shape).Ok?
    ensures AsI64Slice(FromI64(xs, shape).value) == Some(xs)
  {
    Pow256Widths();
    var us := seq(|xs|, i requires 0 <= i < |xs| => ToTwos(xs[i], 8));
    DecodeEncodeWords(us, 8);
    var t := FromI64(xs, shape).value;
    assert t.data == EncodeWords(us, 8);
    var r := AsI64Slice(t).value;
    assert |r| == |xs|;
    forall i | 0 <= i < |xs|
      ensures r[i] == xs[i]
    {
      TwosRoundTrip(xs[i], 8);
    }
    assert r == xs;
  }

  // ---------------------------------------------------------------------
  // Tensor specifications

  datatype TensorSpec = TensorSpec(
    name: string,
    shape: seq<Option<nat>>,
    dataType: DataType,
    description: Option<string>)

  function NewSpec(name: string, shape: seq<Option<nat>>, dataType: DataType): (s: TensorSpec)
    ensures s.description.None?
  {
    TensorSpec(name, shape, dataType, None)
  }

  /// A concrete shape as spec dimensions, every one of them fixed.
  function FixedShape(shape: seq<nat>): (dims: seq<Option<nat>>)
    ensures |dims| == |shape| && forall i :: 0 <= i < |shape| ==> dims[i] == Some(shape[i])
  {
    seq(|shape|, i requires 0 <= i < |shape| => Some(shape[i]))
  }

  function WithDescription(spec: TensorSpec, description: string): (s: TensorSpec)
    ensures s == spec.(description := Some(description))
  {
    spec.(description := Some(description))
  }

  /// The zip loop of `matches`: every fixed dimension equals the actual one.
  function DimsMatch(actual: seq<nat>, expected: seq<Option<nat>>): bool
  {
    if |actual| == 0 || |expected| == 0 then true
    else (expected[0].None? || expected[0].value == actual[0]) && DimsMatch(actual[1..], expected[1..])
  }

  lemma {:induction false} DimsMatchIff(actual: seq<nat>, expected: seq<Option<nat>>)
    requires |actual| == |expected|
    ensures DimsMatch(actual, expected)
            <==> forall i :: 0 <= i < |actual| && expected[i].Some? ==> expected[i].value == actual[i]
  {
    if |actual| > 0 {
      DimsMatchIff(actual[1..], expected[1..]);
      assert forall i :: 1 <= i < |actual| ==> actual[1..][i - 1] == actual[i] && expected[1..][i - 1] == expected[i];
    }
  }

  /// `TensorSpec::matches`.
  function Matches(spec: TensorSpec, t: Tensor): bool
  {
    t.dataType == spec.dataType && |t.shape| == |spec.shape| && DimsMatch(t.shape, spec.shape)
  }

  /// A tensor matches a spec exactly when the types agree, the ranks agree
  /// and every fixed dimension is the actual one; `None` accepts anything.
  lemma MatchesIff(spec: TensorSpec, t: Tensor)
    ensures Matches(spec, t)
            <==> t.dataType == spec.dataType && |t.shape| == |spec.shape|
                 && forall i :: 0 <= i < |t.shape| && spec.shape[i].Some? ==> spec.shape[i].value == t.shape[i]
  {
    if |t.shape| == |spec.shape| {
      DimsMatchIff(t.shape, spec.shape);
    }
  }

  /// The dimensions of a fully fixed shape, if it is one.
  function FixedDims(shape: seq<Option<nat>>): (r: Option<seq<nat>>)
  {
    if |shape| == 0 then Some([])
    else if shape[0].None? then None
    else match FixedDims(shape[1..])
      case Some(rest) => Some([shape[0].value] + rest)
      case None => None
  }

  lemma {:induction false} FixedDimsIff(shape: seq<Option<nat>>)
    ensures FixedDims(shape).Some? <==> forall i :: 0 <= i < |shape| ==> shape[i].Some?
    ensures FixedDims(shape).Some? ==>
              |FixedDims(shape).value| == |shape|
              && forall i :: 0 <= i < |shape| ==> shape[i] == Some(FixedDims(shape).value[i])
  {
    if |shape| > 0 {
      FixedDimsIff(shape[1..]);
      assert forall i :: 1 <= i < |shape| ==> shape[1..][i - 1] == shape[i];
    }
  }

  /// `fixed_size`: collects the dimensions, giving up at the first `None`.
  method FixedSize(spec: TensorSpec) returns (r: Option<seq<nat>>)
    ensures r.Some? <==> forall i :: 0 <= i < |spec.shape| ==> spec.shape[i].Some?
    ensures r.Some? ==> |r.value| == |spec.shape|
                        && forall i :: 0 <= i < |spec.shape| ==> spec.shape[i] == Some(r.value[i])
    ensures r == FixedDims(spec.shape)
  {
    FixedDimsIff(spec.shape);
    var result: seq<nat> := [];
    for k := 0 to |spec.shape|
      invariant |result| == k
      invariant forall i :: 0 <= i < k ==> spec.shape[i] == Some(result[i])
    {
      match spec.shape[k] {
        case Some(size) => result := result + [size];
        case None => return None;
      }
    }
    assert FixedDims(spec.shape).value == result;
    return Some(result);
  }

  /// A fully fixed spec accepts exactly the tensors of its type and shape.
  lemma FixedSpecMatchesExactly(spec: TensorSpec, t: Tensor)
    requires FixedDims(spec.shape).Some?
    ensures Matches(spec, t) <==> t.dataType == spec.dataType && t.shape == FixedDims(spec.shape).value
  {
    FixedDimsIff(spec.shape);
    MatchesIff(spec, t);
  }
}
