/// `TensorConverter`: nested vectors to tensors and back, image buffers to
/// tensors, and the HWC/CHW layout conversions.
module Converters {
  import opened Base
  import opened Errors
  import opened Tensors
  import opened Layout

  /// `into_iter().flatten().collect()`.
  function Flatten<T>(rows: seq<seq<T>>): seq<T>
  {
    if |rows| == 0 then [] else rows[0] + Flatten(rows[1..])
  }

  predicate Rectangular<T>(rows: seq<seq<T>>, cols: nat)
  {
    forall i :: 0 <= i < |rows| ==> |rows[i]| == cols
  }

  lemma {:induction false} FlattenLength<T>(rows: seq<seq<T>>, cols: nat)
    requires Rectangular(rows, cols)
    ensures |Flatten(rows)| == |rows| * cols
  {
    if |rows| > 0 {
      FlattenLength(rows[1..], cols);
    }
  }

  /// Row `i` of rectangular data sits at `i*cols .. i*cols+cols` of the flattening.
  lemma {:induction false} FlattenRow<T>(rows: seq<seq<T>>, cols: nat, i: nat)
    requires Rectangular(rows, cols) && i < |rows|
    ensures |Flatten(rows)| == |rows| * cols
    ensures Flat(i, 0, cols) + cols <= |Flatten(rows)|
    ensures Flatten(rows)[Flat(i, 0, cols)..Flat(i, 0, cols) + cols] == rows[i]
  {
    FlattenLength(rows, cols);
    RowFits(i, |rows|, cols);
    if i > 0 {
      FlattenRow(rows[1..], cols, i - 1);
      assert Flat(i, 0, cols) == cols + Flat(i - 1, 0, cols);
      var f := Flatten(rows);
      assert f[cols..] == Flatten(rows[1..]);
    }
  }

  /// Row `i` of `vals` cut into rows of `cols` entries.
  function Row<T>(vals: seq<T>, i: nat, cols: nat): (r: seq<T>)
    requires Flat(i, 0, cols) + cols <= |vals|
    ensures |r| == cols
  {
    vals[Flat(i, 0, cols)..Flat(i, 0, cols) + cols]
  }

  /// Rows `i*cols .. i*cols+cols` of `vals`, for `i < rows`.
  function Unflatten<T>(vals: seq<T>, rows: nat, cols: nat): (r: seq<seq<T>>)
    requires |vals| == rows * cols
    ensures |r| == rows && Rectangular(r, cols)
  {
    seq(rows, i requires 0 <= i < rows => RowFits(i, rows, cols); Row(vals, i, cols))
  }

  /// Rows after the first are the rows of what follows the first.
  lemma UnflattenCons<T>(vals: seq<T>, rows: nat, cols: nat)
    requires |vals| == rows * cols && rows > 0
    ensures cols <= |vals| && |vals[cols..]| == (rows - 1) * cols
    ensures Unflatten(vals, rows, cols) == [vals[..cols]] + Unflatten(vals[cols..], rows - 1, cols)
  {
    MulAtLeast(rows, cols);
    var tail := vals[cols..];
    assert |tail| == (rows - 1) * cols;
    var u := Unflatten(vals, rows, cols);
    var v := Unflatten(tail, rows - 1, cols);
    assert u[0] == vals[..cols];
    forall i | 0 <= i < rows - 1
      ensures u[i + 1] == v[i]
    {
      assert Flat(i + 1, 0, cols) == cols + Flat(i, 0, cols);
      RowFits(i, rows - 1, cols);
    }
    assert u == [u[0]] + v;
  }

  lemma {:induction false} FlattenUnflatten<T>(vals: seq<T>, rows: nat, cols: nat)
    requires |vals| == rows * cols
    ensures Flatten(Unflatten(vals, rows, cols)) == vals
  {
    if rows > 0 {
      UnflattenCons(vals, rows, cols);
      var u := Unflatten(vals, rows, cols);
      assert u[1..] == Unflatten(vals[cols..], rows - 1, cols);
      FlattenUnflatten(vals[cols..], rows - 1, cols);
      assert vals == vals[..cols] + vals[cols..];
    }
  }

  lemma UnflattenFlatten<T>(rows: seq<seq<T>>, cols: nat)
    requires Rectangular(rows, cols)
    ensures |Flatten(rows)| == |rows| * cols
    ensures Unflatten(Flatten(rows), |rows|, cols) == rows
  {
    FlattenLength(rows, cols);
    forall i | 0 <= i < |rows|
      ensures Unflatten(Flatten(rows), |rows|, cols)[i] == rows[i]
    {
      FlattenRow(rows, cols, i);
    }
  }

  /// The first index `>= from` whose row length is not `cols`.
  function FirstBadRow<T>(rows: seq<seq<T>>, cols: nat, from: nat): (r: Option<nat>)
    decreases |rows| - from
    ensures r.Some? ==> from <= r.value < |rows| && |rows[r.value]| != cols
    ensures r.None? <==> forall k :: from <= k < |rows| ==> |rows[k]| == cols
  {
    if from >= |rows| then None
    else if |rows[from]| != cols then Some(from)
    else FirstBadRow(rows, cols, from + 1)
  }

  /// `from_2d_f32`.
  function From2dF32(data: seq<seq<F32Bits>>): (r: Result<Tensor>)
    ensures r.Ok? <==> |data| > 0 && Rectangular(data, |data[0]|)
    ensures r.Ok? ==> r.value.Valid() && r.value.shape == [|data|, |data[0]|]
                      && ToF32Values(r.value) == Ok(Flatten(data))
    ensures r.Err? ==> r.error.InvalidTensorData?
  {
    if |data| == 0 then Err(InvalidTensorDataError("Empty 2D array"))
    else
      var rows := |data|;
      var cols := |data[0]|;
      match FirstBadRow(data, cols, 0)
      case Some(i) =>
        Err(InvalidTensorDataError("Row " + NatToString(i) + " has length " + NatToString(|data[i]|)
                                   + " but expected " + NatToString(cols)))
      case None =>
        FlattenLength(data, cols);
        ProductOf2(rows, cols);
        F32RoundTrip(Flatten(data), [rows, cols]);
        FromF32(Flatten(data), [rows, cols])
  }

  /// The rows of the matrices of `data` all have `dim2` entries and the
  /// matrices `dim1` rows, from matrix `from` on; otherwise the message for
  /// the first violation.
  function Check3d(data: seq<seq<seq<F32Bits>>>, dim1: nat, dim2: nat, from: nat): (r: Option<string>)
    decreases |data| - from
    ensures r.None? <==> forall i :: from <= i < |data| ==> |data[i]| == dim1 && Rectangular(data[i], dim2)
  {
    if from >= |data| then None
    else if |data[from]| != dim1 then
      Some("Matrix " + NatToString(from) + " has " + NatToString(|data[from]|) + " rows but expected "
           + NatToString(dim1))
    else match FirstBadRow(data[from], dim2, 0)
      case Some(j) =>
        Some("Matrix " + NatToString(from) + " row " + NatToString(j) + " has length "
             + NatToString(|data[from][j]|) + " but expected " + NatToString(dim2))
      case None => Check3d(data, dim1, dim2, from + 1)
  }

  /// The third extent `from_3d_f32` expects: that of the first row, or 0
  /// when the first matrix has no rows.
  function Dim2Of(data: seq<seq<seq<F32Bits>>>): nat
    requires |data| > 0
  {
    if |data[0]| > 0 then |data[0][0]| else 0
  }

  predicate Cuboid<T>(data: seq<seq<seq<T>>>, dim1: nat, dim2: nat)
  {
    forall i :: 0 <= i < |data| ==> |data[i]| == dim1 && Rectangular(data[i], dim2)
  }

  lemma CuboidFlatten<T>(data: seq<seq<seq<T>>>, dim1: nat, dim2: nat)
    requires Cuboid(data, dim1, dim2)
    ensures Rectangular(Flatten(data), dim2)
    ensures |Flatten(data)| == |data| * dim1
    ensures |Flatten(Flatten(data))| == |data| * dim1 * dim2
  {
    FlattenRectangular(data, dim2);
    FlattenLength(data, dim1);
    FlattenLength(Flatten(data), dim2);
  }

  lemma {:induction false} FlattenRectangular<T>(data: seq<seq<seq<T>>>, dim2: nat)
    requires forall i :: 0 <= i < |data| ==> Rectangular(data[i], dim2)
    ensures Rectangular(Flatten(data), dim2)
  {
    if |data| > 0 {
      FlattenRectangular(data[1..], dim2);
    }
  }

  /// `from_3d_f32`.
  function From3dF32(data: seq<seq<seq<F32Bits>>>): (r: Result<Tensor>)
    ensures r.Ok? <==> |data| > 0 && Cuboid(data, |data[0]|, Dim2Of(data))
    ensures r.Ok? ==> r.value.Valid() && r.value.shape == [|data|, |data[0]|, Dim2Of(data)]
                      && ToF32Values(r.value) == Ok(Flatten(Flatten(data)))
    ensures r.Err? ==> r.error.InvalidTensorData?
  {
    if |data| == 0 then Err(InvalidTensorDataError("Empty 3D array"))
    else
      var dim0 := |data|;
      var dim1 := |data[0]|;
      var dim2 := Dim2Of(data);
      match Check3d(data, dim1, dim2, 0)
      case Some(msg) => Err(InvalidTensorDataError(msg))
      case None =>
        CuboidFlatten(data, dim1, dim2);
        ProductOf3(dim0, dim1, dim2);
        F32RoundTrip(Flatten(Flatten(data)), [dim0, dim1, dim2]);
        FromF32(Flatten(Flatten(data)), [dim0, dim1, dim2])
  }

  lemma ProductOf1(a: nat)
    ensures Product([a]) == a
  {
    assert [a][1..] == [];
  }

  lemma ProductOf2(a: nat, b: nat)
    ensures Product([a, b]) == a * b
  {
    assert [a, b][1..] == [b];
    assert [b][1..] == [];
    assert Product([b]) == b * Product([]);
    assert Product([a, b]) == a * Product([b]);
  }

  lemma ProductOf3(a: nat, b: nat, c: nat)
    ensures Product([a, b, c]) == a * b * c
    ensures Product([c, a, b]) == a * b * c
    ensures Product([b, c, a]) == a * b * c
  {
    assert [a, b, c][1..] == [b, c];
    assert [c, a, b][1..] == [a, b];
    assert [b, c, a][1..] == [c, a];
    ProductOf2(b, c);
    ProductOf2(a, b);
    ProductOf2(c, a);
    assert a * (b * c) == a * b * c;
    assert c * (a * b) == a * b * c;
    assert b * (c * a) == a * b * c;
  }

  /// The number of words of a valid `F32` tensor is its element count.
  lemma WordCount(t: Tensor)
    requires t.Valid() && t.dataType == F32
    ensures |F32Words(t.data)| == Product(t.shape)
    ensures ToF32Values(t) == Ok(F32Words(t.data))
  {
    FlatDivMod(Product(t.shape), 0, 4);
  }

  lemma Words2(t: Tensor)
    requires t.Valid() && t.dataType == F32 && t.NDim() == 2
    ensures ToF32Values(t) == Ok(F32Words(t.data))
    ensures |F32Words(t.data)| == t.shape[0] * t.shape[1]
  {
    WordCount(t);
    ProductOf2(t.shape[0], t.shape[1]);
    assert t.shape == [t.shape[0], t.shape[1]];
  }

  lemma Words3(t: Tensor)
    requires t.Valid() && t.dataType == F32 && t.NDim() == 3
    ensures ToF32Values(t) == Ok(F32Words(t.data))
    ensures |F32Words(t.data)| == t.shape[0] * t.shape[1] * t.shape[2]
    ensures |t.data| == 4 * |F32Words(t.data)|
  {
    WordCount(t);
    ProductOf3(t.shape[0], t.shape[1], t.shape[2]);
    assert t.shape == [t.shape[0], t.shape[1], t.shape[2]];
  }

  /// What `to_2d_f32` returns.
  function To2dValues(t: Tensor): (r: Result<seq<seq<F32Bits>>>)
    requires t.Valid()
    ensures r.Ok? <==> t.NDim() == 2 && t.dataType == F32
    ensures r.Ok? ==> |r.value| == t.shape[0] && Rectangular(r.value, t.shape[1])
    ensures r.Err? ==> r.error.InvalidTensorData?
  {
    if t.NDim() != 2 then
      Err(InvalidTensorDataError("Expected 2D tensor, got " + NatToString(t.NDim()) + "D"))
    else
      var data :- ToF32Values(t);
      Words2(t);
      Ok(Unflatten(data, t.shape[0], t.shape[1]))
  }

  /// `to_2d_f32`: row `i` is the slice `i*cols .. i*cols+cols` of the data.
  method To2dF32(t: Tensor) returns (r: Result<seq<seq<F32Bits>>>)
    requires t.Valid()
    ensures r == To2dValues(t)
  {
    if t.NDim() != 2 {
      return Err(InvalidTensorDataError("Expected 2D tensor, got " + NatToString(t.NDim()) + "D"));
    }
    var rows := t.shape[0];
    var cols := t.shape[1];
    var data :- ToF32Vec(t);
    Words2(t);
    ghost var spec := Unflatten(data, rows, cols);
    var result: seq<seq<F32Bits>> := [];
    for i := 0 to rows
      invariant result == spec[..i]
    {
      RowFits(i, rows, cols);
      var start := i * cols;
      var end := start + cols;
      result := result + [data[start..end]];
    }
    assert result == spec;
    return Ok(result);
  }

  /// `to_2d_f32` inverts `from_2d_f32`.
  lemma To2dInvertsFrom2d(data: seq<seq<F32Bits>>)
    requires |data| > 0 && Rectangular(data, |data[0]|)
    ensures From2dF32(data).Ok? && To2dValues(From2dF32(data).value) == Ok(data)
  {
    UnflattenFlatten(data, |data[0]|);
  }

  /// `from_2d_f32` inverts `to_2d_f32` when there is at least one row; a
  /// tensor with no rows converts to an empty vector, which `from_2d_f32`
  /// rejects.
  lemma From2dInvertsTo2d(t: Tensor)
    requires t.Valid() && t.dataType == F32 && t.NDim() == 2
    ensures t.shape[0] > 0 ==> From2dF32(To2dValues(t).value) == Ok(t)
    ensures t.shape[0] == 0 ==> From2dF32(To2dValues(t).value).Err?
  {
    if t.shape[0] > 0 {
      var rows := To2dValues(t).value;
      Words2(t);
      FlattenUnflatten(F32Words(t.data), t.shape[0], t.shape[1]);
      F32Rebuild(t);
      assert t.shape == [t.shape[0], t.shape[1]];
    }
  }

  /// Matrix `i`, row `j` of a `d0 x d1 x d2` block: the slice at
  /// `(i*d1+j)*d2`.
  function Unflatten3<T>(vals: seq<T>, d0: nat, d1: nat, d2: nat): (r: seq<seq<seq<T>>>)
    requires |vals| == d0 * d1 * d2
    ensures |r| == d0 && Cuboid(r, d1, d2)
  {
    seq(d0, i requires 0 <= i < d0 =>
      seq(d1, j requires 0 <= j < d1 =>
        FlatBound(i, j, d0, d1);
        RowFits(Flat(i, j, d1), d0 * d1, d2);
        Row(vals, Flat(i, j, d1), d2)))
  }

  /// Unflattening in three dimensions is unflattening twice.
  lemma Unflatten3Twice<T>(vals: seq<T>, d0: nat, d1: nat, d2: nat)
    requires |vals| == d0 * d1 * d2
    ensures Unflatten3(vals, d0, d1, d2) == Unflatten(Unflatten(vals, d0 * d1, d2), d0, d1)
  {
    var a := Unflatten3(vals, d0, d1, d2);
    var b := Unflatten(Unflatten(vals, d0 * d1, d2), d0, d1);
    forall i | 0 <= i < d0
      ensures a[i] == b[i]
    {
      forall j | 0 <= j < d1
        ensures a[i][j] == b[i][j]
      {
        FlatBound(i, j, d0, d1);
        RowFits(i, d0, d1);
      }
    }
  }

  /// What `to_3d_f32` returns.
  function To3dValues(t: Tensor): (r: Result<seq<seq<seq<F32Bits>>>>)
    requires t.Valid()
    ensures r.Ok? <==> t.NDim() == 3 && t.dataType == F32
    ensures r.Ok? ==> |r.value| == t.shape[0] && Cuboid(r.value, t.shape[1], t.shape[2])
    ensures r.Err? ==> r.error.InvalidTensorData?
  {
    if t.NDim() != 3 then
      Err(InvalidTensorDataError("Expected 3D tensor, got " + NatToString(t.NDim()) + "D"))
    else
      var data :- ToF32Values(t);
      Words3(t);
      Ok(Unflatten3(data, t.shape[0], t.shape[1], t.shape[2]))
  }

  /// `to_3d_f32`: element `(i, j, k)` is `data[(i*d1+j)*d2+k]`.
  method To3dF32(t: Tensor) returns (r: Result<seq<seq<seq<F32Bits>>>>)
    requires t.Valid()
    ensures r == To3dValues(t)
  {
    if t.NDim() != 3 {
      return Err(InvalidTensorDataError("Expected 3D tensor, got " + NatToString(t.NDim()) + "D"));
    }
    var dim0, dim1, dim2 := t.shape[0], t.shape[1], t.shape[2];
    var data :- ToF32Vec(t);
    Words3(t);
    ghost var spec := Unflatten3(data, dim0, dim1, dim2);
    var result: seq<seq<seq<F32Bits>>> := [];
    for i := 0 to dim0
      invariant result == spec[..i]
    {
      var matrix: seq<seq<F32Bits>> := [];
      for j := 0 to dim1
        invariant matrix == spec[i][..j]
      {
        FlatBound(i, j, dim0, dim1);
        RowFits(Flat(i, j, dim1), dim0 * dim1, dim2);
        var start := (i * dim1 + j) * dim2;
        var end := start + dim2;
        assert data[start..end] == spec[i][j];
        matrix := matrix + [data[start..end]];
      }
      assert matrix == spec[i];
      result := result + [matrix];
    }
    assert result == spec;
    return Ok(result);
  }

  /// `to_3d_f32` inverts `from_3d_f32`.
  lemma To3dInvertsFrom3d(data: seq<seq<seq<F32Bits>>>)
    requires |data| > 0 && Cuboid(data, |data[0]|, Dim2Of(data))
    ensures From3dF32(data).Ok? && To3dValues(From3dF32(data).value) == Ok(data)
  {
    var d1, d2 := |data[0]|, Dim2Of(data);
    CuboidFlatten(data, d1, d2);
    var flat := Flatten(Flatten(data));
    Unflatten3Twice(flat, |data|, d1, d2);
    UnflattenFlatten(Flatten(data), d2);
    UnflattenFlatten(data, d1);
  }

  /// `from_3d_f32` inverts `to_3d_f32` when the first two extents are
  /// positive. With no rows, `from_3d_f32` takes the third extent to be 0,
  /// so a `[2, 0, 5]` tensor comes back as `[2, 0, 0]`.
  lemma From3dInvertsTo3d(t: Tensor)
    requires t.Valid() && t.dataType == F32 && t.NDim() == 3
    ensures t.shape[0] > 0 && t.shape[1] > 0 ==> From3dF32(To3dValues(t).value) == Ok(t)
    ensures t.shape[0] > 0 && t.shape[1] == 0 ==>
              From3dF32(To3dValues(t).value).Ok?
              && From3dF32(To3dValues(t).value).value.shape == [t.shape[0], 0, 0]
  {
    var d0, d1, d2 := t.shape[0], t.shape[1], t.shape[2];
    if d0 > 0 {
      var vals := F32Words(t.data);
      Words3(t);
      var nested := To3dValues(t).value;
      Unflatten3Twice(vals, d0, d1, d2);
      if d1 > 0 {
        assert |nested[0][0]| == d2;
        FlattenUnflatten(Unflatten(vals, d0 * d1, d2), d0, d1);
        FlattenUnflatten(vals, d0 * d1, d2);
        F32Rebuild(t);
        assert t.shape == [d0, d1, d2];
      }
    }
  }

  /// `from_image_hwc`; `toUnit` is the `byte as f32 / 255.0` normalisation.
  function FromImageHwc(data: seq<byte>, height: nat, width: nat, channels: nat,
                        toUnit: byte -> F32Bits): (r: Result<Tensor>)
    ensures r.Ok? <==> |data| == height * width * channels
    ensures r.Ok? ==> r.value.Valid() && r.value.shape == [height, width, channels]
                      && ToF32Values(r.value) == Ok(seq(|data|, i requires 0 <= i < |data| => toUnit(data[i])))
    ensures r.Err? ==> r.error.InvalidTensorData?
  {
    if |data| != height * width * channels then
      Err(InvalidTensorDataError("Image data size " + NatToString(|data|) + " doesn't match dimensions "
                                 + NatToString(height) + "x" + NatToString(width) + "x" + NatToString(channels)))
    else
      var normalized := seq(|data|, i requires 0 <= i < |data| => toUnit(data[i]));
      ProductOf3(height, width, channels);
      F32RoundTrip(normalized, [height, width, channels]);
      FromF32(normalized, [height, width, channels])
  }

  /// `from_image_chw`.
  function FromImageChw(data: seq<byte>, channels: nat, height: nat, width: nat,
                        toUnit: byte -> F32Bits): (r: Result<Tensor>)
    ensures r.Ok? <==> |data| == channels * height * width
    ensures r.Ok? ==> r.value.Valid() && r.value.shape == [channels, height, width]
                      && ToF32Values(r.value) == Ok(seq(|data|, i requires 0 <= i < |data| => toUnit(data[i])))
    ensures r.Err? ==> r.error.InvalidTensorData?
  {
    if |data| != channels * height * width then
      Err(InvalidTensorDataError("Image data size " + NatToString(|data|) + " doesn't match dimensions "
                                 + NatToString(channels) + "x" + NatToString(height) + "x" + NatToString(width)))
    else
      var normalized := seq(|data|, i requires 0 <= i < |data| => toUnit(data[i]));
      ProductOf3(channels, height, width);
      F32RoundTrip(normalized, [channels, height, width]);
      FromF32(normalized, [channels, height, width])
  }

  /// What `hwc_to_chw` returns.
  function HwcToChwValues(t: Tensor): (r: Result<Tensor>)
    requires t.Valid()
    ensures r.Ok? <==> t.NDim() == 3 && t.dataType == F32
    ensures r.Ok? ==> r.value.Valid() && r.value.dataType == F32 && |r.value.data| == |t.data|
                      && r.value.shape == [t.shape[2], t.shape[0], t.shape[1]]
    ensures r.Err? ==> r.error.InvalidTensorData?
  {
    if t.NDim() != 3 then Err(InvalidTensorDataError("Expected 3D tensor for HWC to CHW conversion"))
    else
      var height, width, channels := t.shape[0], t.shape[1], t.shape[2];
      var hwc :- ToF32Values(t);
      Words3(t);
      ProductOf3(height, width, channels);
      FromF32(HwcToChwSeq(hwc, height, width, channels), [channels, height, width])
  }

  /// What `chw_to_hwc` returns.
  function ChwToHwcValues(t: Tensor): (r: Result<Tensor>)
    requires t.Valid()
    ensures r.Ok? <==> t.NDim() == 3 && t.dataType == F32
    ensures r.Ok? ==> r.value.Valid() && r.value.dataType == F32 && |r.value.data| == |t.data|
                      && r.value.shape == [t.shape[1], t.shape[2], t.shape[0]]
    ensures r.Err? ==> r.error.InvalidTensorData?
  {
    if t.NDim() != 3 then Err(InvalidTensorDataError("Expected 3D tensor for CHW to HWC conversion"))
    else
      var channels, height, width := t.shape[0], t.shape[1], t.shape[2];
      var chw :- ToF32Values(t);
      Words3(t);
      ProductOf3(channels, height, width);
      FromF32(ChwToHwcSeq(chw, height, width, channels), [height, width, channels])
  }

  /// `hwc_to_chw` moves the value at `h*W*C + w*C + c` to `c*H*W + h*W + w`.
  lemma HwcToChwMoves(t: Tensor, h: nat, w: nat, c: nat)
    requires t.Valid() && t.NDim() == 3 && t.dataType == F32
    requires h < t.shape[0] && w < t.shape[1] && c < t.shape[2]
    ensures var H, W, C := t.shape[0], t.shape[1], t.shape[2];
            var out := F32Words(HwcToChwValues(t).value.data);
            var inp := F32Words(t.data);
            ChwIndex(c, h, w, H, W) < |out| && HwcIndex(h, w, c, W, C) < |inp|
            && out[ChwIndex(c, h, w, H, W)] == inp[HwcIndex(h, w, c, W, C)]
  {
    var H, W, C := t.shape[0], t.shape[1], t.shape[2];
    Words3(t);
    ProductOf3(H, W, C);
    var inp := F32Words(t.data);
    F32RoundTrip(HwcToChwSeq(inp, H, W, C), [C, H, W]);
    HwcToChwAt(inp, H, W, C, h, w, c);
  }

  /// `hwc_to_chw`.
  method HwcToChw(t: Tensor) returns (r: Result<Tensor>)
    requires t.Valid()
    ensures r == HwcToChwValues(t)
  {
    if t.NDim() != 3 {
      return Err(InvalidTensorDataError("Expected 3D tensor for HWC to CHW conversion"));
    }
    var height, width, channels := t.shape[0], t.shape[1], t.shape[2];
    var hwc :- ToF32Vec(t);
    Words3(t);
    ProductOf3(height, width, channels);
    var chw := FillChw(hwc, height, width, channels, 0);
    r := FromF32(chw, [channels, height, width]);
  }

  /// `chw_to_hwc`.
  method ChwToHwc(t: Tensor) returns (r: Result<Tensor>)
    requires t.Valid()
    ensures r == ChwToHwcValues(t)
  {
    if t.NDim() != 3 {
      return Err(InvalidTensorDataError("Expected 3D tensor for CHW to HWC conversion"));
    }
    var channels, height, width := t.shape[0], t.shape[1], t.shape[2];
    var chw :- ToF32Vec(t);
    Words3(t);
    ProductOf3(channels, height, width);
    var hwc := FillHwc(chw, height, width, channels, 0);
    r := FromF32(hwc, [height, width, channels]);
  }

  /// Converting an HWC image to CHW and back gives the original tensor.
  lemma HwcChwTensorRoundTrip(t: Tensor)
    requires t.Valid() && t.NDim() == 3 && t.dataType == F32
    ensures ChwToHwcValues(HwcToChwValues(t).value) == Ok(t)
  {
    var H, W, C := t.shape[0], t.shape[1], t.shape[2];
    Words3(t);
    ProductOf3(H, W, C);
    var inp := F32Words(t.data);
    var mid := HwcToChwSeq(inp, H, W, C);
    F32RoundTrip(mid, [C, H, W]);
    HwcChwRoundTrip(inp, H, W, C);
    F32Rebuild(t);
    assert t.shape == [H, W, C];
  }
}
