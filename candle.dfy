/// The Candle engine: SafeTensors files read into named weight tensors,
/// with input and output specs guessed from the tensor names, and a
/// generic model that multiplies its input by a matching weight matrix.
/// Candle's tensors, the SafeTensors parser, `serde_json`, the matrix
/// product and the conversion of a Candle tensor back to a `Tensor` are
/// foreign and appear as the fields of a `Backend`.
module Candle {
  import opened Base
  import opened Errors
  import opened Tensors
  import opened Engines
  import Paths
  import ModelDetector

  /// The engine; its device is not modelled (see the README).
  datatype CandleEngine = CandleEngine(gpuAvailable: bool)

  /// `supports_format`.
  function SupportsFormat(engine: CandleEngine, format: ModelFormat): (b: bool)
    ensures b <==> format == SafeTensors || format == PyTorch
  {
    format.SafeTensors? || format.PyTorch?
  }

  function EngineTypeOf(engine: CandleEngine): EngineType
  {
    Candle
  }

  // ---------------------------------------------------------------------
  // Foreign pieces

  /// The element types of SafeTensors; the ones the loader rejects are
  /// kept by their `{:?}` name.
  datatype StDtype = StF32 | StF64 | StI32 | StI64 | StOther(debugName: string)

  /// The Candle element types the loader produces.
  datatype CDtype = CF32 | CF64 | CI64

  /// A Candle tensor: element type, dimensions and raw bytes.
  datatype CandleTensor = CandleTensor(dtype: CDtype, shape: seq<nat>, data: seq<byte>)

  /// One tensor of a SafeTensors file as the parser lists it.
  datatype Entry = Entry(name: string, dtype: StDtype, shape: seq<nat>, data: seq<byte>)

  datatype ParseOutcome = Parsed(entries: seq<Entry>) | ParseFailed(reason: string)

  datatype MatmulOutcome = Multiplied(result: CandleTensor) | MatmulFailed(reason: string)

  datatype Backend = Backend(
    /// `serde_json::from_slice::<Value>(..).is_ok()`
    jsonParses: seq<byte> -> bool,
    /// `SafeTensors::deserialize`, listing the tensors in iteration order
    deserialize: seq<byte> -> ParseOutcome,
    /// the error text of `CandleTensor::from_raw_buffer`, if it fails
    rawBufferError: (seq<byte>, CDtype, seq<nat>) -> Option<string>,
    /// `input.matmul(weight)`
    matmul: (CandleTensor, CandleTensor) -> MatmulOutcome,
    /// `to_vec1` followed by the cast of every element to `f32`
    extract: CandleTensor -> Extracted)

  /// The elements of a Candle tensor as `f32` words, or the error text.
  datatype Extracted = Values(words: seq<F32Bits>) | ExtractFailed(reason: string)

  // ---------------------------------------------------------------------
  // The byte gate of `load_from_bytes`

  const MaxU64 := 0x1_0000_0000_0000_0000

  /// The outcome of a check that may panic.
  datatype Gate = Accept | Reject | Panic

  /// `is_safetensors_format` as written: `8 + header_len` is computed in
  /// a 64-bit `usize`, so a length word of 2^64 - 8 or more wraps below 8
  /// and the slice `bytes[8..8 + header_len]` then panics (a debug build
  /// already panics on the addition).
  function IsSafeTensorsFormatAsWritten(bytes: seq<byte>, jsonParses: seq<byte> -> bool): Gate
    requires |bytes| < MaxU64
  {
    if |bytes| < 8 then Reject
    else
      var stop := (8 + ModelDetector.HeaderLength(bytes)) % MaxU64;
      if |bytes| < stop then Reject
      else if stop < 8 then Panic
      else if jsonParses(bytes[8..stop]) then Accept
      else Reject
  }

  /// `is_safetensors_format` with the bound compared without overflow:
  /// a length word, that many header bytes, and a header that is JSON.
  predicate IsSafeTensorsFormat(bytes: seq<byte>, jsonParses: seq<byte> -> bool)
  {
    |bytes| >= 8 && ModelDetector.HeaderLength(bytes) <= |bytes| - 8
    && jsonParses(bytes[8..8 + ModelDetector.HeaderLength(bytes)])
  }

  /// Whenever the addition cannot wrap, the check as written and the
  /// corrected one agree.
  lemma GateAgreesWithoutWrap(bytes: seq<byte>, jsonParses: seq<byte> -> bool)
    requires |bytes| < MaxU64
    requires |bytes| >= 8 ==> ModelDetector.HeaderLength(bytes) < MaxU64 - 8
    ensures IsSafeTensorsFormatAsWritten(bytes, jsonParses)
            == (if IsSafeTensorsFormat(bytes, jsonParses) then Accept else Reject)
  {
  }

  /// Wherever the check as written does not panic, its verdict is the
  /// corrected one: a wrapped end of header always lands below 8.
  lemma GateAgreesUnlessPanic(bytes: seq<byte>, jsonParses: seq<byte> -> bool)
    requires |bytes| < MaxU64
    requires IsSafeTensorsFormatAsWritten(bytes, jsonParses) != Panic
    ensures IsSafeTensorsFormatAsWritten(bytes, jsonParses)
            == (if IsSafeTensorsFormat(bytes, jsonParses) then Accept else Reject)
  {
    WrappedHeaderPanics(bytes, jsonParses);
    GateAgreesWithoutWrap(bytes, jsonParses);
  }

  /// A length word that makes `8 + header_len` wrap always makes the
  /// check as written panic.
  lemma WrappedHeaderPanics(bytes: seq<byte>, jsonParses: seq<byte> -> bool)
    requires |bytes| < MaxU64
    ensures |bytes| >= 8 && ModelDetector.HeaderLength(bytes) >= MaxU64 - 8
            ==> IsSafeTensorsFormatAsWritten(bytes, jsonParses) == Panic
  {
    if |bytes| >= 8 && ModelDetector.HeaderLength(bytes) >= MaxU64 - 8 {
      var l := ModelDetector.HeaderLength(bytes);
      assert l < MaxU64 by {
        Tensors.Pow256Widths();
      }
      assert (8 + l) % MaxU64 == 8 + l - MaxU64;
    }
  }

  /// Eight `0xFF` bytes: the length word is 2^64 - 1, the end of the
  /// header wraps to 7, and the check as written panics, while the
  /// corrected check rejects the buffer.
  lemma AllOnesHeaderPanics(jsonParses: seq<byte> -> bool)
    ensures IsSafeTensorsFormatAsWritten(AllOnes(), jsonParses) == Panic
    ensures !IsSafeTensorsFormat(AllOnes(), jsonParses)
  {
    var b := AllOnes();
    assert b[..8] == b;
    var l := ModelDetector.HeaderLength(b);
    assert l == MaxU64 - 1 by {
      assert b[..8][1..] == b[1..];
      Tensors.Pow256Widths();
      AllOnesValue(b);
    }
  }

  function AllOnes(): (b: seq<byte>)
    ensures |b| == 8
  {
    [0xFF, 0xFF, 0xFF, 0xFF, 0xFF, 0xFF, 0xFF, 0xFF]
  }

  lemma AllOnesValue(b: seq<byte>)
    requires b == AllOnes()
    ensures Tensors.DecodeLE(b) == MaxU64 - 1
  {
    assert b[1..] == [0xFF, 0xFF, 0xFF, 0xFF, 0xFF, 0xFF, 0xFF];
    assert b[1..][1..] == [0xFF, 0xFF, 0xFF, 0xFF, 0xFF, 0xFF];
    assert b[1..][1..][1..] == [0xFF, 0xFF, 0xFF, 0xFF, 0xFF];
    assert b[1..][1..][1..][1..] == [0xFF, 0xFF, 0xFF, 0xFF];
    assert b[1..][1..][1..][1..][1..] == [0xFF, 0xFF, 0xFF];
    assert b[1..][1..][1..][1..][1..][1..] == [0xFF, 0xFF];
    assert b[1..][1..][1..][1..][1..][1..][1..] == [0xFF];
    assert b[1..][1..][1..][1..][1..][1..][1..][1..] == [];
  }

  // ---------------------------------------------------------------------
  // Loading SafeTensors

  /// The dtype map of the loader: `i32` and `i64` are both labelled as
  /// Candle's `i64`. Nothing is converted: an `i32` tensor's raw bytes
  /// go to `from_raw_buffer` under the `i64` label, so they are read as
  /// 64-bit words.
  function MapDtype(d: StDtype): (r: Result<CDtype>)
    ensures r.Ok? <==> !d.StOther?
    ensures d == StF32 ==> r == Ok(CF32)
    ensures d == StF64 ==> r == Ok(CF64)
    ensures d == StI32 || d == StI64 ==> r == Ok(CI64)
    ensures r.Err? ==> r == Err(UnsupportedFormat("Unsupported SafeTensors dtype: " + d.debugName))
  {
    match d
    case StF32 => Ok(CF32)
    case StF64 => Ok(CF64)
    case StI32 => Ok(CI64)
    case StI64 => Ok(CI64)
    case StOther(name) => Err(UnsupportedFormatError("Unsupported SafeTensors dtype: " + name))
  }

  /// The spec element type of a Candle element type.
  function SpecType(d: CDtype): DataType
  {
    match d
    case CF32 => F32
    case CF64 => F64
    case CI64 => I64
  }

  datatype Role = InputRole | OutputRole | WeightOnly

  /// The naming heuristic: "input" anywhere in the lower-cased name makes
  /// an input; otherwise "output" or "classifier" makes an output.
  function RoleOf(name: string): (r: Role)
    ensures r == InputRole <==> Contains(ToLower(name), "input")
    ensures r == OutputRole <==>
              (!Contains(ToLower(name), "input")
               && (Contains(ToLower(name), "output") || Contains(ToLower(name), "classifier")))
  {
    var lower := ToLower(name);
    if Contains(lower, "input") then InputRole
    else if Contains(lower, "output") || Contains(lower, "classifier") then OutputRole
    else WeightOnly
  }

  /// The spec the loader makes for a tensor.
  function SpecOf(e: Entry, d: CDtype): TensorSpec
  {
    NewSpec(e.name, FixedShape(e.shape), SpecType(d))
  }

  /// What the loop has built: the weights by name and the specs so far.
  datatype Loaded = Loaded(weights: map<string, CandleTensor>, inputs: seq<TensorSpec>, outputs: seq<TensorSpec>)

  /// One pass of the loading loop.
  function Step(acc: Loaded, e: Entry, b: Backend): Result<Loaded>
  {
    var d :- MapDtype(e.dtype);
    match b.rawBufferError(e.data, d, e.shape)
    case Some(reason) => Err(ModelLoadError("Failed to create tensor " + e.name + ": " + reason))
    case None =>
      var spec := SpecOf(e, d);
      var role := RoleOf(e.name);
      Ok(Loaded(acc.weights[e.name := CandleTensor(d, e.shape, e.data)],
                if role == InputRole then acc.inputs + [spec] else acc.inputs,
                if role == OutputRole then acc.outputs + [spec] else acc.outputs))
  }

  /// The loop after its first `n` passes.
  function LoadPrefix(es: seq<Entry>, n: nat, b: Backend): Result<Loaded>
    requires n <= |es|
  {
    if n == 0 then Ok(Loaded(map[], [], []))
    else
      var acc :- LoadPrefix(es, n - 1, b);
      Step(acc, es[n - 1], b)
  }

  const DefaultInput := NewSpec("input", [None, None, None, None], F32)
  const DefaultOutput := NewSpec("output", [None, None], F32)

  datatype CandleModel = CandleModel(weights: map<string, CandleTensor>, inputSpecs: seq<TensorSpec>,
                                     outputSpecs: seq<TensorSpec>)

  /// The defaults added after the loop.
  function Finish(l: Loaded): CandleModel
  {
    CandleModel(l.weights,
                if |l.inputs| == 0 then [DefaultInput] else l.inputs,
                if |l.outputs| == 0 then [DefaultOutput] else l.outputs)
  }

  /// What `load_safetensors_from_bytes` returns.
  function LoadSpec(bytes: seq<byte>, b: Backend): Result<CandleModel>
  {
    match b.deserialize(bytes)
    case ParseFailed(reason) => Err(ModelLoadError("Failed to parse SafeTensors: " + reason))
    case Parsed(es) =>
      var l :- LoadPrefix(es, |es|, b);
      Ok(Finish(l))
  }

  lemma {:induction false} LoadPrefixStaysFailed(es: seq<Entry>, i: nat, n: nat, b: Backend)
    requires i < n <= |es|
    requires LoadPrefix(es, i + 1, b).Err?
    ensures LoadPrefix(es, n, b) == LoadPrefix(es, i + 1, b)
  {
    if n > i + 1 {
      LoadPrefixStaysFailed(es, i, n - 1, b);
    }
  }

  /// `load_safetensors_from_bytes`: the loop inserting weights and pushing
  /// specs, then the defaults.
  method LoadSafeTensorsFromBytes(bytes: seq<byte>, b: Backend) returns (r: Result<CandleModel>)
    ensures r == LoadSpec(bytes, b)
  {
    match b.deserialize(bytes) {
      case ParseFailed(reason) =>
        return Err(ModelLoadError("Failed to parse SafeTensors: " + reason));
      case Parsed(es) =>
        var weights: map<string, CandleTensor> := map[];
        var inputs: seq<TensorSpec> := [];
        var outputs: seq<TensorSpec> := [];
        for i := 0 to |es|
          invariant LoadPrefix(es, i, b) == Ok(Loaded(weights, inputs, outputs))
        {
          var e := es[i];
          var d := MapDtype(e.dtype);
          if d.Err? {
            LoadPrefixStaysFailed(es, i, |es|, b);
            return Err(d.error);
          }
          var bufferError := b.rawBufferError(e.data, d.value, e.shape);
          if bufferError.Some? {
            LoadPrefixStaysFailed(es, i, |es|, b);
            return Err(ModelLoadError("Failed to create tensor " + e.name + ": " + bufferError.value));
          }
          weights := weights[e.name := CandleTensor(d.value, e.shape, e.data)];
          var spec := SpecOf(e, d.value);
          var role := RoleOf(e.name);
          if role == InputRole {
            inputs := inputs + [spec];
          } else if role == OutputRole {
            outputs := outputs + [spec];
          }
        }
        if |inputs| == 0 {
          inputs := [DefaultInput];
        }
        if |outputs| == 0 {
          outputs := [DefaultOutput];
        }
        return Ok(CandleModel(weights, inputs, outputs));
    }
  }

  // Reference definitions of what the loop collects.

  predicate Loadable(e: Entry, b: Backend)
  {
    MapDtype(e.dtype).Ok? && b.rawBufferError(e.data, MapDtype(e.dtype).value, e.shape).None?
  }

  /// The specs of the entries with the given role, in order.
  function SpecsWithRole(es: seq<Entry>, role: Role): seq<TensorSpec>
    requires forall i :: 0 <= i < |es| ==> MapDtype(es[i].dtype).Ok?
  {
    if |es| == 0 then []
    else
      var e := es[|es| - 1];
      SpecsWithRole(es[..|es| - 1], role) + (if RoleOf(e.name) == role then [SpecOf(e, MapDtype(e.dtype).value)] else [])
  }

  /// One pass succeeds exactly when the entry is loadable, and then adds
  /// its weight and at most one spec.
  lemma StepOutcome(acc: Loaded, e: Entry, b: Backend)
    ensures Step(acc, e, b).Ok? <==> Loadable(e, b)
    ensures Step(acc, e, b).Ok? ==>
              var l := Step(acc, e, b).value;
              var spec := SpecOf(e, MapDtype(e.dtype).value);
              l.weights.Keys == acc.weights.Keys + {e.name}
              && l.inputs == acc.inputs + (if RoleOf(e.name) == InputRole then [spec] else [])
              && l.outputs == acc.outputs + (if RoleOf(e.name) == OutputRole then [spec] else [])
  {
  }

  /// The loop succeeds exactly when every entry has a supported type and
  /// a usable buffer; it then holds every entry's weight under its name,
  /// and the input and output specs of exactly the entries named as such,
  /// in file order.
  lemma {:induction false} LoadPrefixCollects(es: seq<Entry>, n: nat, b: Backend)
    requires n <= |es|
    ensures LoadPrefix(es, n, b).Ok? <==> forall i :: 0 <= i < n ==> Loadable(es[i], b)
    ensures LoadPrefix(es, n, b).Ok? ==>
              var l := LoadPrefix(es, n, b).value;
              l.weights.Keys == (set i | 0 <= i < n :: es[i].name)
              && l.inputs == SpecsWithRole(es[..n], InputRole)
              && l.outputs == SpecsWithRole(es[..n], OutputRole)
  {
    if n > 0 {
      LoadPrefixCollects(es, n - 1, b);
      var prefix := LoadPrefix(es, n - 1, b);
      if prefix.Ok? {
        StepOutcome(prefix.value, es[n - 1], b);
        if LoadPrefix(es, n, b).Ok? {
          assert es[..n][..n - 1] == es[..n - 1];
          assert (set i | 0 <= i < n :: es[i].name) == (set i | 0 <= i < n - 1 :: es[i].name) + {es[n - 1].name};
        }
      }
    }
  }

  /// Every spec the loop collects has every dimension fixed, and the role
  /// its name gives it.
  lemma {:induction false} SpecsWithRoleShape(es: seq<Entry>, role: Role)
    requires forall i :: 0 <= i < |es| ==> MapDtype(es[i].dtype).Ok?
    ensures forall s :: s in SpecsWithRole(es, role) ==>
              RoleOf(s.name) == role && FixedDims(s.shape).Some? && s.description.None?
  {
    if |es| > 0 {
      var e := es[|es| - 1];
      SpecsWithRoleShape(es[..|es| - 1], role);
      FixedDimsIff(FixedShape(e.shape));
    }
  }

  /// After a load both spec lists are non-empty; a list is the default
  /// exactly when no tensor was named for it.
  lemma LoadedSpecs(bytes: seq<byte>, b: Backend)
    requires LoadSpec(bytes, b).Ok?
    ensures var m := LoadSpec(bytes, b).value;
            var es := b.deserialize(bytes).entries;
            |m.inputSpecs| > 0 && |m.outputSpecs| > 0
            && (forall i :: 0 <= i < |es| ==> Loadable(es[i], b))
            && (m.inputSpecs == [DefaultInput] || m.inputSpecs == SpecsWithRole(es, InputRole))
            && (SpecsWithRole(es, InputRole) == [] ==> m.inputSpecs == [DefaultInput])
            && (m.outputSpecs == [DefaultOutput] || m.outputSpecs == SpecsWithRole(es, OutputRole))
            && (SpecsWithRole(es, OutputRole) == [] ==> m.outputSpecs == [DefaultOutput])
            && m.weights.Keys == (set i | 0 <= i < |es| :: es[i].name)
  {
    var es := b.deserialize(bytes).entries;
    LoadPrefixCollects(es, |es|, b);
    assert es[..|es|] == es;
  }

  // ---------------------------------------------------------------------
  // Loading by path and by bytes

  const PyTorchNotImplemented := "PyTorch model loading not yet implemented - use SafeTensors format instead"
  const BytesNotSafeTensors := "Unsupported model format in bytes - only SafeTensors supported"

  /// `load_model`: the extension, compared case-sensitively, picks the loader.
  function LoadModelSpec(path: string, content: ModelDetector.ReadOutcome, b: Backend): Result<CandleModel>
  {
    match Paths.Extension(path)
    case Some("safetensors") =>
      (match content
       case ReadFailed(reason) => Err(ModelLoadError("Failed to read SafeTensors file " + path + ": " + reason))
       case Read(bytes) => LoadSpec(bytes, b))
    case Some("pt") => Err(UnsupportedFormatError(PyTorchNotImplemented))
    case Some("pth") => Err(UnsupportedFormatError(PyTorchNotImplemented))
    case _ => Err(UnsupportedFormatError("Unsupported file extension for path: " + path))
  }

  method LoadModel(engine: CandleEngine, path: string, content: ModelDetector.ReadOutcome, b: Backend)
    returns (r: Result<CandleModel>)
    ensures r == LoadModelSpec(path, content, b)
  {
    var ext := Paths.Extension(path);
    if ext == Some("safetensors") {
      match content {
        case ReadFailed(reason) =>
          return Err(ModelLoadError("Failed to read SafeTensors file " + path + ": " + reason));
        case Read(bytes) =>
          r := LoadSafeTensorsFromBytes(bytes, b);
      }
    } else if ext == Some("pt") || ext == Some("pth") {
      return Err(UnsupportedFormatError(PyTorchNotImplemented));
    } else {
      return Err(UnsupportedFormatError("Unsupported file extension for path: " + path));
    }
  }

  /// Only a `.safetensors` path is read; `.pt` and `.pth` are refused as
  /// not implemented and every other path (upper-case extensions
  /// included) as unsupported, all as `UnsupportedFormat` and without
  /// looking at the file.
  lemma LoadModelDispatch(path: string, content: ModelDetector.ReadOutcome, other: ModelDetector.ReadOutcome,
                          b: Backend)
    ensures Paths.Extension(path) != Some("safetensors") ==>
              LoadModelSpec(path, content, b) == LoadModelSpec(path, other, b)
              && LoadModelSpec(path, content, b).Err? && LoadModelSpec(path, content, b).error.UnsupportedFormat?
    ensures Paths.Extension(path) in {Some("pt"), Some("pth")} ==>
              LoadModelSpec(path, content, b) == Err(UnsupportedFormat(PyTorchNotImplemented))
    ensures Paths.Extension(path) == Some("safetensors") && content.Read? ==>
              LoadModelSpec(path, content, b) == LoadSpec(content.bytes, b)
  {
  }

  function LoadFromBytesSpec(bytes: seq<byte>, b: Backend): Result<CandleModel>
  {
    if IsSafeTensorsFormat(bytes, b.jsonParses) then LoadSpec(bytes, b)
    else Err(UnsupportedFormatError(BytesNotSafeTensors))
  }

  /// `load_from_bytes`: the gate, then the loader.
  method LoadFromBytes(engine: CandleEngine, bytes: seq<byte>, b: Backend) returns (r: Result<CandleModel>)
    ensures r == LoadFromBytesSpec(bytes, b)
    ensures !IsSafeTensorsFormat(bytes, b.jsonParses) ==> r == Err(UnsupportedFormat(BytesNotSafeTensors))
    ensures |bytes| < MaxU64 && IsSafeTensorsFormatAsWritten(bytes, b.jsonParses) == Accept
            ==> r == LoadSpec(bytes, b)
    ensures |bytes| < MaxU64 && IsSafeTensorsFormatAsWritten(bytes, b.jsonParses) == Reject
            ==> r == Err(UnsupportedFormat(BytesNotSafeTensors))
  {
    if |bytes| < MaxU64 && IsSafeTensorsFormatAsWritten(bytes, b.jsonParses) != Panic {
      GateAgreesUnlessPanic(bytes, b.jsonParses);
    }
    if IsSafeTensorsFormat(bytes, b.jsonParses) {
      r := LoadSafeTensorsFromBytes(bytes, b);
    } else {
      r := Err(UnsupportedFormatError(BytesNotSafeTensors));
    }
  }

  // ---------------------------------------------------------------------
  // Prediction

  /// `tensor_to_candle`: the element type check, then the raw buffer.
  function TensorToCandle(t: Tensor, b: Backend): (r: Result<CandleTensor>)
    ensures t.dataType in {U8, U32, Bool} ==> r == Err(Prediction("Unsupported tensor data type"))
    ensures r.Ok? ==> r.value.shape == t.shape && r.value.data == t.data
                      && r.value.dtype == (if t.dataType == F32 then CF32 else if t.dataType == F64 then CF64 else CI64)
    ensures r.Err? ==> r.error.Prediction?
  {
    var d :- match t.dataType
             case F32 => Ok(CF32)
             case F64 => Ok(CF64)
             case I32 => Ok(CI64)
             case I64 => Ok(CI64)
             case _ => Err(PredictionError("Unsupported tensor data type"));
    match b.rawBufferError(t.data, d, t.shape)
    case Some(reason) => Err(PredictionError("Failed to create Candle tensor: " + reason))
    case None => Ok(CandleTensor(d, t.shape, t.data))
  }

  const NoWeightMessage := "No suitable weight tensor found for inference. This SafeTensors model may require a specific architecture wrapper."

  /// A weight usable for `input @ weight`: a matrix whose rows match the
  /// input's last dimension.
  predicate Usable(w: CandleTensor, lastDim: nat)
  {
    |w.shape| == 2 && w.shape[0] == lastDim
  }

  /// The first weight, in the map's iteration order `order`, usable
  /// against `lastDim`.
  function FirstUsable(order: seq<string>, weights: map<string, CandleTensor>, lastDim: nat): (r: Option<nat>)
    ensures r.Some? ==> r.value < |order| && order[r.value] in weights
                        && Usable(weights[order[r.value]], lastDim)
                        && forall j :: 0 <= j < r.value && order[j] in weights ==> !Usable(weights[order[j]], lastDim)
    ensures r.None? <==> forall j :: 0 <= j < |order| && order[j] in weights ==> !Usable(weights[order[j]], lastDim)
  {
    if |order| == 0 then None
    else if order[0] in weights && Usable(weights[order[0]], lastDim) then Some(0)
    else
      match FirstUsable(order[1..], weights, lastDim)
      case None => None
      case Some(k) => Some(k + 1)
  }

  /// The iteration order of a map: each key exactly once.
  ghost predicate IsOrderOf(order: seq<string>, weights: map<string, CandleTensor>)
  {
    (forall k :: k in weights <==> k in order)
    && forall i, j :: 0 <= i < j < |order| ==> order[i] != order[j]
  }

  /// `run_inference` as written: `input_dims.len() - 1` underflows on a
  /// rank-0 input, so the method panics before looking at any weight.
  datatype Outcome = Panics | Returns(result: Result<CandleTensor>)

  function RunInferenceAsWritten(weights: map<string, CandleTensor>, input: CandleTensor, order: seq<string>,
                                 b: Backend): Outcome
  {
    if |input.shape| == 0 then Panics
    else Returns(RunInferenceSpec(weights, input, order, b))
  }

  /// `run_inference` with a rank-0 input reported as a prediction error.
  function RunInferenceSpec(weights: map<string, CandleTensor>, input: CandleTensor, order: seq<string>,
                            b: Backend): Result<CandleTensor>
  {
    if |input.shape| == 0 then Err(PredictionError(NoWeightMessage))
    else
      match FirstUsable(order, weights, input.shape[|input.shape| - 1])
      case None => Err(PredictionError(NoWeightMessage))
      case Some(k) =>
        match b.matmul(input, weights[order[k]])
        case MatmulFailed(reason) => Err(PredictionError("Matrix multiplication failed: " + reason))
        case Multiplied(out) => Ok(out)
  }

  /// A scalar input makes the method as written panic, whatever the model;
  /// the corrected method reports a `Prediction` error instead.
  lemma ScalarInputPanics(weights: map<string, CandleTensor>, x: seq<byte>, order: seq<string>, b: Backend)
    ensures RunInferenceAsWritten(weights, CandleTensor(CF32, [], x), order, b) == Panics
    ensures RunInferenceSpec(weights, CandleTensor(CF32, [], x), order, b) == Err(Prediction(NoWeightMessage))
  {
  }

  /// On inputs of rank at least one the two agree.
  lemma RunInferenceAgrees(weights: map<string, CandleTensor>, input: CandleTensor, order: seq<string>, b: Backend)
    requires |input.shape| > 0
    ensures RunInferenceAsWritten(weights, input, order, b) == Returns(RunInferenceSpec(weights, input, order, b))
  {
  }

  /// Inference multiplies by a usable weight, and fails with the
  /// "no suitable weight" error exactly when the model has none.
  lemma RunInferenceUsesUsableWeight(weights: map<string, CandleTensor>, input: CandleTensor, order: seq<string>,
                                     b: Backend)
    requires IsOrderOf(order, weights)
    requires |input.shape| > 0
    ensures var last := input.shape[|input.shape| - 1];
            (RunInferenceSpec(weights, input, order, b) == Err(Prediction(NoWeightMessage))
             && (forall n :: n in weights ==> !Usable(weights[n], last)))
            || (exists n :: n in weights && Usable(weights[n], last)
                            && RunInferenceSpec(weights, input, order, b)
                               == (match b.matmul(input, weights[n])
                                   case MatmulFailed(reason) => Err(Prediction("Matrix multiplication failed: " + reason))
                                   case Multiplied(out) => Ok(out)))
  {
    var last := input.shape[|input.shape| - 1];
    var found := FirstUsable(order, weights, last);
    if found.None? {
      forall n | n in weights
        ensures !Usable(weights[n], last)
      {
        var j :| 0 <= j < |order| && order[j] == n;
      }
    } else {
      var n := order[found.value];
      assert n in weights && Usable(weights[n], last);
    }
  }

  /// `run_inference`: the loop over the weights with an early return.
  method RunInference(weights: map<string, CandleTensor>, input: CandleTensor, order: seq<string>, b: Backend)
    returns (r: Result<CandleTensor>)
    requires |input.shape| > 0
    ensures r == RunInferenceSpec(weights, input, order, b)
  {
    var lastDim := input.shape[|input.shape| - 1];
    for i := 0 to |order|
      invariant forall j :: 0 <= j < i && order[j] in weights ==> !Usable(weights[order[j]], lastDim)
    {
      var name := order[i];
      if name in weights && Usable(weights[name], lastDim) {
        assert FirstUsable(order, weights, lastDim) == Some(i);
        match b.matmul(input, weights[name]) {
          case MatmulFailed(reason) => return Err(PredictionError("Matrix multiplication failed: " + reason));
          case Multiplied(out) => return Ok(out);
        }
      }
    }
    return Err(PredictionError(NoWeightMessage));
  }

  /// The name `candle_to_tensor` gives the element type in its messages.
  function ExtractLabel(d: CDtype): string
  {
    match d
    case CF32 => "F32"
    case CF64 => "F64"
    case CI64 => "I64"
  }

  /// The elements of a Candle tensor as `f32` words.
  function ExtractWords(t: CandleTensor, b: Backend): (r: Result<seq<F32Bits>>)
    ensures r.Err? <==> b.extract(t).ExtractFailed?
    ensures r.Err? ==> r.error == Prediction("Failed to extract " + ExtractLabel(t.dtype) + " data: "
                                             + b.extract(t).reason)
    ensures r.Ok? ==> r.value == b.extract(t).words
  {
    match b.extract(t)
    case ExtractFailed(reason) =>
      Err(PredictionError("Failed to extract " + ExtractLabel(t.dtype) + " data: " + reason))
    case Values(words) => Ok(words)
  }

  /// `candle_to_tensor` as written: the elements are always written out
  /// as `f32` bytes but the tensor is labelled with the Candle element
  /// type, so for `F64` and `I64` the byte count is half of what
  /// `Tensor::new` expects.
  function CandleToTensorAsWritten(t: CandleTensor, b: Backend): Result<Tensor>
  {
    var words :- ExtractWords(t, b);
    Pow256Widths();
    match New(EncodeWords(words, 4), t.shape, SpecType(t.dtype))
    case Err(e) => Err(PredictionError("Failed to convert Candle tensor: " + Display(e)))
    case Ok(x) => Ok(x)
  }

  /// `candle_to_tensor` with the tensor labelled by what its bytes hold.
  function CandleToTensor(t: CandleTensor, b: Backend): (r: Result<Tensor>)
    ensures b.extract(t).Values? ==>
              (r.Ok? <==> |b.extract(t).words| == Product(t.shape))
    ensures r.Ok? ==> r.value.Valid() && r.value.dataType == F32 && r.value.shape == t.shape
                      && b.extract(t).Values? && F32Words(r.value.data) == b.extract(t).words
    ensures r.Err? ==> r.error.Prediction?
  {
    var words :- ExtractWords(t, b);
    Pow256Widths();
    DecodeEncodeWords(words, 4);
    match New(EncodeWords(words, 4), t.shape, F32)
    case Err(e) => Err(PredictionError("Failed to convert Candle tensor: " + Display(e)))
    case Ok(x) => Ok(x)
  }

  /// A one-dimensional `F64` (or `I64`) result of `n >= 1` elements can
  /// never be converted as written, while the corrected conversion keeps
  /// its `n` words.
  lemma WideResultsFailToConvert(t: CandleTensor, b: Backend)
    requires t.dtype != CF32 && |t.shape| == 1 && t.shape[0] >= 1
    requires b.extract(t).Values? && |b.extract(t).words| == t.shape[0]
    ensures CandleToTensorAsWritten(t, b).Err?
    ensures CandleToTensor(t, b).Ok? && F32Words(CandleToTensor(t, b).value.data) == b.extract(t).words
  {
    var words := b.extract(t).words;
    Pow256Widths();
    assert Product(t.shape) == t.shape[0] by {
      assert t.shape[1..] == [];
    }
    assert |EncodeWords(words, 4)| == 4 * |words|;
    assert Product(t.shape) * SpecType(t.dtype).SizeBytes() == 8 * |words|;
  }

  /// For `F32` results the two agree.
  lemma NarrowResultsAgree(t: CandleTensor, b: Backend)
    requires t.dtype == CF32
    ensures CandleToTensorAsWritten(t, b) == CandleToTensor(t, b)
  {
  }

  /// What `predict` returns.
  function PredictSpec(m: CandleModel, input: Tensor, order: seq<string>, b: Backend): Result<Tensor>
  {
    var x :- TensorToCandle(input, b);
    var out :- RunInferenceSpec(m.weights, x, order, b);
    CandleToTensor(out, b)
  }

  /// `predict`: convert, multiply, convert back.
  method Predict(m: CandleModel, input: Tensor, order: seq<string>, b: Backend) returns (r: Result<Tensor>)
    ensures r == PredictSpec(m, input, order, b)
  {
    var x := TensorToCandle(input, b);
    if x.Err? {
      return Err(x.error);
    }
    if |x.value.shape| == 0 {
      return Err(PredictionError(NoWeightMessage));
    }
    var out := RunInference(m.weights, x.value, order, b);
    if out.Err? {
      return Err(out.error);
    }
    r := CandleToTensor(out.value, b);
  }

  /// `predict_batch`: `predict` over the inputs in order, stopping at the
  /// first error.
  method PredictBatch(m: CandleModel, inputs: seq<Tensor>, order: seq<string>, b: Backend)
    returns (r: Result<seq<Tensor>>)
    ensures r == CollectResults(inputs, (x: Tensor) => PredictSpec(m, x, order, b))
  {
    var f := (x: Tensor) => PredictSpec(m, x, order, b);
    var results: seq<Tensor> := [];
    for i := 0 to |inputs|
      invariant |results| == i
      invariant forall j :: 0 <= j < i ==> f(inputs[j]) == Ok(results[j])
    {
      var out := Predict(m, inputs[i], order, b);
      if out.Err? {
        CollectResultsFirstError(inputs, f, i);
        return Err(out.error);
      }
      results := results + [out.value];
    }
    CollectResultsOk(inputs, f);
    assert CollectResults(inputs, f).value == results;
    return Ok(results);
  }
}
