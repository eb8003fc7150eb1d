/// The pure part of the Flutter-facing API: the records it exchanges,
/// the engine and data-type name parsers, engine listing and detection by
/// name, and the conversion of tensors to results.
module Api {
  import opened Base
  import opened Errors
  import opened Tensors
  import opened Engines
  import Factory
  import ModelDetector
  import Backends
  import Sessions

  /// `SessionHandle`.
  type Handle = nat

  /// `SessionConfig`; the thread count and optimisation level are never
  /// read and are not part of this model.
  datatype SessionConfig = SessionConfig(engineType: Option<string>, gpuAcceleration: bool)

  /// `SessionConfig::default`: detect the engine, GPU on.
  const DefaultConfig := SessionConfig(None, true)

  /// `InferenceInput`: `f32` values and a shape; `dataType` is never read.
  datatype InferenceInput = InferenceInput(data: seq<F32Bits>, shape: seq<nat>, dataType: string)

  /// `InferenceResult`.
  datatype InferenceResult = InferenceResult(data: seq<F32Bits>, shape: seq<nat>, dataType: string)

  /// `SessionInfo`.
  datatype SessionInfo = SessionInfo(handle: Handle, engineType: string, inputSpecs: seq<TensorSpec>,
                                     outputSpecs: seq<TensorSpec>)

  // ---------------------------------------------------------------------
  // Names

  /// `format!("{:?}", engine).to_lowercase()`.
  function EngineName(t: EngineType): string
  {
    ToLower(Factory.EngineDebug(t))
  }

  lemma ToLowerIdempotent(s: string)
    ensures ToLower(ToLower(s)) == ToLower(s)
  {
    assert forall i :: 0 <= i < |s| ==> ToLowerChar(ToLowerChar(s[i])) == ToLowerChar(s[i]);
  }

  lemma EngineNames()
    ensures EngineName(Candle) == "candle" && EngineName(EngineType.Linfa) == "linfa" && EngineName(Ort) == "ort"
  {
    assert ToLower("Candle") == "candle";
    assert ToLower("Linfa") == "linfa";
    assert ToLower("Ort") == "ort";
  }

  /// `parse_engine_type`: `candle` or `linfa` in any case.
  function ParseEngineType(s: string): (r: Result<EngineType>)
    ensures r.Ok? <==> ToLower(s) == "candle" || ToLower(s) == "linfa"
    ensures r.Ok? ==> Handled(r.value) && EngineName(r.value) == ToLower(s)
    ensures r.Err? ==> r.error == UnsupportedFormat("Unknown engine type: " + s)
  {
    var lower := ToLower(s);
    if lower == "candle" then Ok(Candle)
    else if lower == "linfa" then Ok(EngineType.Linfa)
    else Err(UnsupportedFormatError("Unknown engine type: " + s))
  }

  /// Parsing reads back every engine's own name, and lower-casing the
  /// input first changes nothing.
  lemma ParseEngineTypeInverts(t: EngineType, s: string)
    requires Handled(t)
    ensures ParseEngineType(EngineName(t)) == Ok(t)
    ensures ParseEngineType(ToLower(s)).Ok? == ParseEngineType(s).Ok?
    ensures ParseEngineType(s).Ok? ==> ParseEngineType(ToLower(s)) == ParseEngineType(s)
  {
    ToLowerIdempotent(s);
  }

  /// The short name of a data type: its lower-cased `{:?}` text.
  function ShortName(d: DataType): (n: string)
  {
    match d
    case F32 => "f32"
    case F64 => "f64"
    case I32 => "i32"
    case I64 => "i64"
    case U8 => "u8"
    case U32 => "u32"
    case Bool => "bool"
  }

  /// The lower-case names `parse_data_type` accepts.
  predicate KnownDataTypeName(lower: string)
  {
    lower in {"f32", "float32", "f64", "float64", "i32", "int32", "i64", "int64", "u8", "uint8", "u32", "uint32"}
  }

  /// `parse_data_type`: the short or long name of every type but `Bool`,
  /// in any case.
  function ParseDataType(s: string): (r: Result<DataType>)
    ensures r.Ok? <==> KnownDataTypeName(ToLower(s))
    ensures r.Ok? ==> r.value != Bool && (ToLower(s) == r.value.Name() || ToLower(s) == ShortName(r.value))
    ensures r.Err? ==> r.error == UnsupportedFormat("Unknown data type: " + s)
  {
    var lower := ToLower(s);
    if lower == "f32" || lower == "float32" then Ok(F32)
    else if lower == "f64" || lower == "float64" then Ok(F64)
    else if lower == "i32" || lower == "int32" then Ok(I32)
    else if lower == "i64" || lower == "int64" then Ok(I64)
    else if lower == "u8" || lower == "uint8" then Ok(U8)
    else if lower == "u32" || lower == "uint32" then Ok(U32)
    else Err(UnsupportedFormatError("Unknown data type: " + s))
  }

  /// A string with no upper-case ASCII letter is its own lower case.
  lemma LowerAlready(s: string)
    requires forall i :: 0 <= i < |s| ==> !('A' <= s[i] <= 'Z')
    ensures ToLower(s) == s
  {
  }

  /// The short name of a type is its lower-cased `{:?}` text.
  lemma ShortNameIsLowerDebug(d: DataType)
    ensures ShortName(d) == ToLower(d.DebugName())
  {
    assert ToLower(d.DebugName()) == ShortName(d);
  }

  /// Parsing reads back the long name of every type except `Bool`.
  lemma ParseDataTypeReadsLongName(d: DataType)
    requires d != Bool
    ensures ParseDataType(d.Name()) == Ok(d)
  {
    LowerAlready(d.Name());
  }

  /// Parsing reads back the short name of every type except `Bool`.
  lemma ParseDataTypeReadsShortName(d: DataType)
    requires d != Bool
    ensures ParseDataType(ShortName(d)) == Ok(d)
  {
    LowerAlready(ShortName(d));
  }

  /// `Bool` has names but no parse.
  lemma ParseDataTypeRejectsBool()
    ensures Bool.Name() == ShortName(Bool) == "bool"
    ensures ParseDataType("bool") == Err(UnsupportedFormat("Unknown data type: bool"))
  {
    LowerAlready("bool");
  }

  /// `is_engine_available` by name: false for a name that does not parse.
  function IsEngineAvailable(name: string, features: Factory.Features): (b: bool)
    ensures b <==> ParseEngineType(name).Ok? && Factory.IsEngineAvailable(ParseEngineType(name).value, features)
  {
    match ParseEngineType(name)
    case Ok(t) => Factory.IsEngineAvailable(t, features)
    case Err(_) => false
  }

  /// `get_available_engines`: the names of the compiled-in engines.
  function AvailableEngineNames(features: Factory.Features): (names: seq<string>)
    ensures |names| == |Factory.AvailableList(features)|
    ensures forall i :: 0 <= i < |names| ==> names[i] == EngineName(Factory.AvailableList(features)[i])
  {
    var list := Factory.AvailableList(features);
    seq(|list|, i requires 0 <= i < |list| => EngineName(list[i]))
  }

  /// The listed names are `candle` and `linfa`, each when compiled in.
  lemma AvailableNamesAre(features: Factory.Features)
    ensures AvailableEngineNames(features)
            == (if features.candle then ["candle"] else []) + (if features.linfa then ["linfa"] else [])
  {
    EngineNames();
  }

  /// A lower-case name is reported available exactly when it is `candle`
  /// or `linfa` and that engine is compiled in.
  lemma AvailableByLowerName(features: Factory.Features, name: string)
    requires name == ToLower(name)
    ensures IsEngineAvailable(name, features)
            <==> (name == "candle" && features.candle) || (name == "linfa" && features.linfa)
  {
  }

  /// Every listed name is reported available, and every engine reported
  /// available by its lower-case name is listed.
  lemma AvailableNamesAgree(features: Factory.Features, name: string)
    ensures name in AvailableEngineNames(features) <==> IsEngineAvailable(name, features) && name == ToLower(name)
  {
    AvailableNamesAre(features);
    LowerAlready("candle");
    LowerAlready("linfa");
    if name == ToLower(name) {
      AvailableByLowerName(features, name);
    }
  }

  /// The API's `detect_engine_from_path`: always `candle`.
  function DetectEngineNameFromPath(path: string, content: ModelDetector.ReadOutcome): (name: string)
    ensures name == "candle"
  {
    EngineName(ModelDetector.DetectEngineFromPath(path, content))
  }

  /// The API's `detect_engine_from_bytes`.
  function DetectEngineNameFromBytes(bytes: seq<byte>): (r: Result<string>)
    ensures r.Ok? <==> ModelDetector.IsSafeTensorsFormat(bytes) || ModelDetector.IsPyTorchFormat(bytes)
    ensures r.Ok? ==> r.value == "candle"
    ensures r.Err? ==> r.error == FormatDetection(ModelDetector.NoFormatMessage)
  {
    var t :- ModelDetector.DetectEngineFromBytes(bytes);
    Ok(EngineName(t))
  }

  // ---------------------------------------------------------------------
  // Records

  /// `create_session_info`.
  function CreateSessionInfo(handle: Handle, s: Sessions.Session): (info: SessionInfo)
    ensures info.handle == handle
    ensures s.engineType == Candle ==> info.engineType == "candle"
    ensures s.engineType == EngineType.Linfa ==> info.engineType == "linfa"
  {
    SessionInfo(handle, EngineName(s.engineType), Sessions.InputSpecs(s), Sessions.OutputSpecs(s))
  }

  /// The result record of an output tensor: only `f32` outputs convert.
  function ToInferenceResult(t: Tensor): (r: Result<InferenceResult>)
    ensures r.Ok? <==> t.dataType == F32
    ensures r.Ok? ==> r.value.data == F32Words(t.data) && r.value.shape == t.shape && r.value.dataType == "F32"
    ensures r.Err? ==> r.error.InvalidTensorData?
  {
    var data :- ToF32Values(t);
    Ok(InferenceResult(data, t.shape, t.dataType.DebugName()))
  }

  /// A valid `f32` tensor converts to the values it was built from.
  lemma ResultOfF32Tensor(xs: seq<F32Bits>, shape: seq<nat>)
    requires FromF32(xs, shape).Ok?
    ensures ToInferenceResult(FromF32(xs, shape).value) == Ok(InferenceResult(xs, shape, "F32"))
  {
    F32RoundTrip(xs, shape);
  }

  /// The input tensor of a prediction request.
  function InputTensor(input: InferenceInput): (r: Result<Tensor>)
    ensures r.Ok? <==> |input.data| == Product(input.shape)
    ensures r.Ok? ==> r.value.Valid() && r.value.dataType == F32 && r.value.shape == input.shape
  {
    FromF32(input.data, input.shape)
  }
}
