/// `EngineFactory` and `EngineConfig`: a second, independent format
/// detector, the preferred-engine table, and the availability and
/// fallback policy. Engine availability is fixed at compile time by cargo
/// features and is a parameter here; a created engine is represented by
/// its type (a factory-made Candle engine has no other settings, and a
/// factory-made Linfa engine is always the default one).
module Factory {
  import opened Base
  import opened Errors
  import opened Engines
  import Paths
  import Utf8
  import ModelDetector

  /// The `candle` and `linfa` cargo features.
  datatype Features = Features(candle: bool, linfa: bool)

  const CandleMissing := "Candle engine not available - compile with 'candle' feature"
  const LinfaMissing := "Linfa engine not available - compile with 'linfa' feature"
  const NoEngines := "No inference engines available - compile with at least one engine feature (candle, ort, linfa)"

  /// `is_engine_available`.
  function IsEngineAvailable(t: EngineType, features: Features): bool
    requires Handled(t)
  {
    match t
    case Candle => features.candle
    case Linfa => features.linfa
  }

  /// `preferred_engine_for_format`.
  function PreferredEngineForFormat(format: ModelFormat): (e: EngineType)
    requires HandledFormat(format)
    ensures Handled(e)
    ensures e == Candle <==> format == SafeTensors || format == PyTorch
    ensures e == EngineType.Linfa <==> format == ModelFormat.Linfa
  {
    match format
    case SafeTensors => Candle
    case PyTorch => Candle
    case Linfa => EngineType.Linfa
  }

  /// `create_engine_by_type`: succeeds exactly for an available engine.
  function CreateEngineByType(t: EngineType, features: Features): (r: Result<EngineType>)
    requires Handled(t)
    ensures r.Ok? <==> IsEngineAvailable(t, features)
    ensures r.Ok? ==> r.value == t
    ensures r.Err? ==> r.error.Configuration?
  {
    match t
    case Candle => if features.candle then Ok(Candle) else Err(ConfigurationError(CandleMissing))
    case Linfa => if features.linfa then Ok(EngineType.Linfa) else Err(ConfigurationError(LinfaMissing))
  }

  /// `create_engine(format)`: the preferred engine of the format, or a
  /// configuration error if it is compiled out.
  function CreateEngine(format: ModelFormat, features: Features): (r: Result<EngineType>)
    requires HandledFormat(format)
    ensures r == CreateEngineByType(PreferredEngineForFormat(format), features)
  {
    match format
    case SafeTensors => if features.candle then Ok(Candle) else Err(ConfigurationError(CandleMissing))
    case PyTorch => if features.candle then Ok(Candle) else Err(ConfigurationError(CandleMissing))
    case Linfa => if features.linfa then Ok(EngineType.Linfa) else Err(ConfigurationError(LinfaMissing))
  }

  /// The list `available_engines` builds.
  function AvailableList(features: Features): seq<EngineType>
  {
    (if features.candle then [Candle] else []) + (if features.linfa then [EngineType.Linfa] else [])
  }

  /// `available_engines`: Candle before Linfa, each at most once, and
  /// exactly the available ones.
  method AvailableEngines(features: Features) returns (engines: seq<EngineType>)
    ensures engines == AvailableList(features)
    ensures forall t :: t in engines <==> Handled(t) && IsEngineAvailable(t, features)
    ensures |engines| <= 2
    ensures |engines| == 2 ==> engines == [Candle, EngineType.Linfa]
  {
    engines := [];
    if features.candle {
      engines := engines + [Candle];
    }
    if features.linfa {
      engines := engines + [EngineType.Linfa];
    }
  }

  /// `create_best_engine_for_format`.
  function CreateBestEngineForFormat(format: ModelFormat, features: Features): (r: Result<EngineType>)
    requires HandledFormat(format)
    ensures IsEngineAvailable(PreferredEngineForFormat(format), features)
            ==> r == Ok(PreferredEngineForFormat(format))
    ensures !IsEngineAvailable(PreferredEngineForFormat(format), features) && AvailableList(features) != []
            ==> r == Ok(AvailableList(features)[0])
    ensures AvailableList(features) == [] ==> r == Err(Configuration(NoEngines))
  {
    var preferred := PreferredEngineForFormat(format);
    if IsEngineAvailable(preferred, features) then CreateEngineByType(preferred, features)
    else
      var available := AvailableList(features);
      if |available| == 0 then Err(ConfigurationError(NoEngines))
      else CreateEngineByType(available[0], features)
  }

  /// The best engine exists exactly when some engine is compiled in, and
  /// it is always an available one; with Candle compiled out, SafeTensors
  /// and PyTorch models are handed to Linfa.
  lemma BestEngineIsAvailable(format: ModelFormat, features: Features)
    requires HandledFormat(format)
    ensures CreateBestEngineForFormat(format, features).Ok? <==> features.candle || features.linfa
    ensures CreateBestEngineForFormat(format, features).Ok?
            ==> IsEngineAvailable(CreateBestEngineForFormat(format, features).value, features)
    ensures !features.candle && features.linfa && format != ModelFormat.Linfa
            ==> CreateBestEngineForFormat(format, features) == Ok(EngineType.Linfa)
  {
  }

  // ---------------------------------------------------------------------
  // Detection

  const MetadataKey: seq<byte> := Utf8.AsciiBytes("__metadata__")
  const DtypeKey: seq<byte> := Utf8.AsciiBytes("dtype")

  /// The JSON test: a leading `{` and, within the first 1024 bytes read as
  /// UTF-8, one of the keys a SafeTensors header has.
  predicate LooksLikeSafeTensorsJson(bytes: seq<byte>)
  {
    |bytes| > 0 && bytes[0] == ModelDetector.OpenBrace
    && var window := bytes[..if |bytes| < 1024 then |bytes| else 1024];
       Utf8.Valid(window) && (Contains(window, MetadataKey) || Contains(window, DtypeKey))
  }

  /// `EngineFactory::detect_format_from_bytes`; `bincodeAccepts` stands for
  /// `bincode::deserialize::<serde_json::Value>(bytes).is_ok()`.
  function DetectFormatFromBytes(bytes: seq<byte>, bincodeAccepts: seq<byte> -> bool): (r: Result<ModelFormat>)
    ensures r.Err? <==> |bytes| == 0
    ensures r.Err? ==> r.error == UnsupportedFormat("Empty file content")
    ensures LooksLikeSafeTensorsJson(bytes) ==> r == Ok(SafeTensors)
    ensures !LooksLikeSafeTensorsJson(bytes) && |bytes| > 0 && bytes[0] == 0x80 ==> r == Ok(PyTorch)
    ensures r == Ok(ModelFormat.Linfa)
            <==> (!LooksLikeSafeTensorsJson(bytes) && |bytes| > 8 && bytes[0] != 0x80 && bincodeAccepts(bytes))
    ensures r.Ok? ==> r.value != Onnx
  {
    if |bytes| == 0 then Err(UnsupportedFormatError("Empty file content"))
    else if LooksLikeSafeTensorsJson(bytes) then Ok(SafeTensors)
    else if bytes[0] == 0x80 then Ok(PyTorch)
    else if |bytes| > 8 && bincodeAccepts(bytes) then Ok(ModelFormat.Linfa)
    else Ok(SafeTensors)
  }

  /// `EngineFactory::detect_format_from_path`: a missing extension is an
  /// error, known extensions decide alone, anything else is read and
  /// classified by content.
  function DetectFormatFromPath(path: string, content: ModelDetector.ReadOutcome,
                                bincodeAccepts: seq<byte> -> bool): (r: Result<ModelFormat>)
    ensures Paths.Extension(path).None? ==> r == Err(UnsupportedFormat("No file extension found for " + path))
    ensures ModelDetector.LowerExtension(path) == Some("safetensors") ==> r == Ok(SafeTensors)
    ensures ModelDetector.LowerExtension(path) in {Some("pt"), Some("pth")} ==> r == Ok(PyTorch)
    ensures ModelDetector.LowerExtension(path) in {Some("linfa"), Some("lfa")} ==> r == Ok(ModelFormat.Linfa)
    ensures Paths.Extension(path).Some?
            && ModelDetector.LowerExtension(path) !in {Some("safetensors"), Some("pt"), Some("pth"), Some("linfa"), Some("lfa")}
            ==> r == (match content
                      case ReadFailed(reason) => Err(ModelLoad("Failed to read file " + path + ": " + reason))
                      case Read(bytes) => DetectFormatFromBytes(bytes, bincodeAccepts))
    ensures r.Ok? ==> r.value != Onnx
  {
    match Paths.Extension(path)
    case None => Err(UnsupportedFormatError("No file extension found for " + path))
    case Some(ext) =>
      match ToLower(ext)
      case "safetensors" => Ok(SafeTensors)
      case "pt" => Ok(PyTorch)
      case "pth" => Ok(PyTorch)
      case "linfa" => Ok(ModelFormat.Linfa)
      case "lfa" => Ok(ModelFormat.Linfa)
      case _ =>
        match content
        case ReadFailed(reason) => Err(ModelLoadError("Failed to read file " + path + ": " + reason))
        case Read(bytes) => DetectFormatFromBytes(bytes, bincodeAccepts)
  }

  /// `from_file`: detection, then the format's preferred engine.
  function FromFile(path: string, content: ModelDetector.ReadOutcome, bincodeAccepts: seq<byte> -> bool,
                    features: Features): (r: Result<EngineType>)
    ensures r.Ok? ==> DetectFormatFromPath(path, content, bincodeAccepts).Ok?
                      && r.value == PreferredEngineForFormat(DetectFormatFromPath(path, content, bincodeAccepts).value)
                      && IsEngineAvailable(r.value, features)
  {
    var format :- DetectFormatFromPath(path, content, bincodeAccepts);
    CreateEngine(format, features)
  }

  /// `from_bytes`.
  function FromBytes(bytes: seq<byte>, bincodeAccepts: seq<byte> -> bool, features: Features): (r: Result<EngineType>)
    ensures |bytes| == 0 ==> r == Err(UnsupportedFormat("Empty file content"))
    ensures r.Ok? ==> r.value == PreferredEngineForFormat(DetectFormatFromBytes(bytes, bincodeAccepts).value)
                      && IsEngineAvailable(r.value, features)
  {
    var format :- DetectFormatFromBytes(bytes, bincodeAccepts);
    CreateEngine(format, features)
  }

  /// The two detectors disagree. A short unrecognised buffer is an error
  /// for `ModelDetector` but SafeTensors here; a pickle stream of protocol
  /// 5 is unknown there but PyTorch here; and a genuine SafeTensors file
  /// whose header is 128 bytes long starts with `0x80`, so it is
  /// SafeTensors there but PyTorch here.
  lemma DetectorsDisagree(bincodeAccepts: seq<byte> -> bool)
    ensures ModelDetector.DetectFormatFromBytes(['A' as byte]).Err?
    ensures DetectFormatFromBytes(['A' as byte], bincodeAccepts) == Ok(SafeTensors)
    ensures ModelDetector.DetectFormatFromBytes([0x80, 0x05, 0, 0]).Err?
    ensures DetectFormatFromBytes([0x80, 0x05, 0, 0], bincodeAccepts) == Ok(PyTorch)
    ensures var f := ModelDetector.SafeTensorsFile(Header128(), []);
            ModelDetector.DetectFormatFromBytes(f) == Ok(SafeTensors)
            && DetectFormatFromBytes(f, bincodeAccepts) == Ok(PyTorch)
  {
    assert [0x80, 0x05, 0, 0][..2] == [0x80, 0x05];
    var h := Header128();
    ModelDetector.SafeTensorsFileRecognised(h, []);
    var f := ModelDetector.SafeTensorsFile(h, []);
    assert f[0] == 0x80 by {
      ModelDetector.Tensors.Pow256Widths();
      assert f[..8] == ModelDetector.Tensors.EncodeLE(128, 8);
    }
  }

  /// A 128-byte JSON header: `{` followed by spaces.
  function Header128(): (h: seq<byte>)
    ensures |h| == 128 && h[0] == ModelDetector.OpenBrace
  {
    [ModelDetector.OpenBrace] + seq(127, _ => 0x20)
  }

  /// An ASCII JSON text of at most 1024 bytes that mentions
  /// `__metadata__` is SafeTensors, whatever the bincode decoder says.
  lemma MetadataJsonIsSafeTensors(bytes: seq<byte>, at: nat, bincodeAccepts: seq<byte> -> bool)
    requires 0 < |bytes| <= 1024 && bytes[0] == ModelDetector.OpenBrace && Utf8.IsAscii(bytes)
    requires OccursAt(bytes, MetadataKey, at)
    ensures DetectFormatFromBytes(bytes, bincodeAccepts) == Ok(SafeTensors)
  {
    Utf8.AsciiIsValid(bytes);
    var window := bytes[..|bytes|];
    assert window == bytes;
    assert OccursAt(window, MetadataKey, at);
    assert Contains(window, MetadataKey);
    assert LooksLikeSafeTensorsJson(bytes);
  }

  // ---------------------------------------------------------------------
  // Engine configuration

  /// `EngineConfig`, whose builders assign its fields.
  class EngineConfig {
    var preferredEngine: Option<EngineType>
    var allowFallback: bool
    var gpuAcceleration: bool

    /// `EngineConfig::new` / `Default`: no preference, fallback and GPU on.
    constructor ()
      ensures preferredEngine == None && allowFallback && gpuAcceleration
    {
      preferredEngine := None;
      allowFallback := true;
      gpuAcceleration := true;
    }

    method WithPreferredEngine(engineType: EngineType)
      modifies this
      ensures preferredEngine == Some(engineType)
      ensures allowFallback == old(allowFallback) && gpuAcceleration == old(gpuAcceleration)
    {
      preferredEngine := Some(engineType);
    }

    method WithFallback(allow: bool)
      modifies this
      ensures allowFallback == allow
      ensures preferredEngine == old(preferredEngine) && gpuAcceleration == old(gpuAcceleration)
    {
      allowFallback := allow;
    }

    method WithGpuAcceleration(gpu: bool)
      modifies this
      ensures gpuAcceleration == gpu
      ensures preferredEngine == old(preferredEngine) && allowFallback == old(allowFallback)
    {
      gpuAcceleration := gpu;
    }

    /// `EngineConfig::create_engine`.
    function CreateEngine(format: ModelFormat, features: Features): (r: Result<EngineType>)
      reads this
      requires HandledFormat(format)
      requires preferredEngine != Some(Ort)
      ensures preferredEngine.Some? && IsEngineAvailable(preferredEngine.value, features)
              ==> r == Ok(preferredEngine.value)
      ensures preferredEngine.Some? && !IsEngineAvailable(preferredEngine.value, features) && !allowFallback
              ==> r.Err? && r.error.Configuration?
      ensures !allowFallback && !(preferredEngine.Some? && IsEngineAvailable(preferredEngine.value, features))
              ==> r.Err? && r.error.Configuration?
      ensures allowFallback && !(preferredEngine.Some? && IsEngineAvailable(preferredEngine.value, features))
              ==> r == CreateBestEngineForFormat(format, features)
      ensures r.Ok? ==> IsEngineAvailable(r.value, features)
    {
      BestEngineIsAvailable(format, features);
      if preferredEngine.Some? && IsEngineAvailable(preferredEngine.value, features) then
        CreateEngineByType(preferredEngine.value, features)
      else if preferredEngine.Some? && !allowFallback then
        Err(ConfigurationError("Preferred engine " + EngineDebug(preferredEngine.value)
                               + " not available and fallback disabled"))
      else if allowFallback then CreateBestEngineForFormat(format, features)
      else Err(ConfigurationError("No suitable engine available and fallback disabled"))
    }
  }

  /// The derived `{:?}` text of an engine type.
  function EngineDebug(t: EngineType): string
  {
    match t
    case Candle => "Candle"
    case Ort => "Ort"
    case Linfa => "Linfa"
  }
}
