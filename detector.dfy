/// `ModelDetector`: classifies model files by extension and by the first
/// bytes of their content. Reading a file is not modelled: the caller
/// passes what `fs::read` would have returned.
module ModelDetector {
  import opened Base
  import opened Errors
  import opened Engines
  import Paths
  import Tensors

  /// What `fs::read` of a path gives.
  datatype ReadOutcome = Read(bytes: seq<byte>) | ReadFailed(reason: string)

  const OpenBrace: byte := 0x7B
  const NoFormatMessage := "Could not detect model format from content"

  /// The header-length word of a SafeTensors file: the little-endian
  /// `u64` in the first eight bytes.
  function HeaderLength(bytes: seq<byte>): nat
    requires |bytes| >= 8
  {
    Tensors.DecodeLE(bytes[..8])
  }

  /// `is_safetensors_format`.
  predicate IsSafeTensorsFormat(bytes: seq<byte>)
  {
    if |bytes| < 8 then false
    else
      var jsonLen := HeaderLength(bytes);
      if jsonLen > |bytes| - 8 || jsonLen < 1 then false
      else if |bytes| > 8 then bytes[8] == OpenBrace
      else false
  }

  /// `is_pytorch_format`: a pickle PROTO opcode for protocol 2, 3 or 4,
  /// or a ZIP local-file-header signature (written twice in the source).
  predicate IsPyTorchFormat(bytes: seq<byte>)
  {
    if |bytes| < 4 then false
    else
      bytes[..2] == [0x80, 0x02] || bytes[..2] == [0x80, 0x03] || bytes[..2] == [0x80, 0x04]
      || bytes[..2] == [0x50, 0x4B] || bytes[..2] == ['P' as byte, 'K' as byte]
  }

  /// The SafeTensors test accepts exactly the buffers that hold a length
  /// word, a header of 1 to `len - 8` bytes, and `{` as the header's first byte.
  lemma SafeTensorsIff(bytes: seq<byte>)
    ensures IsSafeTensorsFormat(bytes)
            <==> |bytes| >= 8 && 1 <= HeaderLength(bytes) <= |bytes| - 8 && bytes[8] == OpenBrace
  {
  }

  /// The PyTorch test accepts exactly the buffers of at least four bytes
  /// starting with `80 02`, `80 03`, `80 04` or `50 4B`.
  lemma PyTorchIff(bytes: seq<byte>)
    ensures IsPyTorchFormat(bytes)
            <==> |bytes| >= 4 && ((bytes[0] == 0x80 && bytes[1] in {2, 3, 4}) || (bytes[0] == 0x50 && bytes[1] == 0x4B))
  {
    if |bytes| >= 4 {
      assert bytes[..2] == [bytes[0], bytes[1]];
    }
  }

  /// The byte image of a SafeTensors file: the header length as a
  /// little-endian `u64`, the JSON header, then the tensor data.
  function SafeTensorsFile(header: seq<byte>, payload: seq<byte>): (f: seq<byte>)
    requires |header| < 0x1_0000_0000_0000_0000
    ensures |f| == 8 + |header| + |payload|
  {
    Tensors.Pow256Widths();
    Tensors.EncodeLE(|header|, 8) + header + payload
  }

  /// Every SafeTensors file whose header is a JSON object passes the test.
  lemma SafeTensorsFileRecognised(header: seq<byte>, payload: seq<byte>)
    requires 1 <= |header| < 0x1_0000_0000_0000_0000 && header[0] == OpenBrace
    ensures IsSafeTensorsFormat(SafeTensorsFile(header, payload))
  {
    Tensors.Pow256Widths();
    var f := SafeTensorsFile(header, payload);
    assert f[..8] == Tensors.EncodeLE(|header|, 8);
    Tensors.DecodeEncodeLE(|header|, 8);
    assert f[8] == header[0];
  }

  /// `detect_format_from_bytes`: SafeTensors is tried first, then PyTorch;
  /// there is no default.
  function DetectFormatFromBytes(bytes: seq<byte>): (r: Result<ModelFormat>)
    ensures r.Ok? <==> IsSafeTensorsFormat(bytes) || IsPyTorchFormat(bytes)
    ensures r.Ok? ==> r.value == (if IsSafeTensorsFormat(bytes) then SafeTensors else PyTorch)
    ensures r.Err? ==> r.error == FormatDetection(NoFormatMessage)
    ensures r.Ok? ==> HandledFormat(r.value)
  {
    if IsSafeTensorsFormat(bytes) then Ok(SafeTensors)
    else if IsPyTorchFormat(bytes) then Ok(PyTorch)
    else Err(FormatDetectionError(NoFormatMessage))
  }

  /// `detect_engine_from_bytes`: Candle for either recognised layout.
  function DetectEngineFromBytes(bytes: seq<byte>): (r: Result<EngineType>)
    ensures r.Ok? <==> IsSafeTensorsFormat(bytes) || IsPyTorchFormat(bytes)
    ensures r.Ok? ==> r.value == Candle
    ensures r.Err? ==> r.error == FormatDetection(NoFormatMessage)
  {
    if IsSafeTensorsFormat(bytes) then Ok(Candle)
    else if IsPyTorchFormat(bytes) then Ok(Candle)
    else Err(FormatDetectionError(NoFormatMessage))
  }

  /// The engine and format detections succeed on the same buffers, and
  /// neither ever returns Linfa or ONNX.
  lemma EngineAndFormatDetectionAgree(bytes: seq<byte>)
    ensures DetectEngineFromBytes(bytes).Ok? <==> DetectFormatFromBytes(bytes).Ok?
    ensures DetectFormatFromBytes(bytes).Ok? ==> DetectFormatFromBytes(bytes).value in {SafeTensors, PyTorch}
  {
  }

  /// Empty and short unrecognised input is an error, never a default.
  lemma ShortInputUndetected(bytes: seq<byte>)
    requires |bytes| < 4
    ensures DetectFormatFromBytes(bytes) == Err(FormatDetection(NoFormatMessage))
    ensures DetectEngineFromBytes(bytes) == Err(FormatDetection(NoFormatMessage))
  {
  }

  /// A 648-byte buffer that is both a pickle stream (`80 02`) and a
  /// SafeTensors layout (header length 640, `{` at offset 8); the
  /// SafeTensors test wins.
  function AmbiguousBuffer(): seq<byte>
  {
    [0x80, 0x02, 0, 0, 0, 0, 0, 0, OpenBrace] + seq(639, _ => 0)
  }

  lemma BothLayoutsAccepted()
    ensures |AmbiguousBuffer()| == 648
    ensures IsSafeTensorsFormat(AmbiguousBuffer()) && IsPyTorchFormat(AmbiguousBuffer())
    ensures DetectFormatFromBytes(AmbiguousBuffer()) == Ok(SafeTensors)
  {
    var b := AmbiguousBuffer();
    assert b[..8] == [0x80, 0x02, 0, 0, 0, 0, 0, 0];
    assert HeaderLength(b) == 640;
    assert b[..2] == [0x80, 0x02];
  }

  /// `to_lowercase` of the extension, if the path has one.
  function LowerExtension(path: string): Option<string>
  {
    match Paths.Extension(path)
    case Some(ext) => Some(ToLower(ext))
    case None => None
  }

  /// `detect_format_from_content`.
  function DetectFormatFromContent(content: ReadOutcome): (r: Result<ModelFormat>)
  {
    match content
    case ReadFailed(reason) => Err(FormatDetectionError("Failed to read file: " + reason))
    case Read(bytes) => DetectFormatFromBytes(bytes)
  }

  /// `detect_format_from_path`; `content` is what reading the path gives.
  function DetectFormatFromPath(path: string, content: ReadOutcome): (r: Result<ModelFormat>)
    ensures LowerExtension(path) == Some("safetensors") ==> r == Ok(SafeTensors)
    ensures LowerExtension(path) in {Some("pt"), Some("pth")} ==> r == Ok(PyTorch)
    ensures LowerExtension(path) !in {Some("safetensors"), Some("pt"), Some("pth")}
            ==> r == DetectFormatFromContent(content)
    ensures r.Err? ==> r.error.FormatDetection?
    ensures r.Ok? ==> HandledFormat(r.value)
  {
    match LowerExtension(path)
    case Some("safetensors") => Ok(SafeTensors)
    case Some("pt") => Ok(PyTorch)
    case Some("pth") => Ok(PyTorch)
    case _ => DetectFormatFromContent(content)
  }

  /// `detect_engine_from_content`.
  function DetectEngineFromContent(content: ReadOutcome): (r: Result<EngineType>)
  {
    match content
    case ReadFailed(reason) => Err(FormatDetectionError("Failed to read file: " + reason))
    case Read(bytes) => DetectEngineFromBytes(bytes)
  }

  /// `detect_engine_from_path`: every branch ends in Candle.
  function DetectEngineFromPath(path: string, content: ReadOutcome): (r: EngineType)
    ensures r == Candle
  {
    match LowerExtension(path)
    case Some("safetensors") => Candle
    case Some("pt") => Candle
    case Some("pth") => Candle
    case _ =>
      match DetectEngineFromContent(content)
      case Ok(engine) => engine
      case Err(_) => Candle
  }

  /// A recognised extension decides the format whatever the file holds.
  lemma ExtensionDecidesWithoutContent(path: string, c1: ReadOutcome, c2: ReadOutcome)
    requires LowerExtension(path) in {Some("safetensors"), Some("pt"), Some("pth")}
    ensures DetectFormatFromPath(path, c1) == DetectFormatFromPath(path, c2)
    ensures DetectFormatFromPath(path, c1).Ok?
  {
  }
}
