/// The error taxonomy of the runtime (`InferenceError`), its helper
/// constructors, the `From` conversions and the `Display` texts.
module Errors {
  import opened Base

  datatype InferenceError =
    | ModelLoad(msg: string)
    | Prediction(msg: string)
    | UnsupportedFormat(msg: string)
    | InvalidShape(expected: seq<nat>, actual: seq<nat>)
    | InvalidTensorData(msg: string)
    | Engine(msg: string)
    | Io(msg: string)
    | Serialization(msg: string)
    | Configuration(msg: string)
    | ResourceNotFound(msg: string)
    | MemoryAllocation(msg: string)
    | ThreadPool(msg: string)
    | Gpu(msg: string)
    | FormatDetection(msg: string)

  /// `Result<T, InferenceError>`, usable with `:-` like Rust's `?`.
  datatype Result<T> = Ok(value: T) | Err(error: InferenceError)
  {
    predicate IsFailure() { Err? }

    function PropagateFailure<U>(): Result<U>
      requires Err?
    {
      Err(error)
    }

    function Extract(): T
      requires Ok?
    {
      value
    }
  }

  /// The variant of an error without its payload.
  datatype ErrorKind =
    | KModelLoad | KPrediction | KUnsupportedFormat | KInvalidShape | KInvalidTensorData
    | KEngine | KIo | KSerialization | KConfiguration | KResourceNotFound
    | KMemoryAllocation | KThreadPool | KGpu | KFormatDetection

  function KindOf(e: InferenceError): ErrorKind
  {
    match e
    case ModelLoad(_) => KModelLoad
    case Prediction(_) => KPrediction
    case UnsupportedFormat(_) => KUnsupportedFormat
    case InvalidShape(_, _) => KInvalidShape
    case InvalidTensorData(_) => KInvalidTensorData
    case Engine(_) => KEngine
    case Io(_) => KIo
    case Serialization(_) => KSerialization
    case Configuration(_) => KConfiguration
    case ResourceNotFound(_) => KResourceNotFound
    case MemoryAllocation(_) => KMemoryAllocation
    case ThreadPool(_) => KThreadPool
    case Gpu(_) => KGpu
    case FormatDetection(_) => KFormatDetection
  }

  /// Builds the message-carrying variant of kind `k`.
  function WithMessage(k: ErrorKind, msg: string): InferenceError
    requires k != KInvalidShape
  {
    match k
    case KModelLoad => ModelLoad(msg)
    case KPrediction => Prediction(msg)
    case KUnsupportedFormat => UnsupportedFormat(msg)
    case KInvalidTensorData => InvalidTensorData(msg)
    case KEngine => Engine(msg)
    case KIo => Io(msg)
    case KSerialization => Serialization(msg)
    case KConfiguration => Configuration(msg)
    case KResourceNotFound => ResourceNotFound(msg)
    case KMemoryAllocation => MemoryAllocation(msg)
    case KThreadPool => ThreadPool(msg)
    case KGpu => Gpu(msg)
    case KFormatDetection => FormatDetection(msg)
  }

  // Helper constructors of `impl InferenceError`.

  function ModelLoadError(msg: string): InferenceError { ModelLoad(msg) }
  function PredictionError(msg: string): InferenceError { Prediction(msg) }
  function UnsupportedFormatError(format: string): InferenceError { UnsupportedFormat(format) }
  function InvalidShapeError(expected: seq<nat>, actual: seq<nat>): InferenceError { InvalidShape(expected, actual) }
  function InvalidTensorDataError(msg: string): InferenceError { InvalidTensorData(msg) }
  /// Despite its name this helper builds `InvalidTensorData`.
  function InvalidShapeMsg(msg: string): InferenceError { InvalidTensorData(msg) }
  function ConfigurationError(msg: string): InferenceError { Configuration(msg) }
  function ResourceNotFoundError(resource: string): InferenceError { ResourceNotFound(resource) }
  function MemoryAllocationError(msg: string): InferenceError { MemoryAllocation(msg) }
  function GpuError(msg: string): InferenceError { Gpu(msg) }
  function FormatDetectionError(msg: string): InferenceError { FormatDetection(msg) }

  // `From` conversions; the foreign error is represented by its `to_string()`.

  function FromAnyhow(text: string): InferenceError { Engine(text) }
  function FromIo(text: string): InferenceError { Io(text) }
  function FromSerdeJson(text: string): InferenceError { Serialization(text) }

  /// Every helper builds the variant it is named after and carries its
  /// message unchanged; `InvalidShapeMsg` is the exception that yields
  /// `InvalidTensorData`.
  lemma HelpersBuildTheirVariant(msg: string, expected: seq<nat>, actual: seq<nat>)
    ensures ModelLoadError(msg) == WithMessage(KModelLoad, msg)
    ensures PredictionError(msg) == WithMessage(KPrediction, msg)
    ensures UnsupportedFormatError(msg) == WithMessage(KUnsupportedFormat, msg)
    ensures InvalidTensorDataError(msg) == WithMessage(KInvalidTensorData, msg)
    ensures InvalidShapeMsg(msg) == WithMessage(KInvalidTensorData, msg)
    ensures KindOf(InvalidShapeMsg(msg)) != KInvalidShape
    ensures ConfigurationError(msg) == WithMessage(KConfiguration, msg)
    ensures ResourceNotFoundError(msg) == WithMessage(KResourceNotFound, msg)
    ensures MemoryAllocationError(msg) == WithMessage(KMemoryAllocation, msg)
    ensures GpuError(msg) == WithMessage(KGpu, msg)
    ensures FormatDetectionError(msg) == WithMessage(KFormatDetection, msg)
    ensures InvalidShapeError(expected, actual).expected == expected
    ensures InvalidShapeError(expected, actual).actual == actual
    ensures FromAnyhow(msg) == WithMessage(KEngine, msg)
    ensures FromIo(msg) == WithMessage(KIo, msg)
    ensures FromSerdeJson(msg) == WithMessage(KSerialization, msg)
  {
  }

  /// The fixed text `Display` puts in front of the message.
  function Prefix(k: ErrorKind): string
  {
    match k
    case KModelLoad => "Model loading failed: "
    case KPrediction => "Prediction failed: "
    case KUnsupportedFormat => "Unsupported format: "
    case KInvalidShape => "Invalid input shape: expected "
    case KInvalidTensorData => "Invalid tensor data: "
    case KEngine => "Engine error: "
    case KIo => "IO error: "
    case KSerialization => "Serialization error: "
    case KConfiguration => "Configuration error: "
    case KResourceNotFound => "Resource not found: "
    case KMemoryAllocation => "Memory allocation failed: "
    case KThreadPool => "Thread pool error: "
    case KGpu => "GPU error: "
    case KFormatDetection => "Model format detection failed: "
  }

  /// The `thiserror` `Display` text of an error.
  function Display(e: InferenceError): string
  {
    match e
    case InvalidShape(expected, actual) =>
      Prefix(KInvalidShape) + ShapeDebug(expected) + ", got " + ShapeDebug(actual)
    case _ => Prefix(KindOf(e)) + e.msg
  }

  /// Recognises the variant from the first characters of a `Display`
  /// text; the positions read are where the prefixes first differ.
  function KindOfDisplay(s: string): Option<ErrorKind>
  {
    if |s| < 9 then None
    else match s[0]
      case 'M' =>
        if s[2] == 'm' then Some(KMemoryAllocation)
        else if s[6] == 'l' then Some(KModelLoad)
        else if s[6] == 'f' then Some(KFormatDetection)
        else None
      case 'P' => Some(KPrediction)
      case 'U' => Some(KUnsupportedFormat)
      case 'I' =>
        if s[1] == 'O' then Some(KIo)
        else if s[8] == 'i' then Some(KInvalidShape)
        else if s[8] == 't' then Some(KInvalidTensorData)
        else None
      case 'E' => Some(KEngine)
      case 'S' => Some(KSerialization)
      case 'C' => Some(KConfiguration)
      case 'R' => Some(KResourceNotFound)
      case 'T' => Some(KThreadPool)
      case 'G' => Some(KGpu)
      case _ => None
  }

  /// Reads a message-carrying error back from its `Display` text.
  function ParseDisplay(s: string): Option<InferenceError>
  {
    match KindOfDisplay(s)
    case Some(k) =>
      if k != KInvalidShape && |Prefix(k)| <= |s| then Some(WithMessage(k, s[|Prefix(k)|..]))
      else None
    case None => None
  }

  /// Any text that starts with the prefix of kind `k` is recognised as `k`.
  lemma KindOfPrefixed(k: ErrorKind, rest: string)
    ensures KindOfDisplay(Prefix(k) + rest) == Some(k)
  {
    var s := Prefix(k) + rest;
    var p := Prefix(k);
    assert |p| >= 9;
    assert s[0] == p[0] && s[1] == p[1] && s[2] == p[2] && s[6] == p[6] && s[8] == p[8];
    match k
    case KModelLoad =>
    case KPrediction =>
    case KUnsupportedFormat =>
    case KInvalidShape =>
    case KInvalidTensorData =>
    case KEngine =>
    case KIo =>
    case KSerialization =>
    case KConfiguration =>
    case KResourceNotFound =>
    case KMemoryAllocation =>
    case KThreadPool =>
    case KGpu =>
    case KFormatDetection =>
  }

  /// `Display` is the per-variant prefix followed by the message, and the
  /// variant can be read back from the text.
  lemma DisplayIsPrefixThenMessage(e: InferenceError)
    ensures !e.InvalidShape? ==> Display(e) == Prefix(KindOf(e)) + e.msg
    ensures KindOfDisplay(Display(e)) == Some(KindOf(e))
  {
    if e.InvalidShape? {
      var rest := ShapeDebug(e.expected) + ", got " + ShapeDebug(e.actual);
      assert Display(e) == Prefix(KInvalidShape) + rest;
      KindOfPrefixed(KInvalidShape, rest);
    } else {
      KindOfPrefixed(KindOf(e), e.msg);
    }
  }

  /// Round trip: the message-carrying error is recovered from its text.
  lemma ParseDisplayRoundTrip(e: InferenceError)
    requires !e.InvalidShape?
    ensures ParseDisplay(Display(e)) == Some(e)
  {
    DisplayIsPrefixThenMessage(e);
    var p := Prefix(KindOf(e));
    assert Display(e)[|p|..] == e.msg;
  }

  /// Two message-carrying errors with the same text are the same error.
  lemma DisplayInjective(e1: InferenceError, e2: InferenceError)
    requires !e1.InvalidShape? && !e2.InvalidShape?
    requires Display(e1) == Display(e2)
    ensures e1 == e2
  {
    ParseDisplayRoundTrip(e1);
    ParseDisplayRoundTrip(e2);
  }

  // ---------------------------------------------------------------------
  // Collecting results

  /// `iter.map(f).collect::<Result<Vec<_>, _>>()`, and equally a loop that
  /// pushes `f(x)?`: the values in order, or the first error.
  function CollectResults<A, B>(xs: seq<A>, f: A -> Result<B>): Result<seq<B>>
  {
    if |xs| == 0 then Ok([])
    else match f(xs[0])
      case Err(e) => Err(e)
      case Ok(y) =>
        match CollectResults(xs[1..], f)
        case Err(e) => Err(e)
        case Ok(ys) => Ok([y] + ys)
  }

  /// Collecting succeeds exactly when every element succeeds, and then
  /// yields every element's value in order.
  lemma {:induction false} CollectResultsOk<A, B>(xs: seq<A>, f: A -> Result<B>)
    ensures CollectResults(xs, f).Ok? <==> forall i :: 0 <= i < |xs| ==> f(xs[i]).Ok?
    ensures CollectResults(xs, f).Ok? ==>
              |CollectResults(xs, f).value| == |xs|
              && forall i :: 0 <= i < |xs| ==> CollectResults(xs, f).value[i] == f(xs[i]).value
  {
    if |xs| > 0 {
      CollectResultsOk(xs[1..], f);
      assert forall i :: 1 <= i < |xs| ==> xs[1..][i - 1] == xs[i];
    }
  }

  /// A failure is the error of the first failing element.
  lemma {:induction false} CollectResultsFirstError<A, B>(xs: seq<A>, f: A -> Result<B>, k: nat)
    requires k < |xs|
    requires forall i :: 0 <= i < k ==> f(xs[i]).Ok?
    requires f(xs[k]).Err?
    ensures CollectResults(xs, f) == Err(f(xs[k]).error)
  {
    if k > 0 {
      assert forall i :: 0 <= i < k - 1 ==> xs[1..][i] == xs[i + 1];
      CollectResultsFirstError(xs[1..], f, k - 1);
    }
  }

  /// Collecting depends only on what `f` does to the elements collected.
  lemma {:induction false} CollectResultsPointwise<A, B>(xs: seq<A>, f: A -> Result<B>, g: A -> Result<B>)
    requires forall i :: 0 <= i < |xs| ==> f(xs[i]) == g(xs[i])
    ensures CollectResults(xs, f) == CollectResults(xs, g)
  {
    if |xs| > 0 {
      assert forall i :: 0 <= i < |xs| - 1 ==> xs[1..][i] == xs[i + 1];
      CollectResultsPointwise(xs[1..], f, g);
    }
  }
}
