/// The `Model` and `InferenceEngine` trait objects as sums over the
/// engines of this model, with the foreign pieces every engine needs
/// gathered in one `Env`.
module Backends {
  import opened Base
  import opened Errors
  import opened Tensors
  import opened Engines
  import ModelDetector
  import Factory
  import Linfa
  import Candle
  import Wrappers

  /// A loaded model of any engine.
  datatype Model =
    | LinfaModel(linfa: Linfa.LinfaModel)
    | SafeTensorsModel(generic: Candle.CandleModel)
    | WrapperModel(wrapper: Wrappers.Wrapper)

  /// What the engines call but this model does not define: Linfa's
  /// fitting and prediction, Candle's parsers and arithmetic, the
  /// iteration order of a weight map, and the wrappers' `f32` scalings
  /// (by 0.1 for BERT and 0.01 for ResNet), and whether a CUDA device
  /// could be opened when a Candle engine is created.
  datatype Env = Env(
    gpuDetected: bool,
    linfa: Linfa.Backend,
    candle: Candle.Backend,
    iterationOrder: map<string, Candle.CandleTensor> -> seq<string>,
    scaleBert: F32Bits -> F32Bits,
    scaleResNet: F32Bits -> F32Bits)

  function Scale(env: Env, kind: Wrappers.Kind): F32Bits -> F32Bits
  {
    match kind
    case Bert => env.scaleBert
    case ResNet => env.scaleResNet
  }

  function InputSpecs(m: Model): seq<TensorSpec>
  {
    match m
    case LinfaModel(l) => l.inputSpecs
    case SafeTensorsModel(c) => c.inputSpecs
    case WrapperModel(w) => w.inputSpecs
  }

  function OutputSpecs(m: Model): seq<TensorSpec>
  {
    match m
    case LinfaModel(l) => l.outputSpecs
    case SafeTensorsModel(c) => c.outputSpecs
    case WrapperModel(w) => w.outputSpecs
  }

  /// Every model reports itself as loaded by the engine that made it.
  function ModelEngineType(m: Model): EngineType
  {
    match m
    case LinfaModel(_) => EngineType.Linfa
    case _ => Candle
  }

  /// `Model::predict` of the model's own type.
  function Predict(m: Model, input: Tensor, env: Env): Result<Tensor>
  {
    match m
    case LinfaModel(l) => Linfa.Predict(l, input, env.linfa)
    case SafeTensorsModel(c) => Candle.PredictSpec(c, input, env.iterationOrder(c.weights), env.candle)
    case WrapperModel(w) => Wrappers.PredictSpec(w.kind, input, Scale(env, w.kind))
  }

  /// An input every model can run on (only the wrappers can panic).
  predicate CanPredict(m: Model, input: Tensor)
  {
    m.WrapperModel? ==> Wrappers.Defined(input)
  }

  /// `Model::predict_batch`: every engine maps `predict` over the inputs
  /// in order and stops at the first error.
  method PredictBatch(m: Model, inputs: seq<Tensor>, env: Env) returns (r: Result<seq<Tensor>>)
    requires forall i :: 0 <= i < |inputs| ==> CanPredict(m, inputs[i])
    ensures r == CollectResults(inputs, (x: Tensor) => Predict(m, x, env))
  {
    var f := (x: Tensor) => Predict(m, x, env);
    match m {
      case LinfaModel(l) =>
        r := Linfa.PredictBatch(l, inputs, env.linfa);
        CollectResultsPointwise(inputs, (x: Tensor) => Linfa.Predict(l, x, env.linfa), f);
      case SafeTensorsModel(c) =>
        var order := env.iterationOrder(c.weights);
        r := Candle.PredictBatch(c, inputs, order, env.candle);
        CollectResultsPointwise(inputs, (x: Tensor) => Candle.PredictSpec(c, x, order, env.candle), f);
      case WrapperModel(w) =>
        r := Wrappers.PredictBatch(w, inputs, Scale(env, w.kind));
        CollectResultsPointwise(inputs, (x: Tensor) => Wrappers.PredictSpec(w.kind, x, Scale(env, w.kind)), f);
    }
  }

  /// A batch succeeds exactly when every input does, and then holds each
  /// input's own prediction in order; otherwise it fails with the first
  /// failing input's error.
  lemma PredictBatchElementwise(m: Model, inputs: seq<Tensor>, env: Env, k: nat)
    requires k <= |inputs|
    requires forall i :: 0 <= i < k ==> Predict(m, inputs[i], env).Ok?
    ensures var r := CollectResults(inputs, (x: Tensor) => Predict(m, x, env));
            (r.Ok? <==> forall i :: 0 <= i < |inputs| ==> Predict(m, inputs[i], env).Ok?)
            && (r.Ok? ==> |r.value| == |inputs|
                          && forall i :: 0 <= i < |inputs| ==> r.value[i] == Predict(m, inputs[i], env).value)
            && (k < |inputs| && Predict(m, inputs[k], env).Err? ==> r == Err(Predict(m, inputs[k], env).error))
  {
    var f := (x: Tensor) => Predict(m, x, env);
    CollectResultsOk(inputs, f);
    if k < |inputs| && f(inputs[k]).Err? {
      CollectResultsFirstError(inputs, f, k);
    }
  }

  // ---------------------------------------------------------------------
  // Engines

  datatype Engine = CandleEngine(candle: Candle.CandleEngine) | LinfaEngine(linfa: Linfa.LinfaEngine)

  function EngineTypeOf(e: Engine): (t: EngineType)
    ensures Handled(t)
  {
    match e
    case CandleEngine(_) => Candle
    case LinfaEngine(_) => EngineType.Linfa
  }

  /// The engine the factory builds for an engine type: Candle on the
  /// detected device, Linfa with its default k-means.
  function EngineFor(t: EngineType, gpuDetected: bool): (e: Engine)
    requires Handled(t)
    ensures EngineTypeOf(e) == t
  {
    match t
    case Candle => CandleEngine(Candle.CandleEngine(gpuDetected))
    case Linfa => LinfaEngine(Linfa.DefaultEngine())
  }

  /// `InferenceEngine::supports_format` of the engine's own type.
  function SupportsFormat(e: Engine, format: ModelFormat): bool
  {
    match e
    case CandleEngine(c) => Candle.SupportsFormat(c, format)
    case LinfaEngine(l) => Linfa.SupportsFormat(l, format)
  }

  /// The engine the factory prefers for a format is one that supports it,
  /// and no other engine does.
  lemma PreferredEngineSupportsFormat(format: ModelFormat, gpuDetected: bool)
    requires HandledFormat(format)
    ensures SupportsFormat(EngineFor(Factory.PreferredEngineForFormat(format), gpuDetected), format)
    ensures forall t :: Handled(t) && t != Factory.PreferredEngineForFormat(format)
                        ==> !SupportsFormat(EngineFor(t, gpuDetected), format)
  {
  }

  /// `InferenceEngine::load_model` of the engine's own type.
  function LoadModel(e: Engine, path: string, content: ModelDetector.ReadOutcome, env: Env): (r: Result<Model>)
    ensures e.LinfaEngine? ==> r == Err(UnsupportedFormat(Linfa.LoadFileMessage))
    ensures r.Ok? ==> ModelEngineType(r.value) == EngineTypeOf(e)
  {
    match e
    case CandleEngine(_) =>
      var c :- Candle.LoadModelSpec(path, content, env.candle);
      Ok(SafeTensorsModel(c))
    case LinfaEngine(l) =>
      Err(Linfa.LoadModel(l, path).error)
  }

  /// `InferenceEngine::load_from_bytes` of the engine's own type.
  function LoadFromBytes(e: Engine, bytes: seq<byte>, env: Env): (r: Result<Model>)
    ensures e.LinfaEngine? ==> r == Err(UnsupportedFormat(Linfa.LoadBytesMessage))
    ensures e.CandleEngine? && !Candle.IsSafeTensorsFormat(bytes, env.candle.jsonParses) ==>
              r == Err(UnsupportedFormat(Candle.BytesNotSafeTensors))
    ensures r.Ok? ==> ModelEngineType(r.value) == EngineTypeOf(e)
  {
    match e
    case CandleEngine(_) =>
      var c :- Candle.LoadFromBytesSpec(bytes, env.candle);
      Ok(SafeTensorsModel(c))
    case LinfaEngine(l) =>
      Err(Linfa.LoadFromBytes(l, bytes).error)
  }
}
