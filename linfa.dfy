/// The Linfa engine: classical machine-learning models that are trained
/// in process rather than loaded. The numerical work (k-means fitting,
/// least squares, their predictions) belongs to foreign crates and is a
/// `Backend` of function parameters; what is modelled is the dispatch,
/// the conversions to and from matrices, the errors and the tensor specs
/// a trained model advertises.
module Linfa {
  import opened Base
  import opened Errors
  import opened Tensors
  import opened Engines
  import Converters
  import Layout

  /// `LinfaAlgorithm`; the SVM's `c` is an opaque `f64` bit pattern.
  datatype Algorithm =
    | KMeans(k: nat)
    | LinearRegression
    | Svm(c: F64Bits)
    | DecisionTree(maxDepth: Option<nat>)

  /// `LinfaEngine`: an engine is its algorithm choice.
  datatype LinfaEngine = LinfaEngine(algorithm: Algorithm)

  // ---------------------------------------------------------------------
  // Constructors and the session builder

  function KMeansEngine(k: nat): Result<LinfaEngine>
  {
    Ok(LinfaEngine(KMeans(k)))
  }

  function LinearRegressionEngine(): Result<LinfaEngine>
  {
    Ok(LinfaEngine(LinearRegression))
  }

  function SvmEngine(c: F64Bits): Result<LinfaEngine>
  {
    Ok(LinfaEngine(Svm(c)))
  }

  function DecisionTreeEngine(maxDepth: Option<nat>): Result<LinfaEngine>
  {
    Ok(LinfaEngine(DecisionTree(maxDepth)))
  }

  /// `LinfaEngine::default`.
  function DefaultEngine(): LinfaEngine
  {
    LinfaEngine(KMeans(3))
  }

  /// `LinfaSessionBuilder`, which only carries the algorithm until `build`.
  datatype SessionBuilder = SessionBuilder(algorithm: Algorithm)
  {
    function Build(): LinfaEngine
    {
      LinfaEngine(algorithm)
    }
  }

  /// Every constructor succeeds and keeps its parameters, the builder
  /// yields the same engine as the matching constructor, and the default
  /// engine is k-means with three clusters.
  lemma ConstructorsKeepParameters(k: nat, c: F64Bits, maxDepth: Option<nat>)
    ensures KMeansEngine(k).Ok? && KMeansEngine(k).value.algorithm == KMeans(k)
    ensures LinearRegressionEngine().Ok? && LinearRegressionEngine().value.algorithm == LinearRegression
    ensures SvmEngine(c).Ok? && SvmEngine(c).value.algorithm.Svm? && SvmEngine(c).value.algorithm.c == c
    ensures DecisionTreeEngine(maxDepth).Ok? && DecisionTreeEngine(maxDepth).value.algorithm == DecisionTree(maxDepth)
    ensures SessionBuilder(KMeans(k)).Build() == KMeansEngine(k).value
    ensures SessionBuilder(LinearRegression).Build() == LinearRegressionEngine().value
    ensures SessionBuilder(Svm(c)).Build() == SvmEngine(c).value
    ensures SessionBuilder(DecisionTree(maxDepth)).Build() == DecisionTreeEngine(maxDepth).value
    ensures DefaultEngine() == KMeansEngine(3).value
  {
  }

  // ---------------------------------------------------------------------
  // The engine interface

  const LoadFileMessage := "Linfa models must be trained using train() method, not loaded from files"
  const LoadBytesMessage := "Linfa models must be trained using train() method, not loaded from bytes"

  /// `load_model`: Linfa models cannot be loaded.
  function LoadModel(engine: LinfaEngine, path: string): (r: Result<LinfaModel>)
    ensures r == Err(UnsupportedFormat(LoadFileMessage))
  {
    Err(UnsupportedFormatError(LoadFileMessage))
  }

  /// `load_from_bytes`: nor decoded from bytes.
  function LoadFromBytes(engine: LinfaEngine, bytes: seq<byte>): (r: Result<LinfaModel>)
    ensures r == Err(UnsupportedFormat(LoadBytesMessage))
  {
    Err(UnsupportedFormatError(LoadBytesMessage))
  }

  /// `supports_format`.
  function SupportsFormat(engine: LinfaEngine, format: ModelFormat): (b: bool)
    ensures b <==> format == ModelFormat.Linfa
  {
    format.Linfa?
  }

  function EngineTypeOf(engine: LinfaEngine): EngineType
  {
    EngineType.Linfa
  }

  // ---------------------------------------------------------------------
  // Matrices

  /// An `Array2<f64>` in row-major order.
  datatype Matrix = Matrix(rows: nat, cols: nat, values: seq<F64Bits>)
  {
    predicate WellFormed() { |values| == rows * cols }
  }

  const NotF64Message := "Tensor must contain f64 data for Linfa"

  /// The text of ndarray's `ShapeError` for an element count that does
  /// not fit the requested shape.
  const IncompatibleShapeText := "ShapeError/IncompatibleShape: incompatible shapes"

  /// `tensor_to_ndarray_f64` (the engine and the model each have a copy).
  function ToNdarray(t: Tensor): (r: Result<Matrix>)
    ensures r.Ok? <==> AsF64Slice(t).Some? && |t.shape| == 2
                       && |AsF64Slice(t).value| == t.shape[0] * t.shape[1]
    ensures r.Ok? ==> r.value.WellFormed() && r.value.rows == t.shape[0] && r.value.cols == t.shape[1]
                      && r.value.values == AsF64Slice(t).value
    ensures AsF64Slice(t).None? ==> r == Err(InvalidTensorData(NotF64Message))
    ensures r.Err? ==> r.error.InvalidTensorData?
  {
    match AsF64Slice(t)
    case None => Err(InvalidShapeMsg(NotF64Message))
    case Some(data) =>
      if |t.shape| != 2 then
        Err(InvalidShapeMsg("Expected 2D tensor for Linfa, got " + NatToString(|t.shape|) + "D"))
      else if |data| != t.shape[0] * t.shape[1] then
        Err(InvalidShapeMsg("Failed to create ndarray: " + IncompatibleShapeText))
      else
        Ok(Matrix(t.shape[0], t.shape[1], data))
  }

  /// On the tensors the constructors hand out, the conversion fails only
  /// for a wrong element type or rank, and reads the tensor's words.
  lemma ToNdarrayOfValid(t: Tensor)
    requires t.Valid()
    ensures ToNdarray(t).Ok? <==> t.dataType == F64 && |t.shape| == 2
    ensures ToNdarray(t).Ok? ==> ToNdarray(t).value.values == F64Words(t.data)
  {
    SliceViewsOfValidTensor(t);
    if t.dataType == F64 && |t.shape| == 2 {
      Converters.ProductOf2(t.shape[0], t.shape[1]);
      assert t.shape == [t.shape[0], t.shape[1]];
      Layout.FlatDivMod(Product(t.shape), 0, 8);
    }
  }

  // ---------------------------------------------------------------------
  // Training

  /// What a foreign `fit` returns: an opaque fitted state, or its error text.
  datatype Fit = Fitted(state: nat) | FitFailed(reason: string)

  /// The foreign numerics: fitting and predicting with fitted states.
  datatype Backend = Backend(
    fitKMeans: (Matrix, nat) -> Fit,
    fitLinear: (Matrix, seq<F64Bits>) -> Fit,
    assign: (nat, Matrix) -> seq<nat>,
    regress: (nat, Matrix) -> seq<F64Bits>)

  datatype ModelKind = KMeansModel(state: nat, k: nat) | RegressionModel(state: nat)

  /// `LinfaModel`: a fitted state and the specs it advertises.
  datatype LinfaModel = LinfaModel(kind: ModelKind, inputSpecs: seq<TensorSpec>, outputSpecs: seq<TensorSpec>)

  /// `new_with_kmeans`.
  function NewWithKMeans(state: nat, inputShape: seq<nat>, k: nat): (m: LinfaModel)
    requires |inputShape| > 0
  {
    LinfaModel(KMeansModel(state, k),
               [NewSpec("features", FixedShape(inputShape), F64)],
               [NewSpec("cluster_assignments", [Some(inputShape[0])], I32)])
  }

  /// `new_with_linear_regression`.
  function NewWithLinearRegression(state: nat, inputShape: seq<nat>): (m: LinfaModel)
    requires |inputShape| > 0
  {
    LinfaModel(RegressionModel(state),
               [NewSpec("features", FixedShape(inputShape), F64)],
               [NewSpec("predictions", [Some(inputShape[0])], F64)])
  }

  /// The specs of a model trained on a tensor of `shape`: one input
  /// "features" of exactly that shape, one output with one entry per
  /// sample, `i32` cluster indices for k-means and `f64` for regression.
  lemma TrainedSpecs(state: nat, shape: seq<nat>, k: nat)
    requires |shape| > 0
    ensures var m := NewWithKMeans(state, shape, k);
            |m.inputSpecs| == 1 && m.inputSpecs[0].name == "features"
            && m.inputSpecs[0].dataType == F64 && FixedDims(m.inputSpecs[0].shape) == Some(shape)
            && |m.outputSpecs| == 1 && m.outputSpecs[0].dataType == I32
            && m.outputSpecs[0].shape == [Some(shape[0])]
    ensures var m := NewWithLinearRegression(state, shape);
            |m.inputSpecs| == 1 && m.inputSpecs[0].name == "features"
            && m.inputSpecs[0].dataType == F64 && FixedDims(m.inputSpecs[0].shape) == Some(shape)
            && |m.outputSpecs| == 1 && m.outputSpecs[0].dataType == F64
            && m.outputSpecs[0].shape == [Some(shape[0])]
  {
    var dims := FixedShape(shape);
    FixedDimsIff(dims);
    var fixed := FixedDims(dims).value;
    assert fixed == shape;
  }

  const SvmNotImplemented := "SVM training not yet implemented - use K-means or LinearRegression"
  const TreeNotImplemented := "Decision tree training not yet implemented - use K-means or LinearRegression"

  /// `train`: dispatch on the algorithm; only k-means works without targets,
  /// and SVM and decision trees are not implemented.
  function Train(engine: LinfaEngine, features: Tensor, targets: Option<Tensor>, backend: Backend)
    : (r: Result<LinfaModel>)
  {
    match engine.algorithm
    case KMeans(k) =>
      var data :- ToNdarray(features);
      (match backend.fitKMeans(data, k)
       case FitFailed(reason) => Err(ModelLoadError("K-means training failed: " + reason))
       case Fitted(state) => Ok(NewWithKMeans(state, features.shape, k)))
    case LinearRegression =>
      if targets.None? then Err(ModelLoadError("Linear regression requires targets"))
      else
        var data :- ToNdarray(features);
        (match AsF64Slice(targets.value)
         case None => Err(InvalidShapeMsg("Targets must contain f64 data"))
         case Some(ys) =>
           match backend.fitLinear(data, ys)
           case FitFailed(reason) => Err(ModelLoadError("Linear regression training failed: " + reason))
           case Fitted(state) => Ok(NewWithLinearRegression(state, features.shape)))
    case Svm(_) =>
      if targets.None? then Err(ModelLoadError("SVM requires targets"))
      else Err(UnsupportedFormatError(SvmNotImplemented))
    case DecisionTree(_) =>
      if targets.None? then Err(ModelLoadError("Decision tree requires targets"))
      else Err(UnsupportedFormatError(TreeNotImplemented))
  }

  /// The outcomes of `train`: k-means ignores the targets; the other three
  /// fail with `ModelLoad` when targets are missing; SVM and decision
  /// trees fail with `UnsupportedFormat` even when they are given; and a
  /// trained model's input spec is the training shape.
  lemma TrainOutcomes(engine: LinfaEngine, features: Tensor, targets: Option<Tensor>, other: Option<Tensor>,
                      backend: Backend)
    ensures engine.algorithm.KMeans? ==> Train(engine, features, targets, backend) == Train(engine, features, other, backend)
    ensures !engine.algorithm.KMeans? && targets.None? ==>
              Train(engine, features, targets, backend).Err? && Train(engine, features, targets, backend).error.ModelLoad?
    ensures (engine.algorithm.Svm? || engine.algorithm.DecisionTree?) && targets.Some? ==>
              Train(engine, features, targets, backend).Err?
              && Train(engine, features, targets, backend).error.UnsupportedFormat?
    ensures Train(engine, features, targets, backend).Ok? ==>
              (engine.algorithm.KMeans? || engine.algorithm.LinearRegression?)
              && |features.shape| == 2 && features.dataType == F64
              && Train(engine, features, targets, backend).value.inputSpecs[0].shape == FixedShape(features.shape)
  {
  }

  /// Without targets (as the API's `train_linfa_model` calls it) only
  /// k-means can succeed, and it does when the features are a valid 2-D
  /// `f64` tensor and the fit succeeds.
  lemma TrainWithoutTargets(engine: LinfaEngine, features: Tensor, backend: Backend)
    requires features.Valid()
    ensures Train(engine, features, None, backend).Ok?
            <==> engine.algorithm.KMeans? && features.dataType == F64 && |features.shape| == 2
                 && ToNdarray(features).Ok?
                 && backend.fitKMeans(ToNdarray(features).value, engine.algorithm.k).Fitted?
  {
    ToNdarrayOfValid(features);
  }

  // ---------------------------------------------------------------------
  // Prediction

  /// `x as i32` on a `usize`: the low 32 bits read as two's complement.
  function WrapI32(x: nat): (y: I32)
    ensures ToTwos(y, 4) == x % 0x1_0000_0000
    ensures x < 0x8000_0000 ==> y == x
  {
    Pow256Widths();
    FromTwos(x % Pow256(4), 4)
  }

  function WrapAll(xs: seq<nat>): (ys: seq<I32>)
    ensures |ys| == |xs| && forall i :: 0 <= i < |xs| ==> ys[i] == WrapI32(xs[i])
  {
    seq(|xs|, i requires 0 <= i < |xs| => WrapI32(xs[i]))
  }

  /// `predict`: convert, let the fitted model answer, and wrap the answers
  /// in a one-dimensional tensor.
  function Predict(model: LinfaModel, input: Tensor, backend: Backend): (r: Result<Tensor>)
  {
    var data :- ToNdarray(input);
    match model.kind
    case KMeansModel(state, _) =>
      var clusters := backend.assign(state, data);
      FromI32(WrapAll(clusters), [|clusters|])
    case RegressionModel(state) =>
      var ys := backend.regress(state, data);
      FromF64(ys, [|ys|])
  }

  /// A prediction succeeds exactly when the input converts to a matrix,
  /// and its tensor decodes to the fitted model's answers: cluster indices
  /// cast to `i32`, or regression values unchanged.
  lemma PredictDecodes(model: LinfaModel, input: Tensor, backend: Backend)
    ensures Predict(model, input, backend).Ok? <==> ToNdarray(input).Ok?
    ensures Predict(model, input, backend).Err? ==> Predict(model, input, backend) == Err(ToNdarray(input).error)
    ensures Predict(model, input, backend).Ok? && model.kind.KMeansModel? ==>
              var clusters := backend.assign(model.kind.state, ToNdarray(input).value);
              var out := Predict(model, input, backend).value;
              out.dataType == I32 && out.shape == [|clusters|] && AsI32Slice(out) == Some(WrapAll(clusters))
    ensures Predict(model, input, backend).Ok? && model.kind.RegressionModel? ==>
              var ys := backend.regress(model.kind.state, ToNdarray(input).value);
              var out := Predict(model, input, backend).value;
              out.dataType == F64 && out.shape == [|ys|] && AsF64Slice(out) == Some(ys)
  {
    if ToNdarray(input).Ok? {
      var data := ToNdarray(input).value;
      match model.kind
      case KMeansModel(state, _) =>
        var clusters := backend.assign(state, data);
        Converters.ProductOf1(|clusters|);
        I32RoundTrip(WrapAll(clusters), [|clusters|]);
      case RegressionModel(state) =>
        var ys := backend.regress(state, data);
        Converters.ProductOf1(|ys|);
        Pow256Widths();
        DecodeEncodeWords(ys, 8);
    }
  }

  /// The specification of `predict_batch`: `predict` over the inputs, in
  /// order, stopping at the first error.
  function PredictAll(model: LinfaModel, inputs: seq<Tensor>, backend: Backend): Result<seq<Tensor>>
  {
    CollectResults(inputs, (x: Tensor) => Predict(model, x, backend))
  }

  /// `predict_batch`: the loop pushing each prediction.
  method PredictBatch(model: LinfaModel, inputs: seq<Tensor>, backend: Backend) returns (r: Result<seq<Tensor>>)
    ensures r == PredictAll(model, inputs, backend)
    ensures r.Ok? ==> |r.value| == |inputs|
                      && forall i :: 0 <= i < |inputs| ==> Predict(model, inputs[i], backend) == Ok(r.value[i])
  {
    var f := (x: Tensor) => Predict(model, x, backend);
    var results: seq<Tensor> := [];
    for i := 0 to |inputs|
      invariant |results| == i
      invariant forall j :: 0 <= j < i ==> f(inputs[j]) == Ok(results[j])
    {
      var out := f(inputs[i]);
      if out.Err? {
        CollectResultsFirstError(inputs, f, i);
        return Err(out.error);
      }
      results := results + [out.value];
    }
    CollectResultsOk(inputs, f);
    assert CollectResults(inputs, f).value == results;
    return Ok(results);
  }
}
