/// The stateful part of the Flutter-facing API: the session table and
/// its handle counter, the download-progress table, and the model cache
/// on the file system. The Rust globals become the fields of one
/// `Runtime` object; its `async` functions run one at a time here.
module Inference {
  import opened Base
  import opened Errors
  import opened Tensors
  import opened Engines
  import opened Api
  import Factory
  import ModelDetector
  import Linfa
  import Candle
  import Wrappers
  import Backends
  import Sessions
  import Download
  import Cache
  import Converters

  const InvalidHandleMessage := "Invalid session handle"

  // ---------------------------------------------------------------------
  // Loading

  /// The engine `EngineConfig::new().with_preferred_engine(t)` creates:
  /// `t` when it is compiled in, otherwise the format's best engine.
  function ChooseEngine(format: ModelFormat, t: EngineType, features: Factory.Features): (r: Result<EngineType>)
    requires HandledFormat(format) && Handled(t)
    ensures r.Ok? <==> Factory.IsEngineAvailable(t, features) || features.candle || features.linfa
    ensures r.Ok? ==> Handled(r.value) && Factory.IsEngineAvailable(r.value, features)
    ensures Factory.IsEngineAvailable(t, features) ==> r == Ok(t)
  {
    Factory.BestEngineIsAvailable(format, features);
    if Factory.IsEngineAvailable(t, features) then Ok(t) else Factory.CreateBestEngineForFormat(format, features)
  }

  /// The engine type a request names, or the given detected one.
  function RequestedEngine(config: SessionConfig, detected: Result<EngineType>): (r: Result<EngineType>)
    requires detected.Ok? ==> Handled(detected.value)
    ensures r.Ok? ==> Handled(r.value)
    ensures config.engineType.Some? ==> r == ParseEngineType(config.engineType.value)
    ensures config.engineType.None? ==> r == detected
  {
    if config.engineType.Some? then ParseEngineType(config.engineType.value) else detected
  }

  /// `load_model_with_config` up to storing the session: the requested
  /// or detected engine type, the format from the path, the engine the
  /// configuration creates, and that engine's load. The session is
  /// labelled with the requested type, whichever engine loaded it.
  function PrepareFromPath(path: string, content: ModelDetector.ReadOutcome, config: SessionConfig,
                           features: Factory.Features, env: Backends.Env): (r: Result<Sessions.Session>)
    ensures config.engineType.Some? && ParseEngineType(config.engineType.value).Err? ==>
              r == Err(ParseEngineType(config.engineType.value).error)
    ensures r.Ok? ==> r.value.engineType == RequestedEngine(config, Ok(Candle)).value
                      && r.value.metadata == None
                      && Backends.ModelEngineType(r.value.model) == Candle
  {
    var t :- RequestedEngine(config, Ok(ModelDetector.DetectEngineFromPath(path, content)));
    var format :- ModelDetector.DetectFormatFromPath(path, content);
    var chosen :- ChooseEngine(format, t, features);
    var model :- Backends.LoadModel(Backends.EngineFor(chosen, env.gpuDetected), path, content, env);
    Ok(Sessions.NewSession(model, t))
  }

  /// The format an explicitly named engine implies for a byte buffer.
  function FormatForEngine(t: EngineType): (f: ModelFormat)
    requires Handled(t)
    ensures HandledFormat(f) && Factory.PreferredEngineForFormat(f) == t
  {
    match t
    case Candle => SafeTensors
    case Linfa => ModelFormat.Linfa
  }

  /// The engine type and format `load_model_from_bytes` settles on: a
  /// named engine fixes the format without looking at the bytes;
  /// otherwise both come from content detection. Format detection
  /// accepts exactly the bytes engine detection accepts, so its own
  /// error arm is never taken.
  function BytesEngineAndFormat(bytes: seq<byte>, config: SessionConfig): (r: Result<(EngineType, ModelFormat)>)
    ensures r.Ok? ==> Handled(r.value.0) && HandledFormat(r.value.1)
    ensures config.engineType.Some? ==>
              match ParseEngineType(config.engineType.value)
              case Err(e) => r == Err(e)
              case Ok(t) => r == Ok((t, FormatForEngine(t)))
    ensures config.engineType.None? ==>
              (r.Ok? <==> ModelDetector.IsSafeTensorsFormat(bytes) || ModelDetector.IsPyTorchFormat(bytes))
              && (r.Ok? ==> r.value == (Candle, ModelDetector.DetectFormatFromBytes(bytes).value))
              && (r.Err? ==> r.error == FormatDetection(ModelDetector.NoFormatMessage))
  {
    if config.engineType.Some? then
      var t :- ParseEngineType(config.engineType.value);
      Ok((t, FormatForEngine(t)))
    else
      var t :- ModelDetector.DetectEngineFromBytes(bytes);
      match ModelDetector.DetectFormatFromBytes(bytes)
      case Ok(f) => Ok((t, f))
      case Err(e) => Err(e)
  }

  /// `load_model_from_bytes` up to storing the session: the engine and
  /// format, the engine the configuration creates, and that engine's
  /// load from the buffer.
  function PrepareFromBytes(bytes: seq<byte>, config: SessionConfig, features: Factory.Features,
                            env: Backends.Env): (r: Result<Sessions.Session>)
    ensures config.engineType.Some? && ParseEngineType(config.engineType.value).Err? ==>
              r == Err(ParseEngineType(config.engineType.value).error)
    ensures config.engineType.None? && !(ModelDetector.IsSafeTensorsFormat(bytes) || ModelDetector.IsPyTorchFormat(bytes))
            ==> r == Err(FormatDetection(ModelDetector.NoFormatMessage))
    ensures r.Ok? ==> r.value.engineType == RequestedEngine(config, Ok(Candle)).value
                      && r.value.metadata == None
                      && Backends.ModelEngineType(r.value.model) == Candle
  {
    var (t, format) :- BytesEngineAndFormat(bytes, config);
    var chosen :- ChooseEngine(format, t, features);
    var model :- Backends.LoadFromBytes(Backends.EngineFor(chosen, env.gpuDetected), bytes, env);
    Ok(Sessions.NewSession(model, t))
  }

  /// A named engine that is compiled in loads the bytes itself, with no
  /// content detection, whatever `ModelDetector` would say about them.
  lemma NamedEngineLoadsBytesDirectly(bytes: seq<byte>, name: string, gpu: bool, features: Factory.Features,
                                      env: Backends.Env)
    requires ParseEngineType(name).Ok? && Factory.IsEngineAvailable(ParseEngineType(name).value, features)
    ensures var t := ParseEngineType(name).value;
            var loaded := Backends.LoadFromBytes(Backends.EngineFor(t, env.gpuDetected), bytes, env);
            var r := PrepareFromBytes(bytes, SessionConfig(Some(name), gpu), features, env);
            (loaded.Err? ==> r == Err(loaded.error))
            && (loaded.Ok? ==> r == Ok(Sessions.NewSession(loaded.value, t)))
  {
  }

  /// With only Candle compiled in, a request for Linfa falls back to
  /// Candle, and a session Candle loads is still labelled Linfa.
  lemma LabelFollowsRequest(path: string, content: ModelDetector.ReadOutcome, bytes: seq<byte>, gpu: bool,
                            env: Backends.Env)
    requires ModelDetector.DetectFormatFromPath(path, content).Ok?
    ensures var candle := Backends.EngineFor(Candle, env.gpuDetected);
            var loaded := Backends.LoadModel(candle, path, content, env);
            var r := PrepareFromPath(path, content, SessionConfig(Some("linfa"), gpu), Factory.Features(true, false), env);
            (r.Ok? <==> loaded.Ok?)
            && (r.Ok? ==> r.value.engineType == EngineType.Linfa && r.value.model == loaded.value)
    ensures var candle := Backends.EngineFor(Candle, env.gpuDetected);
            var loaded := Backends.LoadFromBytes(candle, bytes, env);
            var r := PrepareFromBytes(bytes, SessionConfig(Some("linfa"), gpu), Factory.Features(true, false), env);
            (r.Ok? <==> loaded.Ok?)
            && (r.Ok? ==> r.value.engineType == EngineType.Linfa && r.value.model == loaded.value)
  {
    LowerAlready("linfa");
    assert ParseEngineType("linfa") == Ok(EngineType.Linfa);
  }

  // ---------------------------------------------------------------------
  // Training

  /// The rows of a feature matrix laid end to end.
  function Flatten(rows: seq<seq<F64Bits>>): seq<F64Bits>
  {
    if |rows| == 0 then [] else Flatten(rows[..|rows| - 1]) + rows[|rows| - 1]
  }

  /// Rows of equal width `cols` flatten to `rows × cols` values.
  lemma {:induction false} FlattenLength(rows: seq<seq<F64Bits>>, cols: nat)
    requires forall i :: 0 <= i < |rows| ==> |rows[i]| == cols
    ensures |Flatten(rows)| == |rows| * cols
  {
    if |rows| > 0 {
      FlattenLength(rows[..|rows| - 1], cols);
      assert (|rows| - 1) * cols + cols == |rows| * cols;
    }
  }

  lemma MulMonotone(a: nat, b: nat, c: nat)
    requires a <= b
    ensures a * c <= b * c
  {
  }

  /// Element `j` of row `i` sits at `i × cols + j` of the flattening.
  lemma {:induction false} FlattenIndex(rows: seq<seq<F64Bits>>, cols: nat, i: nat, j: nat)
    requires forall k :: 0 <= k < |rows| ==> |rows[k]| == cols
    requires i < |rows| && j < cols
    ensures i * cols + j < |Flatten(rows)| && Flatten(rows)[i * cols + j] == rows[i][j]
  {
    var init := rows[..|rows| - 1];
    FlattenLength(init, cols);
    FlattenLength(rows, cols);
    if i < |rows| - 1 {
      FlattenIndex(init, cols, i, j);
      MulMonotone(i + 1, |rows| - 1, cols);
      assert (i + 1) * cols == i * cols + cols;
      assert i * cols + j < |Flatten(init)|;
    } else {
      assert i * cols == |Flatten(init)|;
    }
  }

  /// The column count `train_linfa_model` reads from the first row.
  function Columns(rows: seq<seq<F64Bits>>): nat
  {
    if |rows| == 0 then 0 else |rows[0]|
  }

  /// The feature tensor: `[rows, cols]` over the flattened values.
  function FeatureTensor(rows: seq<seq<F64Bits>>): (r: Result<Tensor>)
    ensures r.Ok? <==> |Flatten(rows)| == |rows| * Columns(rows)
    ensures r.Ok? ==> r.value.shape == [|rows|, Columns(rows)] && r.value.dataType == F64
  {
    Converters.ProductOf2(|rows|, Columns(rows));
    FromF64(Flatten(rows), [|rows|, Columns(rows)])
  }

  /// Rows of equal width always make a tensor, and its values are the
  /// rows' in order.
  lemma UniformRowsMakeTensor(rows: seq<seq<F64Bits>>, widen: F32Bits -> F64Bits)
    requires forall i :: 0 <= i < |rows| ==> |rows[i]| == Columns(rows)
    ensures FeatureTensor(rows).Ok?
    ensures ToF64Values(FeatureTensor(rows).value, widen) == Ok(Flatten(rows))
  {
    var xs, shape := Flatten(rows), [|rows|, Columns(rows)];
    FlattenLength(rows, Columns(rows));
    assert FeatureTensor(rows) == FromF64(xs, shape);
    F64RoundTrip(xs, shape, widen);
  }

  /// Only the total count is checked: ragged rows whose lengths add up
  /// to rows × first-row width are accepted and silently re-cut.
  lemma RaggedRowsAccepted()
    ensures var rows: seq<seq<F64Bits>> := [[1, 2], [3], [4, 5, 6]];
            FeatureTensor(rows).Ok? && FeatureTensor(rows).value.shape == [3, 2]
  {
    var rows: seq<seq<F64Bits>> := [[1, 2], [3], [4, 5, 6]];
    assert Flatten(rows[..1]) == [1, 2];
    assert rows[..2][..1] == rows[..1];
    assert Flatten(rows[..2]) == [1, 2, 3];
    assert rows[..3] == rows;
  }

  predicate AllDigits(s: string)
  {
    forall i :: 0 <= i < |s| ==> '0' <= s[i] <= '9'
  }

  const UsizeBound := 0x1_0000_0000_0000_0000

  /// `str::parse::<usize>` on a 64-bit target: an optional `+`, then
  /// at least one decimal digit, and a value that fits.
  function ParseUsize(s: string): (r: Option<nat>)
    ensures r.Some? ==> r.value < UsizeBound
    ensures |s| == 0 || s == "+" ==> r == None
  {
    var digits := if |s| > 0 && s[0] == '+' then s[1..] else s;
    if |digits| > 0 && AllDigits(digits) && DecimalValue(digits) < UsizeBound then Some(DecimalValue(digits))
    else None
  }

  /// Every `usize` printed in decimal parses back.
  lemma ParseUsizeReadsDecimal(n: nat)
    requires n < UsizeBound
    ensures ParseUsize(NatToString(n)) == Some(n)
  {
    var s := NatToString(n);
    DecimalRoundTrip(n);
    assert s[0] != '+';
  }

  /// A leading `+` is accepted and changes nothing.
  lemma ParseUsizeAcceptsPlus(s: string)
    requires |s| > 0 && s[0] != '+'
    ensures ParseUsize("+" + s) == ParseUsize(s)
  {
    var plus := "+" + s;
    assert plus[0] == '+' && plus[1..] == s;
  }

  /// A minus sign is never accepted.
  lemma ParseUsizeRejectsMinus(rest: string)
    ensures ParseUsize("-" + rest) == None
  {
    var minus := "-" + rest;
    assert minus[0] == '-' && !AllDigits(minus);
  }

  /// `1.0_f64` as a bit pattern.
  const OneF64: F64Bits := 0x3FF0_0000_0000_0000

  /// A `usize` parameter, or the default when it is absent or unparsable.
  function UsizeParam(params: map<string, string>, key: string, default: nat): nat
  {
    if key in params && ParseUsize(params[key]).Some? then ParseUsize(params[key]).value else default
  }

  const UnsupportedAlgorithmPrefix := "Unsupported Linfa algorithm: "

  /// The engine `train_linfa_model` builds for an algorithm name; the
  /// `f64` parser is foreign.
  function AlgorithmEngine(algorithm: string, params: map<string, string>, parseF64: string -> Option<F64Bits>)
    : (r: Result<Linfa.LinfaEngine>)
    ensures r.Ok? <==> algorithm in {"kmeans", "linear_regression", "svm", "decision_tree"}
    ensures r.Err? ==> r.error == UnsupportedFormat(UnsupportedAlgorithmPrefix + algorithm)
    ensures r.Ok? ==> (r.value.algorithm.KMeans? <==> algorithm == "kmeans")
  {
    if algorithm == "kmeans" then Linfa.KMeansEngine(UsizeParam(params, "k", 2))
    else if algorithm == "linear_regression" then Linfa.LinearRegressionEngine()
    else if algorithm == "svm" then
      Linfa.SvmEngine(if "c" in params && parseF64(params["c"]).Some? then parseF64(params["c"]).value else OneF64)
    else if algorithm == "decision_tree" then
      Linfa.DecisionTreeEngine(if "max_depth" in params then ParseUsize(params["max_depth"]) else None)
    else Err(UnsupportedFormatError(UnsupportedAlgorithmPrefix + algorithm))
  }

  /// The parameter defaults: `k = 2`, `c = 1.0`, no depth limit; a
  /// decimal `k` is used as given.
  lemma AlgorithmDefaults(parseF64: string -> Option<F64Bits>, k: nat)
    requires k < UsizeBound
    ensures AlgorithmEngine("kmeans", map[], parseF64) == Ok(Linfa.LinfaEngine(Linfa.KMeans(2)))
    ensures AlgorithmEngine("kmeans", map["k" := NatToString(k)], parseF64) == Ok(Linfa.LinfaEngine(Linfa.KMeans(k)))
    ensures AlgorithmEngine("kmeans", map["k" := "-1"], parseF64) == Ok(Linfa.LinfaEngine(Linfa.KMeans(2)))
    ensures AlgorithmEngine("svm", map[], parseF64) == Ok(Linfa.LinfaEngine(Linfa.Svm(OneF64)))
    ensures AlgorithmEngine("decision_tree", map[], parseF64) == Ok(Linfa.LinfaEngine(Linfa.DecisionTree(None)))
  {
    ParseUsizeReadsDecimal(k);
    ParseUsizeRejectsMinus("1");
  }

  /// `train_linfa_model` up to storing the session: the feature tensor,
  /// then the engine, then training without targets.
  function TrainSpec(rows: seq<seq<F64Bits>>, algorithm: string, params: map<string, string>,
                     parseF64: string -> Option<F64Bits>, features: Factory.Features, backend: Linfa.Backend)
    : (r: Result<Sessions.Session>)
    ensures !features.linfa ==> r == Err(Configuration(Factory.LinfaMissing))
    ensures r.Ok? ==> r.value.engineType == EngineType.Linfa && r.value.model.LinfaModel?
  {
    if !features.linfa then Err(ConfigurationError(Factory.LinfaMissing))
    else
      var t :- FeatureTensor(rows);
      var engine :- AlgorithmEngine(algorithm, params, parseF64);
      var model :- Linfa.Train(engine, t, None, backend);
      Ok(Sessions.NewSession(Backends.LinfaModel(model), EngineType.Linfa))
  }

  /// Training without targets succeeds only for k-means; the other known
  /// algorithms fail with `ModelLoad`, an unknown name with
  /// `UnsupportedFormat`; a trained session's input is exactly the
  /// feature matrix.
  lemma OnlyKMeansTrains(rows: seq<seq<F64Bits>>, algorithm: string, params: map<string, string>,
                         parseF64: string -> Option<F64Bits>, features: Factory.Features, backend: Linfa.Backend)
    ensures var r := TrainSpec(rows, algorithm, params, parseF64, features, backend);
            (r.Ok? ==> algorithm == "kmeans" && features.linfa
                       && Backends.InputSpecs(r.value.model)[0].shape == FixedShape([|rows|, Columns(rows)]))
            && (features.linfa && FeatureTensor(rows).Ok? && algorithm in {"linear_regression", "svm", "decision_tree"}
                ==> r.Err? && r.error.ModelLoad?)
            && (features.linfa && FeatureTensor(rows).Ok? && algorithm !in {"kmeans", "linear_regression", "svm", "decision_tree"}
                ==> r == Err(UnsupportedFormat(UnsupportedAlgorithmPrefix + algorithm)))
  {
    if features.linfa && FeatureTensor(rows).Ok? && AlgorithmEngine(algorithm, params, parseF64).Ok? {
      Linfa.TrainOutcomes(AlgorithmEngine(algorithm, params, parseF64).value, FeatureTensor(rows).value, None, None, backend);
    }
  }

  // ---------------------------------------------------------------------
  // The session table

  /// `predict`: the session, the input tensor, the prediction and the
  /// conversion of its output, each failure returned as it is.
  function PredictOn(sessions: map<Handle, Sessions.Session>, h: Handle, input: InferenceInput, env: Backends.Env)
    : (r: Result<InferenceResult>)
    ensures h !in sessions ==> r == Err(ModelLoad(InvalidHandleMessage))
    ensures h in sessions ==>
              (r.Ok? <==> InputTensor(input).Ok?
                          && Sessions.Predict(sessions[h], InputTensor(input).value, env).Ok?
                          && Sessions.Predict(sessions[h], InputTensor(input).value, env).value.dataType == F32)
    ensures r.Ok? ==> r.value.dataType == "F32"
  {
    if h !in sessions then Err(ModelLoadError(InvalidHandleMessage))
    else
      var t :- InputTensor(input);
      var out :- Sessions.Predict(sessions[h], t, env);
      ToInferenceResult(out)
  }

  /// `predict_batch`: every input is converted first, then the session
  /// predicts them all, then every output is converted.
  function BatchOn(sessions: map<Handle, Sessions.Session>, h: Handle, inputs: seq<InferenceInput>, env: Backends.Env)
    : (r: Result<seq<InferenceResult>>)
    ensures h !in sessions ==> r == Err(ModelLoad(InvalidHandleMessage))
  {
    if h !in sessions then Err(ModelLoadError(InvalidHandleMessage))
    else
      var tensors :- CollectResults(inputs, InputTensor);
      var outs :- CollectResults(tensors, (x: Tensor) => Sessions.Predict(sessions[h], x, env));
      CollectResults(outs, ToInferenceResult)
  }

  /// A batch succeeds exactly when every single prediction does, and then
  /// holds those predictions in order.
  lemma BatchAgreesWithSingles(sessions: map<Handle, Sessions.Session>, h: Handle, inputs: seq<InferenceInput>,
                               env: Backends.Env)
    requires h in sessions
    ensures BatchOn(sessions, h, inputs, env).Ok? <==> forall i :: 0 <= i < |inputs| ==> PredictOn(sessions, h, inputs[i], env).Ok?
    ensures BatchOn(sessions, h, inputs, env).Ok? ==>
              |BatchOn(sessions, h, inputs, env).value| == |inputs|
              && forall i :: 0 <= i < |inputs| ==> BatchOn(sessions, h, inputs, env).value[i] == PredictOn(sessions, h, inputs[i], env).value
  {
    var s := sessions[h];
    var f := (x: Tensor) => Sessions.Predict(s, x, env);
    CollectResultsOk(inputs, InputTensor);
    var tensors := CollectResults(inputs, InputTensor);
    if tensors.Ok? {
      CollectResultsOk(tensors.value, f);
      var outs := CollectResults(tensors.value, f);
      if outs.Ok? {
        CollectResultsOk(outs.value, ToInferenceResult);
      }
    }
    if forall i :: 0 <= i < |inputs| ==> PredictOn(sessions, h, inputs[i], env).Ok? {
      assert tensors.Ok?;
      assert CollectResults(tensors.value, f).Ok?;
    }
  }

  /// `get_session_info`.
  function InfoOn(sessions: map<Handle, Sessions.Session>, h: Handle): (r: Result<SessionInfo>)
    ensures h !in sessions ==> r == Err(ModelLoad(InvalidHandleMessage))
    ensures h in sessions ==> r.Ok? && r.value.handle == h
                              && r.value.engineType == EngineName(sessions[h].engineType)
                              && r.value.inputSpecs == Sessions.InputSpecs(sessions[h])
  {
    if h in sessions then Ok(CreateSessionInfo(h, sessions[h])) else Err(ModelLoadError(InvalidHandleMessage))
  }

  /// Disposing a handle makes it invalid, leaves every other handle as it
  /// was, and disposing it again changes nothing.
  lemma DisposeEffects(sessions: map<Handle, Sessions.Session>, h: Handle, other: Handle, input: InferenceInput,
                       env: Backends.Env)
    requires other != h
    ensures InfoOn(sessions - {h}, h) == Err(ModelLoad(InvalidHandleMessage))
    ensures PredictOn(sessions - {h}, h, input, env) == Err(ModelLoad(InvalidHandleMessage))
    ensures InfoOn(sessions - {h}, other) == InfoOn(sessions, other)
    ensures PredictOn(sessions - {h}, other, input, env) == PredictOn(sessions, other, input, env)
    ensures (sessions - {h}) - {h} == sessions - {h}
  {
    if other in sessions {
      assert (sessions - {h})[other] == sessions[other];
    }
  }

  // ---------------------------------------------------------------------
  // Hugging Face

  /// The architecture `load_from_huggingface` guesses from the repository
  /// name: BERT unless only a ResNet spelling occurs.
  function ArchitectureFor(repo: string): (a: Wrappers.Architecture)
    ensures !a.OtherArch?
    ensures a == Wrappers.ResNetArch <==>
              !Contains(repo, "bert") && !Contains(repo, "BERT") && (Contains(repo, "resnet") || Contains(repo, "ResNet"))
  {
    if Contains(repo, "bert") || Contains(repo, "BERT") then Wrappers.BertArch
    else if Contains(repo, "resnet") || Contains(repo, "ResNet") then Wrappers.ResNetArch
    else Wrappers.BertArch
  }

  /// The wrapper kind an architecture loads.
  function KindFor(a: Wrappers.Architecture): Wrappers.Kind
  {
    if a.ResNetArch? then Wrappers.ResNet else Wrappers.Bert
  }

  /// The cache key of the Hugging Face path without Candle.
  function HfCacheKey(repo: string, revision: string, filename: string): (key: string)
    ensures !Cache.IsAbsolute(key) && '/' in key
  {
    var key := "hf_" + Wrappers.SlashesToUnderscores(repo) + "_" + revision + "/" + filename;
    assert key[0] == 'h';
    assert key[|key| - |filename| - 1] == '/';
    key
  }

  /// The handle the Candle branch of `load_from_huggingface` stores its
  /// session under: the number of sessions.
  function HfHandleAsWritten(sessions: map<Handle, Sessions.Session>): Handle
  {
    |sessions|
  }

  /// After loads 1, 2 and 3 and disposing 1, the table is {2, 3} and the
  /// Hugging Face handle is 2, which overwrites a live session; from an
  /// empty table it hands out 0, and after that and one ordinary load it
  /// hands out the very handle (2) the counter issues next.
  lemma HfHandleOverwrites(s: Sessions.Session, t: Sessions.Session)
    requires s != t
    ensures var m := map[2 := s, 3 := t];
            HfHandleAsWritten(m) == 2 && 2 in m && m[HfHandleAsWritten(m) := t] != m
    ensures HfHandleAsWritten(map[]) == 0
    ensures var m := map[0 := s, 1 := t];
            (forall h :: h in m ==> h < 2) && HfHandleAsWritten(m) == 2
  {
    var m := map[2 := s, 3 := t];
    assert m.Keys == {2, 3};
    assert |m| == |m.Keys| == 2;
    assert m[2 := t][2] != m[2];
    var m2 := map[0 := s, 1 := t];
    assert m2.Keys == {0, 1};
    assert |m2| == |m2.Keys| == 2;
  }

  // ---------------------------------------------------------------------
  // Downloads

  /// The progress-table key of a download: repository and revision only.
  function DownloadId(repo: string, revision: string): (id: string)
    ensures |id| == |repo| + 1 + |revision| && id[|repo|] == '_'
  {
    repo + "_" + revision
  }

  /// Downloads of two files from one revision share a progress entry, and
  /// an underscore in a repository name can make two different
  /// repositories share one.
  lemma DownloadIdsCollide()
    ensures DownloadId("org/a_b", "main") == DownloadId("org/a", "b_main")
  {
  }

  /// The final progress entry of a started download: `Completed` with
  /// every received byte and the announced length exactly when the
  /// download succeeds, otherwise `Failed` with zeroed counters.
  lemma StartedDownloadOutcome(url: string, conn: Download.Connection, chunks: seq<Download.Chunk>,
                               decile: (nat, nat) -> bool)
    ensures var o := Download.Track(url, conn, chunks, decile);
            var p := Download.Finalise(Some(o.records[|o.records| - 1]), o.result.Ok?);
            (p.phase == Download.Completed <==> o.result.Ok?)
            && (o.result.Err? ==> p == Download.DownloadProgress(None, 0, Download.Failed, Download.Text(Download.FailedText)))
            && (o.result.Ok? ==> p.downloadedBytes == |Download.Concat(chunks)| && p.totalBytes == conn.contentLength
                                 && o.result.value == Download.Concat(chunks))
  {
    var o := Download.Track(url, conn, chunks, decile);
    if o.result.Ok? {
      Download.TrackedCompletion(url, conn, chunks, decile);
    }
  }

  // ---------------------------------------------------------------------
  // Fetching model bytes

  /// What `load_model_from_url` fetches and the file system it leaves:
  /// with caching, a hit is used as is and a miss is downloaded and saved.
  function Fetch(fs: Cache.FileSystem, envVars: map<string, string>, url: string, cache: bool, cacheKey: Option<string>,
                 hash: string -> Cache.U64, conn: Download.Connection, chunks: seq<Download.Chunk>,
                 readOk: bool, mkdirOk: bool, writeOk: bool): (r: (Result<seq<byte>>, Cache.FileSystem))
    ensures !cache ==> r == (Download.DownloadModel(url, conn, chunks), fs)
    ensures r.0.Err? ==> r.1 == fs
  {
    if !cache then (Download.DownloadModel(url, conn, chunks), fs)
    else
      var key := cacheKey.GetOr(Cache.UrlToCacheKey(url, hash));
      match Cache.Lookup(fs, envVars, key, readOk)
      case Err(e) => (Err(e), fs)
      case Ok(Some(bytes)) => (Ok(bytes), fs)
      case Ok(None) =>
        match Download.DownloadModel(url, conn, chunks)
        case Err(e) => (Err(e), fs)
        case Ok(bytes) => (Ok(bytes), Cache.Save(fs, envVars, key, bytes, mkdirOk, writeOk).value)
  }

  /// A cache hit returns the cached bytes without downloading, whatever
  /// the network would have done, and leaves the cache as it was.
  lemma CacheHitSkipsDownload(fs: Cache.FileSystem, envVars: map<string, string>, url: string, key: string,
                              hash: string -> Cache.U64, c1: Download.Connection, k1: seq<Download.Chunk>,
                              c2: Download.Connection, k2: seq<Download.Chunk>, mkdirOk: bool, writeOk: bool)
    requires Cache.Lookup(fs, envVars, key, true).Ok? && Cache.Lookup(fs, envVars, key, true).value.Some?
    ensures Fetch(fs, envVars, url, true, Some(key), hash, c1, k1, true, mkdirOk, writeOk)
            == Fetch(fs, envVars, url, true, Some(key), hash, c2, k2, true, mkdirOk, writeOk)
            == (Ok(Cache.Lookup(fs, envVars, key, true).value.value), fs)
  {
  }

  /// A URL whose download was saved is found in the cache the next time:
  /// the second fetch needs no network and gives the same bytes.
  lemma SecondFetchHits(fs: Cache.FileSystem, envVars: map<string, string>, url: string, hash: string -> Cache.U64,
                        c1: Download.Connection, k1: seq<Download.Chunk>,
                        c2: Download.Connection, k2: seq<Download.Chunk>)
    requires Cache.GetCacheDir(envVars).Ok?
    requires Cache.CacheFile(Cache.GetCacheDir(envVars).value, Cache.UrlToCacheKey(url, hash)) !in fs.dirs
    requires Fetch(fs, envVars, url, true, None, hash, c1, k1, true, true, true).0.Ok?
    ensures var first := Fetch(fs, envVars, url, true, None, hash, c1, k1, true, true, true);
            Fetch(first.1, envVars, url, true, None, hash, c2, k2, true, true, true) == (first.0, first.1)
  {
    var key := Cache.UrlToCacheKey(url, hash);
    var first := Fetch(fs, envVars, url, true, None, hash, c1, k1, true, true, true);
    if Cache.Lookup(fs, envVars, key, true).value.None? {
      Cache.SaveThenLookup(fs, envVars, key, key, first.0.value, true, true, true);
    }
  }

  /// One more chunk through the receive loop that has not yet stopped.
  lemma StreamNext(total: Option<nat>, chunks: seq<Download.Chunk>, publish: nat -> bool, i: nat)
    requires i < |chunks|
    requires Download.Stream(total, chunks[..i], publish, false).failure.None?
    ensures var s := Download.Stream(total, chunks[..i], publish, false);
            Download.Stream(total, chunks[..i + 1], publish, false)
            == match chunks[i]
               case ChunkFailed(e) => Download.StreamState(s.records, s.buffer, Some(e))
               case Bytes(d) =>
                 var b := s.buffer + d;
                 Download.StreamState(s.records + (if publish(|b|) then [Download.ProgressRecord(total, |b|)] else []), b, None)
  {
    assert chunks[..i + 1][..i] == chunks[..i];
  }

  /// The loop of `get_cache_size`: the sizes of the entries, read in
  /// order until the listing fails; an entry without metadata adds 0.
  method SumEntries(entries: seq<Cache.DirEntry>) returns (total: nat)
    ensures total == Cache.EntriesSize(entries)
  {
    total := 0;
    var i := 0;
    while i < |entries| && entries[i].Entry?
      invariant 0 <= i <= |entries|
      invariant total + Cache.EntriesSize(entries[i..]) == Cache.EntriesSize(entries)
    {
      assert entries[i..][1..] == entries[i + 1..];
      if entries[i].size.Some? {
        total := total + entries[i].size.value;
      }
      i := i + 1;
    }
  }

  /// A load either stores its session under the counter's handle and
  /// advances the counter, or fails and changes neither.
  predicate Stores(p: Result<Sessions.Session>, r: Result<SessionInfo>,
                   before: map<Handle, Sessions.Session>, counterBefore: nat,
                   after: map<Handle, Sessions.Session>, counterAfter: nat)
  {
    match p
    case Ok(s) =>
      r == Ok(CreateSessionInfo(counterBefore, s)) && after == before[counterBefore := s]
      && counterAfter == counterBefore + 1
    case Err(e) => r == Err(e) && after == before && counterAfter == counterBefore
  }

  // ---------------------------------------------------------------------
  // The runtime

  /// The API's global state: the session table and counter, the progress
  /// table, and the file system the cache lives on. Which engines are
  /// compiled in, the foreign engine pieces and the environment
  /// variables are fixed for the life of the process.
  class Runtime {
    const features: Factory.Features
    const env: Backends.Env
    const envVars: map<string, string>
    var sessions: map<Handle, Sessions.Session>
    var counter: nat
    var progress: map<string, Download.DownloadProgress>
    var fs: Cache.FileSystem

    /// The counter is past every handle in the table.
    ghost predicate Valid()
      reads this
    {
      counter >= 1 && forall h :: h in sessions ==> h < counter
    }

    /// The process start: no sessions, the counter at 1, no downloads.
    constructor (features: Factory.Features, env: Backends.Env, envVars: map<string, string>, fs: Cache.FileSystem)
      ensures Valid()
      ensures this.features == features && this.env == env && this.envVars == envVars && this.fs == fs
      ensures sessions == map[] && counter == 1 && progress == map[]
    {
      this.features := features;
      this.env := env;
      this.envVars := envVars;
      this.fs := fs;
      sessions := map[];
      counter := 1;
      progress := map[];
    }

    /// `SESSION_COUNTER.fetch_add(1)` and the insert: the handle is fresh,
    /// so no live session is replaced.
    method Register(s: Sessions.Session) returns (info: SessionInfo)
      requires Valid()
      modifies this
      ensures Valid()
      ensures old(counter) !in old(sessions)
      ensures info == CreateSessionInfo(old(counter), s)
      ensures sessions == old(sessions)[old(counter) := s] && counter == old(counter) + 1
      ensures progress == old(progress) && fs == old(fs)
    {
      var handle := counter;
      counter := counter + 1;
      info := CreateSessionInfo(handle, s);
      sessions := sessions[handle := s];
    }

    /// The Candle branch of `load_from_huggingface` as written: the
    /// session goes under `sessions.len()`, replacing any session already
    /// there, and the counter is not advanced.
    method StoreAtLength(s: Sessions.Session) returns (info: SessionInfo)
      modifies this
      ensures info == CreateSessionInfo(HfHandleAsWritten(old(sessions)), s)
      ensures sessions == old(sessions)[HfHandleAsWritten(old(sessions)) := s]
      ensures counter == old(counter) && progress == old(progress) && fs == old(fs)
    {
      var handle := HfHandleAsWritten(sessions);
      sessions := sessions[handle := s];
      info := CreateSessionInfo(handle, s);
    }

    /// `load_model_with_config`.
    method LoadModelWithConfig(path: string, content: ModelDetector.ReadOutcome, config: SessionConfig)
      returns (r: Result<SessionInfo>)
      requires Valid()
      modifies this
      ensures Valid()
      ensures Stores(PrepareFromPath(path, content, config, features, env), r, old(sessions), old(counter), sessions, counter)
      ensures progress == old(progress) && fs == old(fs)
    {
      var t: EngineType;
      if config.engineType.Some? {
        var parsed := ParseEngineType(config.engineType.value);
        if parsed.Err? {
          return Err(parsed.error);
        }
        t := parsed.value;
      } else {
        t := ModelDetector.DetectEngineFromPath(path, content);
      }
      var engineConfig := new Factory.EngineConfig();
      engineConfig.WithPreferredEngine(t);
      engineConfig.WithGpuAcceleration(config.gpuAcceleration);
      var format := ModelDetector.DetectFormatFromPath(path, content);
      if format.Err? {
        return Err(format.error);
      }
      var chosen := engineConfig.CreateEngine(format.value, features);
      assert chosen == ChooseEngine(format.value, t, features);
      if chosen.Err? {
        return Err(chosen.error);
      }
      var model := Backends.LoadModel(Backends.EngineFor(chosen.value, env.gpuDetected), path, content, env);
      if model.Err? {
        return Err(model.error);
      }
      var info := Register(Sessions.NewSession(model.value, t));
      r := Ok(info);
    }

    /// `load_model` and `load_model_from_file`: the default configuration.
    method LoadModel(path: string, content: ModelDetector.ReadOutcome) returns (r: Result<SessionInfo>)
      requires Valid()
      modifies this
      ensures Valid()
      ensures Stores(PrepareFromPath(path, content, DefaultConfig, features, env), r, old(sessions), old(counter), sessions, counter)
      ensures r.Ok? ==> r.value.engineType == "candle"
      ensures progress == old(progress) && fs == old(fs)
    {
      EngineNames();
      r := LoadModelWithConfig(path, content, DefaultConfig);
    }

    /// `load_model_with_candle`: the engine named "candle".
    method LoadModelWithCandle(path: string, content: ModelDetector.ReadOutcome) returns (r: Result<SessionInfo>)
      requires Valid()
      modifies this
      ensures Valid()
      ensures Stores(PrepareFromPath(path, content, SessionConfig(Some("candle"), true), features, env), r, old(sessions), old(counter), sessions, counter)
      ensures r.Ok? ==> r.value.engineType == "candle"
      ensures progress == old(progress) && fs == old(fs)
    {
      EngineNames();
      LowerAlready("candle");
      r := LoadModelWithConfig(path, content, SessionConfig(Some("candle"), true));
    }

    /// `load_model_from_bytes`.
    method LoadModelFromBytes(bytes: seq<byte>, config: SessionConfig) returns (r: Result<SessionInfo>)
      requires Valid()
      modifies this
      ensures Valid()
      ensures Stores(PrepareFromBytes(bytes, config, features, env), r, old(sessions), old(counter), sessions, counter)
      ensures progress == old(progress) && fs == old(fs)
    {
      var settled := BytesEngineAndFormat(bytes, config);
      if settled.Err? {
        return Err(settled.error);
      }
      var (t, format) := settled.value;
      var engineConfig := new Factory.EngineConfig();
      engineConfig.WithPreferredEngine(t);
      engineConfig.WithGpuAcceleration(config.gpuAcceleration);
      var chosen := engineConfig.CreateEngine(format, features);
      assert chosen == ChooseEngine(format, t, features);
      if chosen.Err? {
        return Err(chosen.error);
      }
      var model := Backends.LoadFromBytes(Backends.EngineFor(chosen.value, env.gpuDetected), bytes, env);
      if model.Err? {
        return Err(model.error);
      }
      var info := Register(Sessions.NewSession(model.value, t));
      r := Ok(info);
    }

    /// `train_linfa_model`.
    method TrainLinfaModel(rows: seq<seq<F64Bits>>, algorithm: string, params: map<string, string>,
                           parseF64: string -> Option<F64Bits>) returns (r: Result<SessionInfo>)
      requires Valid()
      modifies this
      ensures Valid()
      ensures Stores(TrainSpec(rows, algorithm, params, parseF64, features, env.linfa), r, old(sessions), old(counter), sessions, counter)
      ensures progress == old(progress) && fs == old(fs)
    {
      var p := TrainSpec(rows, algorithm, params, parseF64, features, env.linfa);
      if p.Err? {
        return Err(p.error);
      }
      var info := Register(p.value);
      r := Ok(info);
    }

    /// `predict_batch`: the session's own batch prediction over the
    /// converted inputs.
    method PredictBatch(h: Handle, inputs: seq<InferenceInput>) returns (r: Result<seq<InferenceResult>>)
      requires h in sessions ==> forall i :: 0 <= i < |inputs| && InputTensor(inputs[i]).Ok?
                                             ==> Backends.CanPredict(sessions[h].model, InputTensor(inputs[i]).value)
      ensures r == BatchOn(sessions, h, inputs, env)
    {
      if h !in sessions {
        return Err(ModelLoadError(InvalidHandleMessage));
      }
      var s := sessions[h];
      var tensors := CollectResults(inputs, InputTensor);
      if tensors.Err? {
        return Err(tensors.error);
      }
      CollectResultsOk(inputs, InputTensor);
      var outs := Sessions.PredictBatch(s, tensors.value, env);
      if outs.Err? {
        return Err(outs.error);
      }
      r := CollectResults(outs.value, ToInferenceResult);
    }

    /// `dispose_session`: removes the handle, known or not, and succeeds.
    method DisposeSession(h: Handle) returns (r: Result<()>)
      requires Valid()
      modifies this
      ensures Valid()
      ensures r == Ok(())
      ensures sessions == old(sessions) - {h}
      ensures counter == old(counter) && progress == old(progress) && fs == old(fs)
    {
      sessions := sessions - {h};
      r := Ok(());
    }

    /// `save_to_cache`.
    method SaveToCache(key: string, data: seq<byte>, mkdirOk: bool, writeOk: bool) returns (r: Result<()>)
      modifies this
      ensures var saved := Cache.Save(old(fs), envVars, key, data, mkdirOk, writeOk);
              (saved.Ok? ==> r == Ok(()) && fs == saved.value) && (saved.Err? ==> r == Err(saved.error) && fs == old(fs))
      ensures sessions == old(sessions) && counter == old(counter) && progress == old(progress)
    {
      var saved := Cache.Save(fs, envVars, key, data, mkdirOk, writeOk);
      if saved.Err? {
        return Err(saved.error);
      }
      fs := saved.value;
      r := Ok(());
    }

    /// `clear_cache`.
    method ClearCache(removeError: Option<string>) returns (r: Result<()>)
      modifies this
      ensures var cleared := Cache.Clear(old(fs), envVars, removeError);
              (cleared.Ok? ==> r == Ok(()) && fs == cleared.value) && (cleared.Err? ==> r == Err(cleared.error) && fs == old(fs))
      ensures sessions == old(sessions) && counter == old(counter) && progress == old(progress)
    {
      var cleared := Cache.Clear(fs, envVars, removeError);
      if cleared.Err? {
        return Err(cleared.error);
      }
      fs := cleared.value;
      r := Ok(());
    }

    /// `get_cache_size`: the sizes of the directory's entries, read one by
    /// one until the listing fails.
    method GetCacheSize(listing: Cache.Listing) returns (r: Result<nat>)
      ensures Cache.GetCacheDir(envVars).Err? ==> r == Err(Cache.GetCacheDir(envVars).error)
      ensures Cache.GetCacheDir(envVars).Ok? && !Cache.Exists(fs, Cache.GetCacheDir(envVars).value) ==> r == Ok(0)
      ensures Cache.GetCacheDir(envVars).Ok? && Cache.Exists(fs, Cache.GetCacheDir(envVars).value) ==>
                match listing
                case ReadDirFailed(e) => r == Err(ModelLoad(Cache.ReadDirFailedPrefix + e))
                case Listed(entries) => r == Ok(Cache.EntriesSize(entries))
    {
      var dir := Cache.GetCacheDir(envVars);
      if dir.Err? {
        return Err(dir.error);
      }
      if !Cache.Exists(fs, dir.value) {
        return Ok(0);
      }
      match listing {
        case ReadDirFailed(e) =>
          return Err(ModelLoadError(Cache.ReadDirFailedPrefix + e));
        case Listed(entries) =>
          var total := SumEntries(entries);
          return Ok(total);
      }
    }

    /// `load_model_from_url`: the fetched bytes loaded with the default
    /// configuration.
    method LoadModelFromUrl(url: string, cache: bool, cacheKey: Option<string>, hash: string -> Cache.U64,
                            conn: Download.Connection, chunks: seq<Download.Chunk>,
                            readOk: bool, mkdirOk: bool, writeOk: bool) returns (r: Result<SessionInfo>)
      requires Valid()
      modifies this
      ensures Valid()
      ensures var fetched := Fetch(old(fs), envVars, url, cache, cacheKey, hash, conn, chunks, readOk, mkdirOk, writeOk);
              fs == fetched.1
              && (fetched.0.Err? ==> r == Err(fetched.0.error) && sessions == old(sessions) && counter == old(counter))
              && (fetched.0.Ok? ==> Stores(PrepareFromBytes(fetched.0.value, DefaultConfig, features, env), r, old(sessions), old(counter), sessions, counter))
      ensures progress == old(progress)
    {
      var bytes: seq<byte>;
      if cache {
        var key := cacheKey.GetOr(Cache.UrlToCacheKey(url, hash));
        var cached := Cache.Lookup(fs, envVars, key, readOk);
        if cached.Err? {
          return Err(cached.error);
        }
        if cached.value.Some? {
          bytes := cached.value.value;
        } else {
          var downloaded := Download.DownloadModel(url, conn, chunks);
          if downloaded.Err? {
            return Err(downloaded.error);
          }
          bytes := downloaded.value;
          // The cache directory was found, so saving cannot fail.
          var _ := SaveToCache(key, bytes, mkdirOk, writeOk);
        }
      } else {
        var downloaded := Download.DownloadModel(url, conn, chunks);
        if downloaded.Err? {
          return Err(downloaded.error);
        }
        bytes := downloaded.value;
      }
      r := LoadModelFromBytes(bytes, DefaultConfig);
    }

    /// `load_from_huggingface`. With Candle, the wrapper is loaded through
    /// the hub (`hub` is its outcome) and stored under a fresh handle; if
    /// the hub fails, the file is downloaded from its URL and loaded as
    /// bytes. Without Candle, the URL is loaded through the cache.
    method LoadFromHuggingface(repo: string, revision: Option<string>, filename: Option<string>,
                               hub: Wrappers.HubOutcome, hash: string -> Cache.U64,
                               conn: Download.Connection, chunks: seq<Download.Chunk>,
                               readOk: bool, mkdirOk: bool, writeOk: bool) returns (r: Result<SessionInfo>)
      requires Valid()
      modifies this
      ensures Valid()
      ensures var url := Download.HfUrl(repo, revision.GetOr("main"), filename.GetOr(Wrappers.DefaultFilename));
              var downloaded := Download.DownloadModel(url, conn, chunks);
              features.candle && !hub.Downloaded? ==>
                fs == old(fs)
                && (downloaded.Err? ==> r == Err(downloaded.error) && sessions == old(sessions) && counter == old(counter))
                && (downloaded.Ok? ==> Stores(PrepareFromBytes(downloaded.value, DefaultConfig, features, env), r, old(sessions), old(counter), sessions, counter))
      ensures features.candle && hub.Downloaded? ==>
                fs == old(fs) && counter == old(counter) + 1 && old(counter) in sessions
                && sessions == old(sessions)[old(counter) := sessions[old(counter)]]
                && r == Ok(CreateSessionInfo(old(counter), sessions[old(counter)]))
                && sessions[old(counter)].engineType == Candle
                && sessions[old(counter)].model.WrapperModel?
                && sessions[old(counter)].model.wrapper.kind == KindFor(ArchitectureFor(repo))
      ensures var rev := revision.GetOr("main");
              var file := filename.GetOr(Wrappers.DefaultFilename);
              var fetched := Fetch(old(fs), envVars, Download.HfUrl(repo, rev, file), true, Some(HfCacheKey(repo, rev, file)),
                                   hash, conn, chunks, readOk, mkdirOk, writeOk);
              !features.candle ==>
                fs == fetched.1
                && (fetched.0.Err? ==> r == Err(fetched.0.error) && sessions == old(sessions) && counter == old(counter))
                && (fetched.0.Ok? ==> Stores(PrepareFromBytes(fetched.0.value, DefaultConfig, features, env), r, old(sessions), old(counter), sessions, counter))
      ensures progress == old(progress)
    {
      var rev := revision.GetOr("main");
      var file := filename.GetOr(Wrappers.DefaultFilename);
      var url := Download.HfUrl(repo, rev, file);
      if !features.candle {
        r := LoadModelFromUrl(url, true, Some(HfCacheKey(repo, rev, file)), hash, conn, chunks, readOk, mkdirOk, writeOk);
        return;
      }
      var arch := ArchitectureFor(repo);
      var wrapper := Wrappers.EngineLoadFromHuggingface(arch, Some(repo), file, hub);
      if wrapper.Ok? {
        var info := Register(Sessions.NewSession(Backends.WrapperModel(wrapper.value), Candle));
        r := Ok(info);
        return;
      }
      var downloaded := Download.DownloadModel(url, conn, chunks);
      if downloaded.Err? {
        return Err(downloaded.error);
      }
      r := LoadModelFromBytes(downloaded.value, DefaultConfig);
    }

    /// `load_from_huggingface` as written: a model the hub wrapper loaded
    /// goes under `sessions.len()` and the counter stays where it is, so
    /// when that handle is live its session is replaced and the table does
    /// not grow. Every other path is the one `LoadFromHuggingface` takes.
    method LoadFromHuggingfaceAsWritten(repo: string, revision: Option<string>, filename: Option<string>,
                                        hub: Wrappers.HubOutcome, hash: string -> Cache.U64,
                                        conn: Download.Connection, chunks: seq<Download.Chunk>,
                                        readOk: bool, mkdirOk: bool, writeOk: bool) returns (r: Result<SessionInfo>)
      requires Valid()
      modifies this
      ensures features.candle && hub.Downloaded? ==>
                var h := HfHandleAsWritten(old(sessions));
                fs == old(fs) && counter == old(counter) && h in sessions
                && sessions == old(sessions)[h := sessions[h]]
                && r == Ok(CreateSessionInfo(h, sessions[h]))
                && sessions[h].engineType == Candle
                && sessions[h].model.WrapperModel?
                && sessions[h].model.wrapper.kind == KindFor(ArchitectureFor(repo))
                && (h in old(sessions) ==> |sessions| == |old(sessions)|)
      ensures !(features.candle && hub.Downloaded?) ==> Valid()
      ensures var url := Download.HfUrl(repo, revision.GetOr("main"), filename.GetOr(Wrappers.DefaultFilename));
              var downloaded := Download.DownloadModel(url, conn, chunks);
              features.candle && !hub.Downloaded? ==>
                fs == old(fs)
                && (downloaded.Err? ==> r == Err(downloaded.error) && sessions == old(sessions) && counter == old(counter))
                && (downloaded.Ok? ==> Stores(PrepareFromBytes(downloaded.value, DefaultConfig, features, env), r, old(sessions), old(counter), sessions, counter))
      ensures var rev := revision.GetOr("main");
              var file := filename.GetOr(Wrappers.DefaultFilename);
              var fetched := Fetch(old(fs), envVars, Download.HfUrl(repo, rev, file), true, Some(HfCacheKey(repo, rev, file)),
                                   hash, conn, chunks, readOk, mkdirOk, writeOk);
              !features.candle ==>
                fs == fetched.1
                && (fetched.0.Err? ==> r == Err(fetched.0.error) && sessions == old(sessions) && counter == old(counter))
                && (fetched.0.Ok? ==> Stores(PrepareFromBytes(fetched.0.value, DefaultConfig, features, env), r, old(sessions), old(counter), sessions, counter))
      ensures progress == old(progress)
    {
      if features.candle {
        var file := filename.GetOr(Wrappers.DefaultFilename);
        var wrapper := Wrappers.EngineLoadFromHuggingface(ArchitectureFor(repo), Some(repo), file, hub);
        if wrapper.Ok? {
          var info := StoreAtLength(Sessions.NewSession(Backends.WrapperModel(wrapper.value), Candle));
          r := Ok(info);
          return;
        }
      }
      r := LoadFromHuggingface(repo, revision, filename, hub, hash, conn, chunks, readOk, mkdirOk, writeOk);
    }

    /// `get_download_progress`.
    function GetDownloadProgress(id: string): (p: Option<Download.DownloadProgress>)
      reads this
      ensures p.Some? <==> id in progress
      ensures p.Some? ==> p.value == progress[id]
    {
      if id in progress then Some(progress[id]) else None
    }

    /// The receive loop of `download_model_with_progress_tracking`: each
    /// chunk is appended to the buffer and the running count written to
    /// the entry when `publish` allows; a failed chunk stops the loop.
    method StreamChunks(id: string, total: Option<nat>, chunks: seq<Download.Chunk>, publish: nat -> bool)
      returns (buffer: seq<byte>, failure: Option<string>, ghost written: seq<Download.DownloadProgress>)
      modifies this
      ensures Download.StreamState(written, buffer, failure) == Download.Stream(total, chunks, publish, false)
      ensures progress == if |written| == 0 then old(progress) else old(progress)[id := written[|written| - 1]]
      ensures sessions == old(sessions) && counter == old(counter) && fs == old(fs)
    {
      buffer := [];
      failure := None;
      written := [];
      var i := 0;
      while i < |chunks|
        invariant 0 <= i <= |chunks|
        invariant Download.Stream(total, chunks[..i], publish, false) == Download.StreamState(written, buffer, None)
        invariant progress == if |written| == 0 then old(progress) else old(progress)[id := written[|written| - 1]]
        invariant sessions == old(sessions) && counter == old(counter) && fs == old(fs)
      {
        StreamNext(total, chunks, publish, i);
        match chunks[i] {
          case ChunkFailed(e) =>
            failure := Some(e);
            Download.StreamStaysFailed(total, chunks, publish, false, i + 1, |chunks|);
            assert chunks[..|chunks|] == chunks;
            return;
          case Bytes(d) =>
            buffer := buffer + d;
            if publish(|buffer|) {
              var record := Download.ProgressRecord(total, |buffer|);
              progress := progress[id := record];
              written := written + [record];
            }
        }
        i := i + 1;
      }
      assert chunks[..|chunks|] == chunks;
    }

    /// `download_model_with_progress_tracking`: every record is written
    /// to the download's entry as it is made (`written` lists them), so
    /// the entry ends at the last one.
    method TrackDownload(url: string, id: string, conn: Download.Connection, chunks: seq<Download.Chunk>,
                         decile: (nat, nat) -> bool)
      returns (r: Result<seq<byte>>, ghost written: seq<Download.DownloadProgress>)
      modifies this
      ensures Download.Outcome(written, r) == Download.Track(url, conn, chunks, decile)
      ensures progress == old(progress)[id := written[|written| - 1]]
      ensures sessions == old(sessions) && counter == old(counter) && fs == old(fs)
    {
      progress := progress[id := Download.ConnectingRecord];
      written := [Download.ConnectingRecord];
      match conn {
        case ClientFailed(e) =>
          r := Err(ModelLoadError(Download.ClientErrorMessage(e)));
        case SendFailed(kind, text) =>
          r := Err(ModelLoadError(Download.SendErrorMessage(kind, text)));
        case Responded(status, display, total) =>
          if !Download.IsSuccess(status) {
            r := Err(ModelLoadError(Download.StatusMessage(status, display, url)));
            return;
          }
          var publish := Download.Publish(total, decile);
          progress := progress[id := Download.StartRecord(total)];
          var buffer: seq<byte>;
          var failure: Option<string>;
          ghost var streamed: seq<Download.DownloadProgress>;
          buffer, failure, streamed := StreamChunks(id, total, chunks, publish);
          written := [Download.ConnectingRecord, Download.StartRecord(total)] + streamed;
          if failure.Some? {
            r := Err(ModelLoadError(Download.ChunkErrorMessage(failure.value)));
            return;
          }
          var done := Download.DownloadProgress(total, |buffer|, Download.Processing, Download.Text(Download.ProcessingText));
          progress := progress[id := done];
          written := written + [done];
          r := Ok(buffer);
      }
    }

    /// `start_download_with_progress`, with the background download run
    /// to its end before returning: the entry starts at "Starting
    /// download...", follows the download, and is then finalised.
    method StartDownloadWithProgress(repo: string, revision: Option<string>, filename: Option<string>,
                                     conn: Download.Connection, chunks: seq<Download.Chunk>, decile: (nat, nat) -> bool)
      returns (r: Result<string>)
      modifies this
      ensures var rev := revision.GetOr("main");
              var o := Download.Track(Download.HfUrl(repo, rev, filename.GetOr(Wrappers.DefaultFilename)), conn, chunks, decile);
              r == Ok(DownloadId(repo, rev))
              && progress == old(progress)[DownloadId(repo, rev) := Download.Finalise(Some(o.records[|o.records| - 1]), o.result.Ok?)]
      ensures sessions == old(sessions) && counter == old(counter) && fs == old(fs)
    {
      var rev := revision.GetOr("main");
      var file := filename.GetOr(Wrappers.DefaultFilename);
      var id := DownloadId(repo, rev);
      progress := progress[id := Download.DownloadProgress(None, 0, Download.Connecting, Download.Text(Download.StartingText))];
      var result, written := TrackDownload(Download.HfUrl(repo, rev, file), id, conn, chunks, decile);
      var existing := if id in progress then Some(progress[id]) else None;
      progress := progress[id := Download.Finalise(existing, result.Ok?)];
      r := Ok(id);
    }
  }
}
