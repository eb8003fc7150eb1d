/// Sessions, their metadata and the session builder. Every builder
/// consumes its record and returns the updated one, so each is a
/// functional update here.
module Sessions {
  import opened Base
  import opened Errors
  import opened Tensors
  import opened Engines
  import ModelDetector
  import Backends

  // ---------------------------------------------------------------------
  // SessionMetadata

  /// Session metadata. The creation timestamp is read from the clock and
  /// is not part of this model.
  datatype SessionMetadata = SessionMetadata(
    modelPath: Option<string>,
    modelName: Option<string>,
    modelVersion: Option<string>,
    custom: map<string, string>)

  /// `SessionMetadata::new`: nothing set, no custom entries.
  function NewMetadata(): (m: SessionMetadata)
    ensures m.modelPath == None && m.modelName == None && m.modelVersion == None
    ensures m.custom == map[]
  {
    SessionMetadata(None, None, None, map[])
  }

  function WithModelPath(m: SessionMetadata, path: string): (r: SessionMetadata)
    ensures r.modelPath == Some(path)
    ensures r.modelName == m.modelName && r.modelVersion == m.modelVersion && r.custom == m.custom
  {
    m.(modelPath := Some(path))
  }

  function WithModelName(m: SessionMetadata, name: string): (r: SessionMetadata)
    ensures r.modelName == Some(name)
    ensures r.modelPath == m.modelPath && r.modelVersion == m.modelVersion && r.custom == m.custom
  {
    m.(modelName := Some(name))
  }

  function WithModelVersion(m: SessionMetadata, version: string): (r: SessionMetadata)
    ensures r.modelVersion == Some(version)
    ensures r.modelPath == m.modelPath && r.modelName == m.modelName && r.custom == m.custom
  {
    m.(modelVersion := Some(version))
  }

  /// `with_custom`: inserts the entry, overwriting an earlier value of the
  /// same key and keeping every other key.
  function WithCustom(m: SessionMetadata, key: string, value: string): (r: SessionMetadata)
    ensures key in r.custom && r.custom[key] == value
    ensures r.custom.Keys == m.custom.Keys + {key}
    ensures forall k :: k in m.custom && k != key ==> r.custom[k] == m.custom[k]
    ensures r.modelPath == m.modelPath && r.modelName == m.modelName && r.modelVersion == m.modelVersion
  {
    m.(custom := m.custom[key := value])
  }

  /// The setters touch disjoint fields, so their order does not matter,
  /// and a second call to the same setter wins.
  lemma MetadataSettersCommute(m: SessionMetadata, path: string, name: string, version: string, path2: string)
    ensures WithModelName(WithModelPath(m, path), name) == WithModelPath(WithModelName(m, name), path)
    ensures WithModelVersion(WithModelPath(m, path), version) == WithModelPath(WithModelVersion(m, version), path)
    ensures WithModelVersion(WithModelName(m, name), version) == WithModelName(WithModelVersion(m, version), name)
    ensures WithModelPath(WithModelPath(m, path), path2) == WithModelPath(m, path2)
  {
  }

  /// Inserting the same key twice keeps only the later value; inserting
  /// different keys commutes.
  lemma WithCustomOverwrites(m: SessionMetadata, k1: string, v1: string, k2: string, v2: string)
    ensures WithCustom(WithCustom(m, k1, v1), k1, v2) == WithCustom(m, k1, v2)
    ensures k1 != k2 ==> WithCustom(WithCustom(m, k1, v1), k2, v2) == WithCustom(WithCustom(m, k2, v2), k1, v1)
  {
    assert WithCustom(WithCustom(m, k1, v1), k1, v2).custom == WithCustom(m, k1, v2).custom;
    if k1 != k2 {
      assert WithCustom(WithCustom(m, k1, v1), k2, v2).custom == WithCustom(WithCustom(m, k2, v2), k1, v1).custom;
    }
  }

  // ---------------------------------------------------------------------
  // Session

  /// A loaded model, the engine that loaded it and optional metadata.
  datatype Session = Session(model: Backends.Model, engineType: EngineType, metadata: Option<SessionMetadata>)

  /// `Session::new`: no metadata yet.
  function NewSession(model: Backends.Model, engineType: EngineType): (s: Session)
    ensures s.model == model && s.engineType == engineType && s.metadata == None
  {
    Session(model, engineType, None)
  }

  /// `with_metadata`: sets the metadata and nothing else.
  function WithMetadata(s: Session, m: SessionMetadata): (r: Session)
    ensures r.metadata == Some(m)
    ensures r.model == s.model && r.engineType == s.engineType
  {
    s.(metadata := Some(m))
  }

  /// `Session::predict` delegates to the model.
  function Predict(s: Session, input: Tensor, env: Backends.Env): Result<Tensor>
  {
    Backends.Predict(s.model, input, env)
  }

  function InputSpecs(s: Session): seq<TensorSpec>
  {
    Backends.InputSpecs(s.model)
  }

  function OutputSpecs(s: Session): seq<TensorSpec>
  {
    Backends.OutputSpecs(s.model)
  }

  /// `Session::predict_batch` delegates to the model's batch prediction,
  /// which maps `predict` over the inputs and stops at the first error.
  method PredictBatch(s: Session, inputs: seq<Tensor>, env: Backends.Env) returns (r: Result<seq<Tensor>>)
    requires forall i :: 0 <= i < |inputs| ==> Backends.CanPredict(s.model, inputs[i])
    ensures r == CollectResults(inputs, (x: Tensor) => Predict(s, x, env))
  {
    r := Backends.PredictBatch(s.model, inputs, env);
    CollectResultsPointwise(inputs, (x: Tensor) => Backends.Predict(s.model, x, env), (x: Tensor) => Predict(s, x, env));
  }

  /// Attaching metadata never changes what a session computes or reports.
  lemma MetadataIsInert(s: Session, m: SessionMetadata, input: Tensor, env: Backends.Env)
    ensures Predict(WithMetadata(s, m), input, env) == Predict(s, input, env)
    ensures InputSpecs(WithMetadata(s, m)) == InputSpecs(s)
    ensures OutputSpecs(WithMetadata(s, m)) == OutputSpecs(s)
    ensures WithMetadata(s, m).engineType == s.engineType
  {
  }

  // ---------------------------------------------------------------------
  // SessionBuilder

  datatype SessionBuilder = SessionBuilder(engine: Option<Backends.Engine>, metadata: SessionMetadata)

  const NoEngineMessage := "No engine specified for session builder"

  /// `SessionBuilder::new`: no engine and fresh metadata.
  function NewBuilder(): (b: SessionBuilder)
    ensures b.engine == None && b.metadata == NewMetadata()
  {
    SessionBuilder(None, NewMetadata())
  }

  function WithEngine(b: SessionBuilder, e: Backends.Engine): (r: SessionBuilder)
    ensures r.engine == Some(e) && r.metadata == b.metadata
  {
    b.(engine := Some(e))
  }

  /// The builder's `with_metadata` replaces the whole record.
  function BuilderWithMetadata(b: SessionBuilder, m: SessionMetadata): (r: SessionBuilder)
    ensures r.metadata == m && r.engine == b.engine
  {
    b.(metadata := m)
  }

  /// `load_from_path`: fails with a configuration error before loading
  /// when no engine was given; otherwise the engine loads the model and
  /// the session records the engine's type and the path.
  function LoadFromPath(b: SessionBuilder, path: string, content: ModelDetector.ReadOutcome, env: Backends.Env): (r: Result<Session>)
    ensures b.engine == None ==> r == Err(Configuration(NoEngineMessage))
    ensures b.engine.Some? ==>
              var loaded := Backends.LoadModel(b.engine.value, path, content, env);
              (r.Ok? <==> loaded.Ok?)
              && (loaded.Err? ==> r == Err(loaded.error))
              && (r.Ok? ==> r.value.model == loaded.value
                            && r.value.engineType == Backends.EngineTypeOf(b.engine.value)
                            && r.value.metadata == Some(WithModelPath(b.metadata, path)))
  {
    if b.engine.None? then Err(ConfigurationError(NoEngineMessage))
    else
      var engine := b.engine.value;
      var model :- Backends.LoadModel(engine, path, content, env);
      Ok(WithMetadata(NewSession(model, Backends.EngineTypeOf(engine)), WithModelPath(b.metadata, path)))
  }

  /// `load_from_bytes`: the same, keeping the builder's metadata as given.
  function LoadFromBytes(b: SessionBuilder, bytes: seq<byte>, env: Backends.Env): (r: Result<Session>)
    ensures b.engine == None ==> r == Err(Configuration(NoEngineMessage))
    ensures b.engine.Some? ==>
              var loaded := Backends.LoadFromBytes(b.engine.value, bytes, env);
              (r.Ok? <==> loaded.Ok?)
              && (loaded.Err? ==> r == Err(loaded.error))
              && (r.Ok? ==> r.value.model == loaded.value
                            && r.value.engineType == Backends.EngineTypeOf(b.engine.value)
                            && r.value.metadata == Some(b.metadata))
  {
    if b.engine.None? then Err(ConfigurationError(NoEngineMessage))
    else
      var engine := b.engine.value;
      var model :- Backends.LoadFromBytes(engine, bytes, env);
      Ok(WithMetadata(NewSession(model, Backends.EngineTypeOf(engine)), b.metadata))
  }

  /// A session built by either loader reports the engine type its model
  /// was actually loaded by, and a Linfa engine never yields a session.
  lemma LoadedSessionIsConsistent(b: SessionBuilder, path: string, content: ModelDetector.ReadOutcome,
                                  bytes: seq<byte>, env: Backends.Env)
    ensures LoadFromPath(b, path, content, env).Ok? ==>
              var s := LoadFromPath(b, path, content, env).value;
              s.engineType == Backends.ModelEngineType(s.model) && s.engineType == Candle
    ensures LoadFromBytes(b, bytes, env).Ok? ==>
              var s := LoadFromBytes(b, bytes, env).value;
              s.engineType == Backends.ModelEngineType(s.model) && s.engineType == Candle
  {
    if LoadFromPath(b, path, content, env).Ok? {
      assert b.engine.Some?;
      assert !b.engine.value.LinfaEngine?;
    }
    if LoadFromBytes(b, bytes, env).Ok? {
      assert b.engine.Some?;
      assert !b.engine.value.LinfaEngine?;
    }
  }
}
