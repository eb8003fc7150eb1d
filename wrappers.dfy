/// The BERT-like and ResNet-like model wrappers of the Candle engine.
/// Neither runs a network: `predict` fills every row of the output with
/// the scaled input elements, cycling through the input when it is
/// shorter than a row. The `f32` multiplication by 0.1 or 0.01 is a
/// parameter, and the HuggingFace download is an outcome.
module Wrappers {
  import opened Base
  import opened Errors
  import opened Tensors
  import Layout
  import Converters

  datatype Kind = Bert | ResNet

  /// A wrapper and the specs it reports; the device and the ResNet
  /// variant are not part of this model.
  datatype Wrapper = Wrapper(kind: Kind, inputSpecs: seq<TensorSpec>, outputSpecs: seq<TensorSpec>)

  /// The length of one output row: BERT's hidden size or ImageNet's
  /// class count.
  function OutputSize(kind: Kind): nat
  {
    match kind
    case Bert => 768
    case ResNet => 1000
  }

  /// `BertModelWrapper::new` and `ResNetModelWrapper::new`.
  function NewWrapper(kind: Kind): (w: Wrapper)
    ensures w.kind == kind && |w.inputSpecs| == 1 && |w.outputSpecs| == 1
    ensures w.outputSpecs[0].shape == [None, Some(OutputSize(kind))] && w.outputSpecs[0].dataType == F32
  {
    match kind
    case Bert =>
      Wrapper(Bert, [NewSpec("input_ids", [None, Some(512)], I64)], [NewSpec("embeddings", [None, Some(768)], F32)])
    case ResNet =>
      Wrapper(ResNet, [NewSpec("image", [None, Some(3), Some(224), Some(224)], F32)],
              [NewSpec("logits", [None, Some(1000)], F32)])
  }

  // ---------------------------------------------------------------------
  // Prediction

  /// The message when the input is not an `f32` tensor.
  function NotF32Message(kind: Kind): string
  {
    match kind
    case Bert => "BERT input must be f32 data"
    case ResNet => "ResNet input must be f32 image data"
  }

  /// The first dimension, or 1 for a scalar.
  function BatchSize(input: Tensor): nat
  {
    if |input.shape| == 0 then 1 else input.shape[0]
  }

  /// The input element column `j` of every row reads, as the source picks
  /// it: `j` while the input is long enough, otherwise `j % len`.
  function SourceIndex(j: nat, len: nat): nat
    requires len > 0
  {
    if len > j then j else j % len
  }

  /// Both branches of the source's choice are `j % len`.
  lemma SourceIndexIsMod(j: nat, len: nat)
    requires len > 0
    ensures SourceIndex(j, len) == j % len && j % len < len
  {
  }

  /// One output row: element `j` is the scaled input element `j % len`.
  function Row(data: seq<F32Bits>, size: nat, scale: F32Bits -> F32Bits): (row: seq<F32Bits>)
    requires |data| > 0
    ensures |row| == size
    ensures forall j :: 0 <= j < size ==> row[j] == scale(data[j % |data|])
  {
    seq(size, j requires 0 <= j < size => scale(data[j % |data|]))
  }

  /// `n` copies of `row`, one after another.
  function Repeat<T>(row: seq<T>, n: nat): (r: seq<T>)
    ensures |r| == n * |row|
  {
    if n == 0 then [] else Repeat(row, n - 1) + row
  }

  lemma {:induction false} RepeatAt<T>(row: seq<T>, n: nat, a: nat, c: nat)
    requires a < n && c < |row|
    ensures Layout.Flat(a, c, |row|) < |Repeat(row, n)|
    ensures Repeat(row, n)[Layout.Flat(a, c, |row|)] == row[c]
  {
    Layout.FlatBound(a, c, n, |row|);
    if a < n - 1 {
      RepeatAt(row, n - 1, a, c);
    } else {
      assert Layout.Flat(a, c, |row|) == (n - 1) * |row| + c;
    }
  }

  /// An input the source can run on: the remainder `j % len` divides by
  /// zero when an `f32` input holds no elements but has rows to fill.
  predicate Defined(input: Tensor)
  {
    AsF32Slice(input).Some? && BatchSize(input) > 0 ==> |AsF32Slice(input).value| > 0
  }

  const RemainderByZero := "attempt to calculate the remainder with a divisor of zero"

  /// What `predict` returns. On an input that is not `Defined` the source
  /// panics; the function returns that panic's text there, and the
  /// methods exclude such inputs.
  function PredictSpec(kind: Kind, input: Tensor, scale: F32Bits -> F32Bits): (r: Result<Tensor>)
    ensures Defined(input) ==> (r.Ok? <==> AsF32Slice(input).Some?)
    ensures AsF32Slice(input).None? ==> r == Err(InvalidTensorData(NotF32Message(kind)))
    ensures r.Ok? ==> r.value.Valid() && r.value.dataType == F32
                      && r.value.shape == [BatchSize(input), OutputSize(kind)]
  {
    match AsF32Slice(input)
    case None => Err(InvalidShapeMsg(NotF32Message(kind)))
    case Some(data) =>
      var batch := BatchSize(input);
      var size := OutputSize(kind);
      if batch == 0 then
        Converters.ProductOf2(0, size);
        FromF32([], [0, size])
      else if |data| == 0 then Err(PredictionError(RemainderByZero))
      else
        Converters.ProductOf2(batch, size);
        FromF32(Repeat(Row(data, size, scale), batch), [batch, size])
  }

  /// The BERT wrapper advertises `i64` token ids as its input, yet its
  /// `predict` accepts only `f32`: no tensor matching the advertised
  /// input spec can be predicted on.
  lemma BertSpecMismatch(t: Tensor, scale: F32Bits -> F32Bits)
    requires Matches(NewWrapper(Bert).inputSpecs[0], t)
    ensures PredictSpec(Bert, t, scale) == Err(InvalidTensorData(NotF32Message(Bert)))
  {
    assert t.dataType == I64;
  }

  /// Every row of the output is the same: column `c` holds the scaled
  /// input element `c`, the input being read cyclically.
  lemma PredictRows(kind: Kind, input: Tensor, scale: F32Bits -> F32Bits, a: nat, c: nat)
    requires PredictSpec(kind, input, scale).Ok?
    requires a < BatchSize(input) && c < OutputSize(kind)
    ensures var out := F32Words(PredictSpec(kind, input, scale).value.data);
            var data := AsF32Slice(input).value;
            |data| > 0 && Layout.Flat(a, c, OutputSize(kind)) < |out|
            && out[Layout.Flat(a, c, OutputSize(kind))] == scale(data[c % |data|])
  {
    var data := AsF32Slice(input).value;
    var size := OutputSize(kind);
    var row := Row(data, size, scale);
    var xs := Repeat(row, BatchSize(input));
    Converters.ProductOf2(BatchSize(input), size);
    F32RoundTrip(xs, [BatchSize(input), size]);
    RepeatAt(row, BatchSize(input), a, c);
  }

  /// The nested loops of `predict`: row after row, column `j` gets the
  /// scaled input element the source's index picks.
  method FillRows(output: array<F32Bits>, data: seq<F32Bits>, size: nat, batch: nat, scale: F32Bits -> F32Bits)
    requires |data| > 0 && output.Length == batch * size
    modifies output
    ensures output[..] == Repeat(Row(data, size, scale), batch)
  {
    ghost var row := Row(data, size, scale);
    for i := 0 to batch
      invariant i * size <= output.Length
      invariant output[..i * size] == Repeat(row, i)
    {
      Layout.RowFits(i, batch, size);
      var start := i * size;
      for j := 0 to size
        invariant output[..start] == Repeat(row, i)
        invariant output[start..start + j] == row[..j]
      {
        SourceIndexIsMod(j, |data|);
        var index := if |data| > j then j else j % |data|;
        output[start + j] := scale(data[index]);
        assert output[start..start + j + 1] == output[start..start + j] + [row[j]];
      }
      assert (i + 1) * size == start + size;
      assert output[..start + size] == output[..start] + output[start..start + size];
    }
    assert output[..] == output[..batch * size];
  }

  /// `predict` of both wrappers: a zeroed buffer of `batch * size`
  /// elements, filled row by row and wrapped as an `f32` tensor.
  method Predict(w: Wrapper, input: Tensor, scale: F32Bits -> F32Bits) returns (r: Result<Tensor>)
    requires Defined(input)
    ensures r == PredictSpec(w.kind, input, scale)
  {
    var slice := AsF32Slice(input);
    if slice.None? {
      return Err(InvalidShapeMsg(NotF32Message(w.kind)));
    }
    var data := slice.value;
    var size := OutputSize(w.kind);
    var batch := BatchSize(input);
    var output := new F32Bits[batch * size](_ => 0);
    if batch > 0 {
      FillRows(output, data, size, batch, scale);
    }
    Pow256Widths();
    Converters.ProductOf2(batch, size);
    var t := New(EncodeWords(output[..], 4), [batch, size], F32);
    // The byte count always matches, so the source's "Failed to create
    // output tensor" branch is never taken.
    assert t.Ok?;
    return Ok(t.value);
  }

  /// `predict_batch`: `predict` over the inputs in order, stopping at the
  /// first error.
  method PredictBatch(w: Wrapper, inputs: seq<Tensor>, scale: F32Bits -> F32Bits) returns (r: Result<seq<Tensor>>)
    requires forall i :: 0 <= i < |inputs| ==> Defined(inputs[i])
    ensures r == CollectResults(inputs, (x: Tensor) => PredictSpec(w.kind, x, scale))
  {
    var f := (x: Tensor) => PredictSpec(w.kind, x, scale);
    var results: seq<Tensor> := [];
    for i := 0 to |inputs|
      invariant |results| == i
      invariant forall j :: 0 <= j < i ==> f(inputs[j]) == Ok(results[j])
    {
      var out := Predict(w, inputs[i], scale);
      if out.Err? {
        CollectResultsFirstError(inputs, f, i);
        return Err(out.error);
      }
      results := results + [out.value];
    }
    CollectResultsOk(inputs, f);
    assert CollectResults(inputs, f).value == results;
    return Ok(results);
  }

  // ---------------------------------------------------------------------
  // Loading from the HuggingFace Hub

  /// The outcome of `Api::new()` and `repo.get(filename)`.
  datatype HubOutcome = ClientFailed(reason: string) | DownloadFailed(reason: string) | Downloaded(path: string)

  const DefaultFilename := "model.safetensors"

  /// `repo_id.replace('/', "_")`.
  function SlashesToUnderscores(s: string): (r: string)
    ensures |r| == |s|
    ensures forall i :: 0 <= i < |s| ==> r[i] == (if s[i] == '/' then '_' else s[i])
  {
    seq(|s|, i requires 0 <= i < |s| => if s[i] == '/' then '_' else s[i])
  }

  /// The name the loaded wrapper gives its first input.
  function HfName(repo: string, filename: string): string
  {
    "hf_" + SlashesToUnderscores(repo) + "_" + filename
  }

  /// The name is "hf_", the repository without slashes, "_" and the file.
  lemma HfNameParts(repo: string, filename: string)
    ensures var n := HfName(repo, filename);
            |n| == |repo| + |filename| + 4
            && n[..3] == "hf_" && n[|repo| + 3] == '_' && n[|repo| + 4..] == filename
            && forall i :: 3 <= i < |repo| + 3 ==> n[i] != '/' && (repo[i - 3] != '/' ==> n[i] == repo[i - 3])
  {
  }

  /// `load_from_huggingface` of both wrappers: download, then a fresh
  /// wrapper whose first input is renamed after the repository and file.
  method LoadFromHuggingface(kind: Kind, repo: string, filename: Option<string>, hub: HubOutcome)
    returns (r: Result<Wrapper>)
    ensures hub.ClientFailed? ==> r == Err(ModelLoad("Failed to create HF API client: " + hub.reason))
    ensures hub.DownloadFailed? ==>
              r == Err(ModelLoad("Failed to download " + filename.GetOr(DefaultFilename) + " from " + repo + ": "
                                 + hub.reason))
    ensures hub.Downloaded? ==>
              r.Ok? && r.value.kind == kind && r.value.outputSpecs == NewWrapper(kind).outputSpecs
              && r.value.inputSpecs == [NewWrapper(kind).inputSpecs[0].(name := HfName(repo, filename.GetOr(DefaultFilename)))]
  {
    var file := filename.GetOr(DefaultFilename);
    match hub {
      case ClientFailed(reason) =>
        return Err(ModelLoadError("Failed to create HF API client: " + reason));
      case DownloadFailed(reason) =>
        return Err(ModelLoadError("Failed to download " + file + " from " + repo + ": " + reason));
      case Downloaded(_) =>
        var wrapper := NewWrapper(kind);
        var specs := wrapper.inputSpecs;
        specs := specs[0 := specs[0].(name := HfName(repo, file))];
        return Ok(wrapper.(inputSpecs := specs));
    }
  }

  /// The architectures `load_from_huggingface` of the engine dispatches
  /// on; any other is kept by its `{:?}` text.
  datatype Architecture = BertArch | ResNetArch | OtherArch(debugName: string)

  /// `CandleEngine::load_from_huggingface`: the repository (the
  /// configured one or the architecture's default) must exist; only BERT
  /// and ResNet are loaded.
  method EngineLoadFromHuggingface(arch: Architecture, repo: Option<string>, filename: string, hub: HubOutcome)
    returns (r: Result<Wrapper>)
    ensures repo.None? ==> r == Err(ModelLoad("Repository ID required for HuggingFace loading"))
    ensures repo.Some? && arch.OtherArch? ==>
              r == Err(UnsupportedFormat("Model architecture " + arch.debugName + " not yet supported for HuggingFace loading"))
    ensures repo.Some? && !arch.OtherArch? && hub.Downloaded? ==>
              r.Ok? && r.value.kind == (if arch.BertArch? then Bert else ResNet)
              && |r.value.inputSpecs| == 1 && r.value.inputSpecs[0].name == HfName(repo.value, filename)
    ensures repo.Some? && !arch.OtherArch? && !hub.Downloaded? ==> r.Err? && r.error.ModelLoad?
  {
    if repo.None? {
      return Err(ModelLoadError("Repository ID required for HuggingFace loading"));
    }
    match arch {
      case BertArch => r := LoadFromHuggingface(Bert, repo.value, Some(filename), hub);
      case ResNetArch => r := LoadFromHuggingface(ResNet, repo.value, Some(filename), hub);
      case OtherArch(name) =>
        r := Err(UnsupportedFormatError("Model architecture " + name + " not yet supported for HuggingFace loading"));
    }
  }
}
