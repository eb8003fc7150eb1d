# inference — a Dafny model of the engine-independent core

This project models the deterministic logic of the `inference` Rust crate,
the machine-learning runtime behind a Flutter plugin: the tensor value type
and its interface specs, the error taxonomy, the two model-format detectors
and the engine factory, the layout converters and the preprocessing index
logic, the session records, the engine-side dispatch of the Candle, Linfa
and BERT/ResNet wrapper engines, and the API layer with its session table,
handle counter, cache and download-progress bookkeeping.

Element values of tensors are opaque words (`F32Bits`, `F64Bits`, `I32`,
`I64`); nothing here reasons about floating point. Whatever the crate hands
to a foreign library (SafeTensors and JSON parsing, bincode, Candle
arithmetic, Linfa fitting, a hash function, the iteration order of a
`HashMap`) is a parameter of the model. So are the file system, the
environment variables, the HTTP connection and the byte stream, each given
as a value: a read outcome, a map, a connection outcome and a sequence of
chunk results.

Modules, in dependency order:

- `Base`, `Errors`, `Tensors`, `Engines`: options, decimal text, ASCII
  lower-casing and substring search; `InferenceError` and its display text;
  `Tensor` and `TensorSpec`; the engine and format enumerations.
- `Paths`, `Utf8`: the parts of path and UTF-8 handling the detectors read.
- `ModelDetector`, `Factory`: the two detectors, engine availability and
  preference, and `EngineConfig` as a class with builder methods.
- `Layout`, `Converters`, `Preprocessing`: row-major and HWC/CHW index
  arithmetic, the 2-D/3-D/image converters, image size checks, text
  tokenising and padding, and audio windowing.
- `Linfa`, `Candle`, `Wrappers`, `Backends`, `Sessions`: the engines, the
  models they load, the sum type standing for the `Model` and
  `InferenceEngine` trait objects, and `Session` with its builders.
- `Download`, `Api`, `Cache`, `Inference`: the download phase machine; the
  API records and name parsers; the on-disk cache; and the `Runtime` class
  that owns the session table, the handle counter, the progress table and
  the file system.

## Model

| member | source | states |
|---|---|---|
| Errors.HelpersBuildTheirVariant | rust/src/models/error.rs:51-122 | every helper and `From` conversion builds the variant it is named after with its message unchanged; `invalid_shape_msg` builds `InvalidTensorData`, and `invalid_shape` keeps expected and actual in order |
| Errors.KindOfPrefixed | rust/src/models/error.rs:5-46 | each variant's display prefix identifies that variant, whatever message follows |
| Errors.DisplayIsPrefixThenMessage | rust/src/models/error.rs:5-46 | the display text of an error is its variant's fixed prefix followed by the message |
| Errors.ParseDisplayRoundTrip | rust/src/models/error.rs:5-46 | every error other than `InvalidShape` can be read back from its display text |
| Errors.DisplayInjective | rust/src/models/error.rs:5-46 | two such errors with the same display text are the same error |
| Errors.CollectResultsFirstError | rust/src/engines/linfa_engine.rs:393-399 | mapping a fallible step over a sequence fails with the error of the first input that fails |
| Tensors.NameInjective | rust/src/models/tensor.rs:33-45 | distinct data types have distinct names |
| Tensors.DecodeEncodeLE | rust/src/models/tensor.rs:76-105 | reading back a little-endian word gives the number that was written |
| Tensors.EncodeDecodeLE | rust/src/models/tensor.rs:152-166 | writing back a decoded word gives the original bytes |
| Tensors.DecodeEncodeWords | rust/src/models/tensor.rs:76-105 | decoding the bytes of n encoded words gives those n words in order |
| Tensors.EncodeDecodeWords | rust/src/models/tensor.rs:152-191 | a buffer whose length is a multiple of the word width is re-encoded exactly from its words |
| Tensors.TwosRoundTrip | rust/src/models/tensor.rs:92-105 | two's-complement encoding of a signed value in range is undone by decoding |
| Tensors.New | rust/src/models/tensor.rs:59-73 | `Tensor::new` succeeds iff the byte count is the element count times the type's width, keeping data, shape and type; otherwise `InvalidTensorData` |
| Tensors.FromF32 | rust/src/models/tensor.rs:76-83 | succeeds iff the value count is the shape's product; the result is F32 with 4 bytes per value |
| Tensors.FromF64 | rust/src/models/tensor.rs:84-91 | succeeds iff the value count is the shape's product; the result is F64 with 8 bytes per value |
| Tensors.FromI32 | rust/src/models/tensor.rs:92-99 | succeeds iff the value count is the shape's product; the result is I32 with 4 bytes per value |
| Tensors.FromI64 | rust/src/models/tensor.rs:100-105 | succeeds iff the value count is the shape's product; the result is I64 with 8 bytes per value |
| Tensors.ToF32Values | rust/src/models/tensor.rs:152-166 | succeeds iff the tensor is F32, giving one value per 4 bytes; otherwise `InvalidTensorData` |
| Tensors.ToF64Values | rust/src/models/tensor.rs:169-191 | succeeds iff the tensor is F64 or F32 (widened), one value per word; every other type gives `InvalidTensorData` |
| Tensors.ToF32Vec | rust/src/models/tensor.rs:152-166 | the decoding loop computes exactly `ToF32Values` |
| Tensors.ToF64Vec | rust/src/models/tensor.rs:169-191 | the decoding loop computes exactly `ToF64Values` |
| Tensors.F32RoundTrip | rust/src/models/tensor.rs:76-166 | `to_f32_vec` returns exactly the values `from_f32` was given |
| Tensors.F32Rebuild | rust/src/models/tensor.rs:76-166 | a valid F32 tensor is rebuilt exactly from its decoded values and shape |
| Tensors.F64RoundTrip | rust/src/models/tensor.rs:84-191 | `to_f64_vec` returns exactly the values `from_f64` was given |
| Tensors.Reshape | rust/src/models/tensor.rs:208-219 | succeeds iff the new shape has the same element count, keeping bytes and type; otherwise `InvalidShape([len], [new len])` |
| Tensors.ReshapeRoundTrip | rust/src/models/tensor.rs:208-219 | reshaping back to the original shape restores the tensor |
| Tensors.ScalarF32 | rust/src/models/tensor.rs:222-232 | succeeds iff the tensor has one element and is F32, giving its first word |
| Tensors.ScalarF64 | rust/src/models/tensor.rs:233-241 | succeeds iff the tensor has one element and is F64 or F32 (widened) |
| Tensors.ScalarOfSingleton | rust/src/models/tensor.rs:222-232 | the scalar of a one-element tensor built from x is x |
| Tensors.AsF32Slice | rust/src/models/tensor.rs:244-257 | a view exists iff the type is F32 and the length is a multiple of 4 |
| Tensors.AsF64Slice | rust/src/models/tensor.rs:258-271 | a view exists iff the type is F64 and the length is a multiple of 8 |
| Tensors.AsI32Slice | rust/src/models/tensor.rs:272-285 | a view exists iff the type is I32 and the length is a multiple of 4 |
| Tensors.AsI64Slice | rust/src/models/tensor.rs:286-299 | a view exists iff the type is I64 and the length is a multiple of 8 |
| Tensors.SliceViewsOfValidTensor | rust/src/models/tensor.rs:244-299 | on a valid tensor each view exists exactly for its own type, and the F32 view agrees with `to_f32_vec` |
| Tensors.I32RoundTrip | rust/src/models/tensor.rs:272-285 | the I32 view of a tensor built by `from_i32` is the original values |
| Tensors.I64RoundTrip | rust/src/models/tensor.rs:286-299 | the I64 view of a tensor built by `from_i64` is the original values |
| Tensors.NewSpec | rust/src/models/tensor.rs:315-323 | a new spec has no description |
| Tensors.WithDescription | rust/src/models/tensor.rs:325-328 | only the description changes |
| Tensors.DimsMatchIff | rust/src/models/tensor.rs:331-352 | equal-rank shapes match iff every fixed dimension equals the actual one |
| Tensors.MatchesIff | rust/src/models/tensor.rs:331-352 | `matches` holds iff types and ranks agree and every `Some(d)` equals the actual dimension |
| Tensors.FixedDimsIff | rust/src/models/tensor.rs:355-364 | `fixed_size` is `Some` iff no dimension is `None`, and then lists the dimensions in order |
| Tensors.FixedSize | rust/src/models/tensor.rs:355-364 | the loop returns `Some` iff every dimension is fixed, preserving order and length |
| Tensors.FixedSpecMatchesExactly | rust/src/models/tensor.rs:331-364 | a fully fixed spec matches exactly the tensors of its type and shape |
| ModelDetector.SafeTensorsIff | rust/src/utils/model_detector.rs:101-124 | SafeTensors iff at least 8 bytes, a header length L with 1 ≤ L ≤ len − 8, and `{` at byte 8 |
| ModelDetector.PyTorchIff | rust/src/utils/model_detector.rs:127-143 | PyTorch iff at least 4 bytes starting with `80 02`, `80 03`, `80 04` or `50 4B` |
| ModelDetector.SafeTensorsFileRecognised | rust/src/utils/model_detector.rs:101-124 | a header length, a JSON header starting with `{` and any payload are recognised |
| ModelDetector.DetectFormatFromBytes | rust/src/utils/model_detector.rs:84-96 | succeeds iff either predicate holds, preferring SafeTensors; otherwise `FormatDetection`, with no default |
| ModelDetector.DetectEngineFromBytes | rust/src/utils/model_detector.rs:42-56 | Candle iff either predicate holds, otherwise `FormatDetection` |
| ModelDetector.EngineAndFormatDetectionAgree | rust/src/utils/model_detector.rs:42-96 | engine detection succeeds exactly when format detection does |
| ModelDetector.ShortInputUndetected | rust/src/utils/model_detector.rs:84-96 | fewer than 4 bytes, the empty buffer included, are never detected |
| ModelDetector.BothLayoutsAccepted | rust/src/utils/model_detector.rs:84-96 | a 648-byte buffer satisfies both predicates and is classified SafeTensors |
| ModelDetector.DetectFormatFromPath | rust/src/utils/model_detector.rs:59-73 | `safetensors` and `pt`/`pth` extensions decide the format in any case; other paths go to content |
| ModelDetector.DetectEngineFromPath | rust/src/utils/model_detector.rs:11-31 | the result is Candle for every path and every read outcome |
| ModelDetector.ExtensionDecidesWithoutContent | rust/src/utils/model_detector.rs:59-73 | for a known extension the file content makes no difference |
| Factory.PreferredEngineForFormat | rust/src/engines/factory.rs:172-177 | SafeTensors and PyTorch prefer Candle; Linfa prefers Linfa |
| Factory.CreateEngineByType | rust/src/engines/factory.rs:64-93 | succeeds iff the engine is compiled in; otherwise `Configuration` |
| Factory.CreateEngine | rust/src/engines/factory.rs:32-61 | creates the format's preferred engine, failing as `create_engine_by_type` does |
| Factory.AvailableEngines | rust/src/engines/factory.rs:150-169 | lists exactly the available engines, Candle before Linfa |
| Factory.CreateBestEngineForFormat | rust/src/engines/factory.rs:180-197 | the preferred engine if available, else the first available, else `Configuration` |
| Factory.BestEngineIsAvailable | rust/src/engines/factory.rs:180-197 | a best engine exists iff some engine is compiled in, and it is available |
| Factory.DetectFormatFromBytes | rust/src/engines/factory.rs:116-147 | only empty input fails; JSON-looking input is SafeTensors, `0x80` PyTorch, bincode-decodable input over 8 bytes Linfa, everything else SafeTensors |
| Factory.DetectFormatFromPath | rust/src/engines/factory.rs:96-113 | no extension fails; the known extensions decide in any case; any other extension is classified by content, and a failed read is `ModelLoad("Failed to read file <path>: <reason>")` |
| Factory.FromFile | rust/src/engines/factory.rs:20-24 | a created engine is the preferred, available engine of the detected format |
| Factory.FromBytes | rust/src/engines/factory.rs:26-30 | empty input fails; a created engine is the preferred, available engine of the detected format |
| Factory.DetectorsDisagree | rust/src/engines/factory.rs:116-147 | on three concrete buffers the factory detector and `ModelDetector` give different answers |
| Factory.MetadataJsonIsSafeTensors | rust/src/engines/factory.rs:123-135 | a JSON-looking buffer containing `__metadata__` is SafeTensors |
| Factory.EngineConfig.constructor | rust/src/engines/factory.rs:211-226 | the defaults: no preference, fallback on, GPU on |
| Factory.EngineConfig.WithPreferredEngine | rust/src/engines/factory.rs:228-232 | sets only the preferred engine |
| Factory.EngineConfig.WithFallback | rust/src/engines/factory.rs:234-238 | sets only the fallback flag |
| Factory.EngineConfig.WithGpuAcceleration | rust/src/engines/factory.rs:240-244 | sets only the GPU flag |
| Factory.EngineConfig.CreateEngine | rust/src/engines/factory.rs:246-266 | an available preference wins whatever the format; without one, fallback off gives `Configuration` and fallback on gives the best engine |
| Layout.HwcToChwAt | rust/src/utils/converters.rs:159-185 | element (h, w, c) moves from `h*W*C+w*C+c` to `c*H*W+h*W+w` |
| Layout.ChwToHwcAt | rust/src/utils/converters.rs:188-214 | element (h, w, c) moves from `c*H*W+h*W+w` to `h*W*C+w*C+c` |
| Layout.HwcChwRoundTrip | rust/src/utils/converters.rs:159-214 | CHW-to-HWC undoes HWC-to-CHW |
| Layout.ChwHwcRoundTrip | rust/src/utils/converters.rs:159-214 | HWC-to-CHW undoes CHW-to-HWC |
| Layout.FillChw | rust/src/utils/converters.rs:166-182 | the triple loop fills the buffer with exactly the HWC-to-CHW permutation |
| Layout.FillHwc | rust/src/utils/converters.rs:195-211 | the triple loop fills the buffer with exactly the CHW-to-HWC permutation |
| Converters.FlattenUnflatten | rust/src/utils/converters.rs:8-84 | splitting values into rows and flattening them again gives the values back |
| Converters.UnflattenFlatten | rust/src/utils/converters.rs:8-84 | flattening rectangular rows and splitting them again gives the rows back |
| Converters.From2dF32 | rust/src/utils/converters.rs:8-27 | succeeds iff there is a row and every row has row 0's length; shape `[rows, cols]`, row-major values; otherwise `InvalidTensorData` |
| Converters.From3dF32 | rust/src/utils/converters.rs:30-61 | succeeds iff non-empty and every matrix is `dim1 × dim2` with dim2 from `data[0][0]` (0 if dim1 is 0); shape `[d0, d1, d2]` |
| Converters.To2dValues | rust/src/utils/converters.rs:64-84 | succeeds iff rank 2 and F32, giving `shape[0]` rows of `shape[1]` values |
| Converters.To2dF32 | rust/src/utils/converters.rs:64-84 | the row loop computes exactly `To2dValues` |
| Converters.To2dInvertsFrom2d | rust/src/utils/converters.rs:8-84 | `to_2d_f32` returns the rows `from_2d_f32` was given |
| Converters.From2dInvertsTo2d | rust/src/utils/converters.rs:8-84 | a rank-2 F32 tensor with rows is rebuilt by `from_2d_f32` from its rows; with zero rows it is refused |
| Converters.To3dValues | rust/src/utils/converters.rs:87-112 | succeeds iff rank 3 and F32, giving a `d0 × d1 × d2` cuboid |
| Converters.To3dF32 | rust/src/utils/converters.rs:87-112 | the nested loops compute exactly `To3dValues` |
| Converters.To3dInvertsFrom3d | rust/src/utils/converters.rs:30-112 | `to_3d_f32` returns the cuboid `from_3d_f32` was given |
| Converters.From3dInvertsTo3d | rust/src/utils/converters.rs:30-112 | a rank-3 F32 tensor is rebuilt from its cuboid when d0, d1 > 0; with d1 = 0 the rebuilt shape is `[d0, 0, 0]` |
| Converters.FromImageHwc | rust/src/utils/converters.rs:115-135 | succeeds iff `len == h*w*c`; shape `[h, w, c]`, each byte mapped in order |
| Converters.FromImageChw | rust/src/utils/converters.rs:137-156 | succeeds iff `len == c*h*w`; shape `[c, h, w]`, each byte mapped in order |
| Converters.HwcToChwValues | rust/src/utils/converters.rs:159-185 | succeeds iff rank 3 and F32; shape `[C, H, W]`, same length |
| Converters.ChwToHwcValues | rust/src/utils/converters.rs:188-214 | succeeds iff rank 3 and F32; shape `[H, W, C]`, same length |
| Converters.HwcToChwMoves | rust/src/utils/converters.rs:159-185 | each output slot `c*H*W+h*W+w` holds input element `h*W*C+w*C+c` |
| Converters.HwcToChw | rust/src/utils/converters.rs:159-185 | the method computes exactly `HwcToChwValues` |
| Converters.ChwToHwc | rust/src/utils/converters.rs:188-214 | the method computes exactly `ChwToHwcValues` |
| Converters.HwcChwTensorRoundTrip | rust/src/utils/converters.rs:159-214 | `chw_to_hwc(hwc_to_chw(t))` is t |
| Preprocessing.PreprocessImageSpec | rust/src/models/preprocessing.rs:8-80 | succeeds iff `len == width*height*channels`; HWC gives `[h, w, c]` with the normalised bytes in order, CHW gives `[c, h, w]`; otherwise the size message |
| Preprocessing.PreprocessImage | rust/src/models/preprocessing.rs:8-80 | the in-place normalisation and CHW fill compute exactly `PreprocessImageSpec` |
| Preprocessing.ChwBranchIsHwcToChw | rust/src/models/preprocessing.rs:62-79 | the CHW branch gives the same tensor as `hwc_to_chw` of the HWC branch |
| Preprocessing.SplitWhitespaceSpec | rust/src/models/preprocessing.rs:91-105 | the tokens are non-empty, contain no whitespace, and together are all non-whitespace characters in order |
| Preprocessing.SplitJoinRoundTrip | rust/src/models/preprocessing.rs:91-105 | splitting tokens joined by spaces gives the tokens back |
| Preprocessing.TokenId | rust/src/models/preprocessing.rs:107-116 | the vocabulary id, else the unknown id; with no vocabulary the UTF-8 length mod 1000 |
| Preprocessing.CleanText | rust/src/models/preprocessing.rs:91-105 | with punctuation removal only alphanumerics and whitespace remain; with neither option the text is unchanged |
| Preprocessing.PadOrTruncate | rust/src/models/preprocessing.rs:119-126 | with a maximum m exactly m ids: the first ones kept, the rest padding; without one, unchanged |
| Preprocessing.PreprocessTextSpec | rust/src/models/preprocessing.rs:85-130 | shape `[m]` with a maximum, else `[token count]`; F32 and valid |
| Preprocessing.PreprocessText | rust/src/models/preprocessing.rs:85-130 | the method computes exactly `PreprocessTextSpec` |
| Preprocessing.TextValues | rust/src/models/preprocessing.rs:107-129 | value i is the id of token i, or the padding id past the last token |
| Preprocessing.WindowsLength | rust/src/models/preprocessing.rs:282-292 | the output is window × (number of windows that fit) long |
| Preprocessing.WindowCountIff | rust/src/models/preprocessing.rs:282-292 | window k exists iff `k*hop + window ≤ len` |
| Preprocessing.WindowsAt | rust/src/models/preprocessing.rs:282-292 | element j of window k is `samples[k*hop + j]` |
| Preprocessing.ApplyWindowing | rust/src/models/preprocessing.rs:282-292 | the `while` loop produces exactly the windows in order |
| Preprocessing.DefaultHopStalls | rust/src/models/preprocessing.rs:161-164 | see Findings |
| Preprocessing.DefaultHop | rust/src/models/preprocessing.rs:161-164 | at least 1, and `window/2` whenever that is positive |
| Preprocessing.DefaultHopStops | rust/src/models/preprocessing.rs:161-164 | windowing with the corrected default hop always terminates |
| Preprocessing.HopOf | rust/src/models/preprocessing.rs:161-164 | (corrected) the configured hop, else a default of at least 1 that equals `window_size / 2` for every window of two samples or more |
| Preprocessing.AmplitudeNormalized | rust/src/models/preprocessing.rs:141-150 | normalisation keeps the length and leaves the samples alone when the peak is not positive |
| Preprocessing.NormalizeAmplitude | rust/src/models/preprocessing.rs:141-150 | the in-place loop divides every sample by the peak taken once beforehand |
| Preprocessing.PreprocessAudio | rust/src/models/preprocessing.rs:133-170 | (corrected) a valid F32 tensor of shape `[n]` holding the normalised, resampled and windowed samples; without a window or a change of rate the shape is `[len(samples)]` |
| Preprocessing.AudioKeepsSamples | rust/src/models/preprocessing.rs:324-335 | without a window or a change of rate the output is the input, normalised when asked, one value per sample; under the default configuration that is the normalised input |
| Preprocessing.AudioWindowedLength | rust/src/models/preprocessing.rs:133-170 | with a window the output is window × count long, and empty when the window exceeds the samples |
| Sessions.NewMetadata | rust/src/models/session.rs:86-97 | every optional field is `None` and the custom map is empty |
| Sessions.WithModelPath | rust/src/models/session.rs:99-103 | sets only the path |
| Sessions.WithModelName | rust/src/models/session.rs:105-109 | sets only the name |
| Sessions.WithModelVersion | rust/src/models/session.rs:111-115 | sets only the version |
| Sessions.WithCustom | rust/src/models/session.rs:117-121 | inserts or overwrites one key, keeping the other keys and fields |
| Sessions.MetadataSettersCommute | rust/src/models/session.rs:99-121 | setters of different fields commute, and a later path wins |
| Sessions.WithCustomOverwrites | rust/src/models/session.rs:117-121 | a second value for a key replaces the first; different keys commute |
| Sessions.NewSession | rust/src/models/session.rs:21-27 | stores the model and engine type with no metadata |
| Sessions.WithMetadata | rust/src/models/session.rs:30-33 | sets the metadata and nothing else |
| Sessions.PredictBatch | rust/src/models/session.rs:41-44 | delegates to the model's batch prediction |
| Sessions.MetadataIsInert | rust/src/models/session.rs:30-58 | metadata changes neither predictions, specs nor the engine type |
| Sessions.NewBuilder | rust/src/models/session.rs:136-144 | no engine and empty metadata |
| Sessions.WithEngine | rust/src/models/session.rs:146-150 | sets only the engine |
| Sessions.BuilderWithMetadata | rust/src/models/session.rs:152-156 | sets only the metadata |
| Sessions.LoadFromPath | rust/src/models/session.rs:158-170 | without an engine `Configuration`; else the engine's load, with its error or a session of the engine's type whose metadata records the path |
| Sessions.LoadFromBytes | rust/src/models/session.rs:172-182 | without an engine `Configuration`; else the engine's load, keeping the builder's metadata |
| Sessions.LoadedSessionIsConsistent | rust/src/models/session.rs:158-182 | a loaded session's engine type is the type of the model inside it, and that is always Candle |
| Linfa.ConstructorsKeepParameters | rust/src/engines/linfa_engine.rs:47-105 | constructors and the session builder keep their parameters; the default is k-means with k = 3 |
| Linfa.LoadModel | rust/src/engines/linfa_engine.rs:227-233 | always `UnsupportedFormat` |
| Linfa.LoadFromBytes | rust/src/engines/linfa_engine.rs:235-240 | always `UnsupportedFormat` |
| Linfa.SupportsFormat | rust/src/engines/linfa_engine.rs:242-244 | true only for the Linfa format |
| Linfa.ToNdarray | rust/src/engines/linfa_engine.rs:55-68 | succeeds iff there is an F64 view of rank 2 with matching length; a non-F64 tensor gives the F64 message; errors are `InvalidTensorData` |
| Linfa.ToNdarrayOfValid | rust/src/engines/linfa_engine.rs:55-68 | on a valid tensor: succeeds iff F64 and rank 2, with the tensor's values |
| Linfa.TrainedSpecs | rust/src/engines/linfa_engine.rs:287-342 | one F64 input spec "features" with the training shape; one output spec `[Some(rows)]`, I32 for k-means and F64 for regression |
| Linfa.TrainOutcomes | rust/src/engines/linfa_engine.rs:108-126 | k-means ignores targets; the others without targets give `ModelLoad`; SVM and trees always fail with `UnsupportedFormat`; success needs a rank-2 F64 input |
| Linfa.TrainWithoutTargets | rust/src/engines/linfa_engine.rs:108-161 | with no targets training succeeds iff the algorithm is k-means, the input converts and fitting succeeds |
| Linfa.WrapI32 | rust/src/engines/linfa_engine.rs:80-85 | a cluster index is stored as its 32-bit wrap-around |
| Linfa.PredictDecodes | rust/src/engines/linfa_engine.rs:373-391 | prediction succeeds iff the input converts; k-means gives I32 cluster ids, regression F64 values |
| Linfa.PredictBatch | rust/src/engines/linfa_engine.rs:393-399 | the loop gives each input's own prediction in order, or stops at the first error |
| Candle.SupportsFormat | rust/src/engines/candle_engine.rs:343-345 | true exactly for SafeTensors and PyTorch |
| Candle.GateAgreesWithoutWrap | rust/src/engines/candle_engine.rs:238-258 | when `8 + L` does not overflow, the code as written agrees with the corrected gate |
| Candle.WrappedHeaderPanics | rust/src/engines/candle_engine.rs:238-258 | a header length for which `8 + L` overflows always makes the code as written panic |
| Candle.GateAgreesUnlessPanic | rust/src/engines/candle_engine.rs:238-258 | whenever the code as written does not panic, its verdict is the corrected gate's |
| Candle.AllOnesHeaderPanics | rust/src/engines/candle_engine.rs:238-258 | see Findings |
| Candle.MapDtype | rust/src/engines/candle_engine.rs:174-182 | F32→F32, F64→F64, I32 and I64→I64; any other dtype aborts with `UnsupportedFormat` |
| Candle.RoleOf | rust/src/engines/candle_engine.rs:193-210 | "input" in the lower-cased name makes an input spec; else "output" or "classifier" an output spec |
| Candle.LoadSafeTensorsFromBytes | rust/src/engines/candle_engine.rs:155-236 | the loading loop computes exactly `LoadSpec` |
| Candle.StepOutcome | rust/src/engines/candle_engine.rs:170-211 | one entry adds its name to the weights and its spec to the list of its role, or aborts |
| Candle.LoadPrefixCollects | rust/src/engines/candle_engine.rs:170-211 | after n entries: success iff all load, weights keyed by their names, specs in entry order by role |
| Candle.SpecsWithRoleShape | rust/src/engines/candle_engine.rs:193-210 | every collected spec has its role, fully fixed dimensions and no description |
| Candle.LoadedSpecs | rust/src/engines/candle_engine.rs:155-236 | after a load both spec lists are non-empty, the defaults standing in for an empty list |
| Candle.LoadModel | rust/src/engines/candle_engine.rs:321-331 | the extension dispatch computes exactly `LoadModelSpec` |
| Candle.LoadModelDispatch | rust/src/engines/candle_engine.rs:262-331 | only `safetensors` reads content; `pt`/`pth` are not implemented; other extensions are `UnsupportedFormat` |
| Candle.LoadFromBytes | rust/src/engines/candle_engine.rs:333-341 | (corrected) bytes failing the corrected gate give `UnsupportedFormat` and others are loaded; wherever the gate as written accepts or rejects, the result is the one the source gives |
| Candle.TensorToCandle | rust/src/engines/candle_engine.rs:414-432 | U8/U32/Bool give `Prediction`; otherwise shape and data are kept |
| Candle.FirstUsable | rust/src/engines/candle_engine.rs:488-502 | the first weight in iteration order that is 2-D with first dimension equal to the input's last, or none |
| Candle.ScalarInputPanics | rust/src/engines/candle_engine.rs:478-510 | see Findings |
| Candle.RunInferenceAgrees | rust/src/engines/candle_engine.rs:478-510 | on inputs of rank ≥ 1 the code as written and the corrected one agree |
| Candle.RunInferenceUsesUsableWeight | rust/src/engines/candle_engine.rs:478-510 | the result is the product with some usable weight, or the no-weight error when none is usable |
| Candle.RunInference | rust/src/engines/candle_engine.rs:478-510 | for inputs of rank at least 1 the search loop computes exactly `RunInferenceSpec` |
| Candle.ExtractWords | rust/src/engines/candle_engine.rs:446-464 | extraction failures carry the dtype label and reason |
| Candle.CandleToTensor | rust/src/engines/candle_engine.rs:434-476 | see Findings (corrected): an F32 tensor of the same shape holding the extracted values |
| Candle.WideResultsFailToConvert | rust/src/engines/candle_engine.rs:434-476 | see Findings |
| Candle.NarrowResultsAgree | rust/src/engines/candle_engine.rs:434-476 | for F32 results the code as written and the corrected one agree |
| Candle.Predict | rust/src/engines/candle_engine.rs:513-529 | computes exactly `PredictSpec`: convert the input, run the corrected inference, convert back to an F32 tensor |
| Candle.PredictBatch | rust/src/engines/candle_engine.rs:531-537 | maps `predict` over the inputs in order, stopping at the first error |
| Wrappers.NewWrapper | rust/src/engines/candle_engine/model_wrappers.rs:22-46 | one input and one F32 output spec `[None, Some(768)]` for BERT or `[None, Some(1000)]` for ResNet |
| Wrappers.Row | rust/src/engines/candle_engine/model_wrappers.rs:134-141 | the row has the output size, and entry j is the scaled input element `j mod len` |
| Wrappers.PredictSpec | rust/src/engines/candle_engine/model_wrappers.rs:120-150 | on defined inputs succeeds iff F32; non-F32 gives `InvalidTensorData`; output `[batch, size]` F32 |
| Wrappers.BertSpecMismatch | rust/src/engines/candle_engine/model_wrappers.rs:22-150 | every tensor matching BERT's own input spec is refused by its `predict` |
| Wrappers.PredictRows | rust/src/engines/candle_engine/model_wrappers.rs:136-141 | output (a, c) is the scaled input element `c mod len`, the same for every row |
| Wrappers.FillRows | rust/src/engines/candle_engine/model_wrappers.rs:134-142 | the nested loops fill the array with `batch` copies of one row |
| Wrappers.Predict | rust/src/engines/candle_engine/model_wrappers.rs:120-150 | computes exactly `PredictSpec` |
| Wrappers.PredictBatch | rust/src/engines/candle_engine/model_wrappers.rs:152-158 | maps `predict` over the inputs in order, stopping at the first error |
| Wrappers.SlashesToUnderscores | rust/src/engines/candle_engine/model_wrappers.rs:59-67 | every `/` becomes `_`, every other character is kept |
| Wrappers.HfNameParts | rust/src/engines/candle_engine/model_wrappers.rs:59-67 | the name is `hf_`, the repo without slashes, `_`, then the filename |
| Wrappers.LoadFromHuggingface | rust/src/engines/candle_engine/model_wrappers.rs:49-79 | hub errors become `ModelLoad`; a download renames input spec 0 and changes nothing else |
| Wrappers.EngineLoadFromHuggingface | rust/src/engines/candle_engine.rs:271-297 | a missing repo is `ModelLoad`, other architectures `UnsupportedFormat`, BERT/ResNet load their wrapper |
| Backends.PredictBatch | rust/src/engines/linfa_engine.rs:393-399 | every engine's batch is the first-error map of its `predict` |
| Backends.PredictBatchElementwise | rust/src/engines/linfa_engine.rs:393-399 | a batch succeeds iff every input does, with each input's prediction in order; else the first error |
| Backends.EngineFor | rust/src/engines/factory.rs:64-93 | the factory builds an engine of the requested type |
| Backends.PreferredEngineSupportsFormat | rust/src/engines/factory.rs:172-177 | the preferred engine of a format supports it, and the other engine does not |
| Backends.LoadModel | rust/src/engines/linfa_engine.rs:227-233 | a Linfa engine always refuses; a loaded model reports its engine's type |
| Backends.LoadFromBytes | rust/src/engines/candle_engine.rs:333-341 | Linfa always refuses; Candle refuses bytes failing its gate |
| Download.StreamAllBytes | rust/src/api/inference.rs:1049-1090 | with no failing chunk the buffer is all chunks and there is one record per chunk with the running total |
| Download.StreamFailsAt | rust/src/api/inference.rs:1049-1090 | the first failing chunk stops the stream with the bytes before it |
| Download.StreamStaysFailed | rust/src/api/inference.rs:1049-1090 | once a chunk has failed, later chunks change nothing |
| Download.DownloadWithProgress | rust/src/api/inference.rs:959-1113 | the callback download loop emits exactly the records of `Run` |
| Download.RunSucceeds | rust/src/api/inference.rs:959-1113 | Connecting, Downloading(0), one record per chunk, Processing, then Completed with total = downloaded |
| Download.RunConnectionFails | rust/src/api/inference.rs:959-1113 | a client failure stops after the Connecting record; a send failure or bad status adds one Failed record with zero bytes; the result is `ModelLoad` |
| Download.RunChunkFails | rust/src/api/inference.rs:959-1113 | a chunk error emits Failed with the bytes so far and returns `ModelLoad` |
| Download.RunEndsOnce | rust/src/api/inference.rs:959-1113 | the last record is Completed iff the download succeeds, and no earlier record is final |
| Download.Track | rust/src/api/inference.rs:120-264 | the tracked download starts with the Connecting record, whatever the connection does |
| Download.Finalise | rust/src/api/inference.rs:95-113 | success gives Completed keeping the last counters; failure gives Failed with zeros |
| Download.TrackedCompletion | rust/src/api/inference.rs:95-264 | a completed tracked download holds all chunks and the final record reports their length |
| Api.ParseEngineType | rust/src/api/inference.rs:1228-1237 | accepts exactly `candle` and `linfa` in any case, naming the parsed engine; otherwise `UnsupportedFormat` |
| Api.ParseEngineTypeInverts | rust/src/api/inference.rs:1228-1237 | every engine's lower-case name parses back to it; lower-casing the input first changes nothing |
| Api.ParseDataType | rust/src/api/inference.rs:1240-1252 | accepts the short or long name of every type but `Bool`, in any case |
| Api.ParseDataTypeReadsLongName | rust/src/api/inference.rs:1240-1252 | each type's long name parses back to it |
| Api.ParseDataTypeReadsShortName | rust/src/api/inference.rs:1240-1252 | each type's short name parses back to it |
| Api.ParseDataTypeRejectsBool | rust/src/api/inference.rs:1240-1252 | `bool` has a name but is refused |
| Api.IsEngineAvailable | rust/src/api/inference.rs:613-619 | true iff the name parses and that engine is compiled in |
| Api.AvailableEngineNames | rust/src/api/inference.rs:604-609 | the lower-cased names of the available engines, in order |
| Api.AvailableNamesAre | rust/src/api/inference.rs:604-609 | the list is `candle` when compiled in, then `linfa` when compiled in |
| Api.AvailableByLowerName | rust/src/api/inference.rs:613-619 | a lower-case name is available iff it is `candle` or `linfa` and that feature is on |
| Api.AvailableNamesAgree | rust/src/api/inference.rs:604-619 | a name is listed iff it is lower case and reported available |
| Api.DetectEngineNameFromPath | rust/src/api/inference.rs:623-626 | always `candle` |
| Api.DetectEngineNameFromBytes | rust/src/api/inference.rs:630-633 | `candle` iff either detector predicate holds, else `FormatDetection` |
| Api.CreateSessionInfo | rust/src/api/inference.rs:1215-1225 | carries the handle and the session's engine name |
| Api.ToInferenceResult | rust/src/api/inference.rs:543-550 | only F32 outputs convert, keeping values and shape |
| Api.ResultOfF32Tensor | rust/src/api/inference.rs:540-550 | a result built from values gives those values back |
| Api.InputTensor | rust/src/api/inference.rs:539-541 | succeeds iff the value count fits the shape, giving an F32 tensor of that shape |
| Cache.GetCacheDir | rust/src/api/inference.rs:1116-1130 | the first of `XDG_CACHE_HOME/inference`, `HOME/.cache/inference`, `APPDATA/inference/cache` whose variable is set; otherwise `ModelLoad` |
| Cache.Join | rust/src/api/inference.rs:1116-1130 | joining an absolute component replaces the base; otherwise base, one `/` and the component |
| Cache.CacheFileUnderDir | rust/src/api/inference.rs:1133-1167 | a relative key's file lies under the cache directory, and distinct keys get distinct files |
| Cache.CacheFileParent | rust/src/api/inference.rs:1133-1167 | a flat key's file sits directly in the cache directory; an absolute key escapes it |
| Cache.HexRoundTrip | rust/src/api/inference.rs:1170-1177 | the hex text of a number reads back as that number |
| Cache.UrlToCacheKey | rust/src/api/inference.rs:1170-1177 | keys start with `url_`, are relative and contain no `/` |
| Cache.UrlKeysDifferByHash | rust/src/api/inference.rs:1170-1177 | two URLs share a key iff their hashes are equal |
| Cache.Lookup | rust/src/api/inference.rs:1133-1148 | `None` for a missing or unreadable entry, else the stored bytes; no directory is an error |
| Cache.Save | rust/src/api/inference.rs:1151-1167 | write failures are swallowed; only the key's file can change |
| Cache.SaveThenLookup | rust/src/api/inference.rs:1133-1167 | a successful save is read back; other keys are unaffected |
| Cache.SubdirectoryKeyIsNotWritten | rust/src/api/inference.rs:1151-1167 | a key naming a missing subdirectory is not stored |
| Cache.Clear | rust/src/api/inference.rs:1180-1190 | removes exactly the files under the cache directory; a removal error is `ModelLoad` |
| Cache.ClearEmptiesCache | rust/src/api/inference.rs:1133-1190 | after a clear every lookup returns `None` |
| Cache.EntriesSizeStopsAtFailure | rust/src/api/inference.rs:1193-1212 | the size sum stops at the first failing directory entry |
| Cache.EntriesSizeAppend | rust/src/api/inference.rs:1193-1212 | with no failing entry in the first part, the size of two parts is the sum of their sizes |
| Inference.ChooseEngine | rust/src/api/inference.rs:349-368 | the requested engine when available, else some available engine; fails iff none is compiled in |
| Inference.RequestedEngine | rust/src/api/inference.rs:331-347 | a configured name is parsed; otherwise the detected engine |
| Inference.PrepareFromPath | rust/src/api/inference.rs:324-386 | a bad engine name propagates; a session is labelled with the requested engine and holds a Candle model |
| Inference.FormatForEngine | rust/src/api/inference.rs:414-424 | the format chosen for a named engine is one whose preferred engine it is |
| Inference.BytesEngineAndFormat | rust/src/api/inference.rs:403-424 | a named engine fixes the format without reading content; otherwise detection decides, and its `FormatDetection` error propagates |
| Inference.PrepareFromBytes | rust/src/api/inference.rs:398-433 | errors propagate; a session is labelled with the requested engine |
| Inference.NamedEngineLoadsBytesDirectly | rust/src/api/inference.rs:403-433 | with an available named engine the bytes go straight to that engine's loader |
| Inference.LabelFollowsRequest | rust/src/api/inference.rs:324-433 | asking for `linfa` with only Candle compiled in loads with Candle yet labels the session Linfa |
| Inference.FeatureTensor | rust/src/api/inference.rs:478-494 | the features tensor has shape `[rows, columns of row 0]` when the flattened length fits |
| Inference.UniformRowsMakeTensor | rust/src/api/inference.rs:478-494 | rectangular rows give a tensor holding the flattened rows |
| Inference.RaggedRowsAccepted | rust/src/api/inference.rs:478-494 | ragged rows of matching total length are accepted under the first row's width |
| Inference.ParseUsize | rust/src/api/inference.rs:484-488 | parsed values are below 2^64; empty and lone `+` are refused |
| Inference.ParseUsizeReadsDecimal | rust/src/api/inference.rs:484-488 | the decimal text of a value in range parses back to it |
| Inference.ParseUsizeAcceptsPlus | rust/src/api/inference.rs:484-488 | one leading `+` is accepted |
| Inference.ParseUsizeRejectsMinus | rust/src/api/inference.rs:484-488 | a leading `-` is refused |
| Inference.AlgorithmEngine | rust/src/api/inference.rs:482-505 | exactly the four algorithm names are accepted, and only `kmeans` gives k-means |
| Inference.AlgorithmDefaults | rust/src/api/inference.rs:482-505 | k defaults to 2 (also for unparsable text), c to 1.0, depth to none |
| Inference.TrainSpec | rust/src/api/inference.rs:466-528 | without the Linfa feature `Configuration`; a trained session is a Linfa model |
| Inference.OnlyKMeansTrains | rust/src/api/inference.rs:466-528 | training without targets succeeds only for `kmeans`; the other algorithms give `ModelLoad`, unknown ones `UnsupportedFormat` |
| Inference.PredictOn | rust/src/api/inference.rs:531-551 | an unknown handle is `Invalid session handle`; otherwise success iff the input converts and the model gives an F32 output |
| Inference.BatchOn | rust/src/api/inference.rs:554-584 | an unknown handle is `Invalid session handle` |
| Inference.BatchAgreesWithSingles | rust/src/api/inference.rs:531-584 | a batch succeeds iff every single prediction does, and then holds them in order |
| Inference.InfoOn | rust/src/api/inference.rs:587-593 | an unknown handle is `Invalid session handle`; otherwise the session's handle, engine and specs |
| Inference.DisposeEffects | rust/src/api/inference.rs:596-600 | after disposal the handle is invalid, other handles are unaffected, and disposing again changes nothing |
| Inference.ArchitectureFor | rust/src/api/inference.rs:679-686 | ResNet iff the repo names ResNet and not BERT; never another architecture |
| Inference.HfCacheKey | rust/src/api/inference.rs:736-746 | the Hugging Face cache key is relative and contains a `/` |
| Inference.HfHandleOverwrites | rust/src/api/inference.rs:720-733 | the handle as written is the table size: with live handles 2 and 3 it is 2, a live handle; with handles 0 and 1 it is 2, a fresh one; an empty table gives 0 |
| Inference.DownloadId | rust/src/api/inference.rs:58-66 | the id is repo, `_`, revision |
| Inference.DownloadIdsCollide | rust/src/api/inference.rs:58-66 | two different repo/revision pairs share one progress id |
| Inference.StartedDownloadOutcome | rust/src/api/inference.rs:95-113 | the final entry is Completed iff the download succeeded, reporting all bytes; failure gives Failed with zeros |
| Inference.Fetch | rust/src/api/inference.rs:636-658 | without caching it downloads; a failed fetch leaves the file system unchanged |
| Inference.CacheHitSkipsDownload | rust/src/api/inference.rs:641-655 | a cache hit returns the cached bytes whatever the connection would do |
| Inference.SecondFetchHits | rust/src/api/inference.rs:641-655 | fetching the same URL again after a successful cached fetch returns the same bytes from the cache |
| Inference.SumEntries | rust/src/api/inference.rs:1193-1212 | the size loop sums sizes up to the first failing entry |
| Inference.StreamNext | rust/src/api/inference.rs:210-245 | one more chunk either records the failure or appends its bytes and, if published, one progress record |
| Inference.Runtime.constructor | rust/src/api/inference.rs:267-270 | the counter starts at 1 with an empty table |
| Inference.Runtime.Register | rust/src/api/inference.rs:387-391 | the new handle is the old counter, absent from the table; the counter advances by one |
| Inference.Runtime.StoreAtLength | rust/src/api/inference.rs:720-729 | see Findings |
| Inference.Runtime.LoadModelWithConfig | rust/src/api/inference.rs:324-395 | a successful load is stored under the next handle; a failure changes nothing |
| Inference.Runtime.LoadModel | rust/src/api/inference.rs:319-321 | the default configuration, labelled `candle` |
| Inference.Runtime.LoadModelWithCandle | rust/src/api/inference.rs:444-460 | loading with Candle named, labelled `candle` |
| Inference.Runtime.LoadModelFromBytes | rust/src/api/inference.rs:398-441 | a successful load is stored under the next handle; a failure changes nothing |
| Inference.Runtime.TrainLinfaModel | rust/src/api/inference.rs:466-528 | a trained model is stored under the next handle; a failure changes nothing |
| Inference.Runtime.PredictBatch | rust/src/api/inference.rs:554-584 | computes exactly `BatchOn` on the current table |
| Inference.Runtime.DisposeSession | rust/src/api/inference.rs:596-600 | removes only that handle and always returns `Ok` |
| Inference.Runtime.SaveToCache | rust/src/api/inference.rs:1151-1167 | the file system becomes the result of `Save` |
| Inference.Runtime.ClearCache | rust/src/api/inference.rs:1180-1190 | the file system becomes the result of `Clear` |
| Inference.Runtime.GetCacheSize | rust/src/api/inference.rs:1193-1212 | 0 without a directory, the read error, or the sum of sizes up to the first failing entry |
| Inference.Runtime.LoadModelFromUrl | rust/src/api/inference.rs:636-658 | the fetched bytes are loaded and stored under the next handle; a failed fetch stores nothing |
| Inference.Runtime.LoadFromHuggingface | rust/src/api/inference.rs:666-748 | (corrected) with Candle a wrapper is registered under a fresh handle, or the file is downloaded and loaded; without Candle the file is fetched through the cache |
| Inference.Runtime.LoadFromHuggingfaceAsWritten | rust/src/api/inference.rs:666-748 | as written: a hub-loaded wrapper goes under `sessions.len()` with the counter unchanged, replacing a live session there without growing the table; the other paths are those of the corrected load |
| Inference.Runtime.GetDownloadProgress | rust/src/api/inference.rs:52-55 | the recorded progress of the id, if any |
| Inference.Runtime.StreamChunks | rust/src/api/inference.rs:210-245 | the chunk loop produces the stream's buffer and records, and leaves the last record in the table |
| Inference.Runtime.TrackDownload | rust/src/api/inference.rs:120-264 | the tracked download produces `Track`'s outcome and leaves its last record in the table |
| Inference.Runtime.StartDownloadWithProgress | rust/src/api/inference.rs:58-117 | returns the download id and finalises its table entry |

## Left out

- Floating point: progress percentages, the megabyte messages, image
  normalisations, the peak and division of amplitude normalisation,
  resampling and the wrappers' scale factors are parameters or opaque words.
- The tracked download's periodic update keeps its exact 1 MiB test, but its
  test on the floating-point percentage is a parameter `decile`.
- Lower-casing and alphanumeric tests beyond ASCII are parameters of the
  text preprocessing; `ToLower` covers ASCII only.
- Integer widths: the handle counter, `get_cache_size`'s `u64` sum and the
  `usize` products of image and tensor dimensions are unbounded here; their
  overflow is not modelled.
- Wrappers.Predict: requires a non-empty input buffer when the batch is
  positive (`Defined`), because the source divides by zero there; the same
  precondition (`CanPredict`) is carried by every batch prediction above it.
- Preprocessing.PreprocessImage: requires the mean and standard-deviation
  tables to cover every channel, because the source indexes them and panics
  otherwise.
- Preprocessing.PreprocessAudio: uses the corrected default hop (`HopOf`,
  see Findings). With a window of 0 or 1 samples, no explicit hop and a
  window that fits, the source loops forever; the model windows with a hop
  of 1 instead. It also requires the windowing to terminate, which excludes
  only an explicit hop of 0 with a window that fits, where the source loops
  forever too.
- Candle.LoadFromBytes: uses the corrected gate (see Findings). On a header
  length for which `8 + header_len` overflows, the source panics; the model
  returns `UnsupportedFormat` instead. `Backends.LoadFromBytes` inherits
  this.
- Inference.Runtime.LoadFromHuggingface: stores a hub-loaded wrapper under
  the next counter value (see Findings). The source stores it under
  `sessions.len()`; `LoadFromHuggingfaceAsWritten` models that path.
- Candle.RunInference: requires an input of rank at least 1; `Candle.Predict`
  answers rank 0 itself, as in the corrected behaviour under Findings.
- Foreign parsers and numerics (SafeTensors deserialisation, `serde_json`,
  `bincode`, Candle tensors and `matmul`, Linfa fitting and prediction,
  `f64` parsing, `DefaultHasher`) are parameters; so is the iteration order
  of a `HashMap`.
- I/O, the network, the clock and concurrency: file reads, environment
  variables, HTTP and the byte stream are values; the spawned download of
  `start_download_with_progress` runs to completion before the call
  returns; `RwLock` and the atomic counter become fields of one object.
- Device selection (CUDA or CPU) is a boolean; `ModelConfig`,
  `ResNetVariant` and the ONNX Runtime engine (`ort_engine.rs`) are not part
  of this model; `Ort` and `Onnx` are excluded by precondition.
- Paths: only `/` separators; Windows paths, `..` and normalisation are not
  modelled; `create_dir_all` creates just the cache file's parent.
- `SessionConfig`'s thread count and optimisation level are never read;
  `init_inference` and `println!` logging are omitted.
- `download_model_progress_stream`'s channel is not modelled.

## Findings

| source | as written | input that shows it | evidently intended | confidence | as-written member | corrected member |
|---|---|---|---|---|---|---|
| rust/src/models/preprocessing.rs:161-164 | the default hop is `window_size / 2`, and `apply_windowing` loops while a window fits | `window_size = Some(1)`, no hop, one sample: the hop is 0 and the loop never ends | a hop of at least 1 | not executed | Preprocessing.DefaultHopStalls | Preprocessing.DefaultHopStops |
| rust/src/engines/candle_engine.rs:238-258 | `8 + header_len` is computed in `usize` | eight `0xFF` bytes: the header length is 2^64 − 1 and the addition overflows (a panic in debug builds) | reject the buffer | not executed | Candle.AllOnesHeaderPanics | Candle.IsSafeTensorsFormat |
| rust/src/engines/candle_engine.rs:478-510 | `input_dims[input_dims.len() - 1]` | a rank-0 input tensor: the index underflows and panics | return the no-weight `Prediction` error | not executed | Candle.ScalarInputPanics | Candle.RunInferenceSpec |
| rust/src/engines/candle_engine.rs:434-476 | F64 and I64 results are narrowed to `f32` bytes but labelled F64/I64 | an F64 result of shape `[1]`: 4 bytes for an 8-byte type, so `Tensor::new` fails | label the converted result F32 | not executed | Candle.WideResultsFailToConvert | Candle.CandleToTensor |
| rust/src/api/inference.rs:720-733 | the Hugging Face session is stored under `sessions.len()` | live handles 2 and 3: the new session gets 2 and replaces a live one | take the next counter value like the other loads | not executed | Inference.Runtime.LoadFromHuggingfaceAsWritten | Inference.Runtime.LoadFromHuggingface |
