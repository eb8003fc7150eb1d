/// `Preprocessor`: image, text and audio inputs turned into `F32` tensors.
/// Floating-point arithmetic (the byte-to-float cast, the normalisations,
/// amplitude scaling and resampling) and the Unicode case and
/// alphanumeric tables are parameters; sizes, layout, order, tokenisation
/// and padding are modelled.
module Preprocessing {
  import opened Base
  import opened Errors
  import opened Tensors
  import opened Layout
  import Converters

  // ---------------------------------------------------------------------
  // Images

  datatype Normalization =
    | ZeroToOne
    | MinusOneToOne
    | ImageNet
    | Custom(mean: seq<F32Bits>, std: seq<F32Bits>)

  datatype ImageFormat = HWC | CHW

  datatype ImageConfig = ImageConfig(normalization: Option<Normalization>, format: ImageFormat)

  const DefaultImageConfig := ImageConfig(Some(ZeroToOne), HWC)

  /// The float value of one pixel byte after normalisation, given the
  /// normalisation in force and the byte's channel.
  type PixelFn = (Option<Normalization>, nat, byte) -> F32Bits

  /// The per-channel tables that `ImageNet` (three entries) and `Custom`
  /// index by channel have an entry for every channel; otherwise the
  /// indexing panics.
  predicate ChannelTablesCover(n: Option<Normalization>, channels: nat)
  {
    match n
    case Some(ImageNet) => channels <= 3
    case Some(Custom(mean, std)) => channels <= |mean| && channels <= |std|
    case _ => true
  }

  /// The normalised pixel values in HWC order; byte `i` is in channel
  /// `i % channels`.
  function Normalized(data: seq<byte>, channels: nat, n: Option<Normalization>, pixel: PixelFn): (r: seq<F32Bits>)
    requires channels > 0 || |data| == 0
    ensures |r| == |data|
  {
    seq(|data|, i requires 0 <= i < |data| => pixel(n, i % channels, data[i]))
  }

  function ImageSizeMessage(size: nat, width: nat, height: nat, channels: nat): string
  {
    "Image data size " + NatToString(size) + " doesn't match dimensions "
    + NatToString(width) + "x" + NatToString(height) + "x" + NatToString(channels)
  }

  /// What `preprocess_image` returns.
  function PreprocessImageSpec(data: seq<byte>, width: nat, height: nat, channels: nat,
                               config: ImageConfig, pixel: PixelFn): (r: Result<Tensor>)
    ensures r.Ok? <==> |data| == width * height * channels
    ensures r.Ok? ==> r.value.Valid() && r.value.dataType == F32
    ensures r.Ok? && config.format == HWC ==>
              r.value.shape == [height, width, channels]
              && ToF32Values(r.value) == Ok(Normalized(data, channels, config.normalization, pixel))
    ensures r.Ok? && config.format == CHW ==> r.value.shape == [channels, height, width]
    ensures r.Err? ==> r.error == InvalidTensorData(ImageSizeMessage(|data|, width, height, channels))
  {
    if |data| != width * height * channels then
      Err(InvalidTensorDataError(ImageSizeMessage(|data|, width, height, channels)))
    else
      var values := Normalized(data, channels, config.normalization, pixel);
      Converters.ProductOf3(height, width, channels);
      match config.format
      case HWC =>
        F32RoundTrip(values, [height, width, channels]);
        FromF32(values, [height, width, channels])
      case CHW =>
        FromF32(HwcToChwSeq(values, height, width, channels), [channels, height, width])
  }

  /// `preprocess_image`: a loop normalises every byte, then the CHW branch
  /// fills a fresh buffer by the HWC-to-CHW index map.
  method PreprocessImage(data: seq<byte>, width: nat, height: nat, channels: nat,
                         config: ImageConfig, pixel: PixelFn) returns (r: Result<Tensor>)
    requires |data| == width * height * channels && |data| > 0 ==>
               ChannelTablesCover(config.normalization, channels)
    ensures r == PreprocessImageSpec(data, width, height, channels, config, pixel)
  {
    if |data| != width * height * channels {
      return Err(InvalidTensorDataError(ImageSizeMessage(|data|, width, height, channels)));
    }
    assert channels > 0 || |data| == 0;
    ghost var spec := Normalized(data, channels, config.normalization, pixel);
    var processed := new F32Bits[|data|];
    for i := 0 to |data|
      invariant processed[..i] == spec[..i]
    {
      processed[i] := pixel(config.normalization, i % channels, data[i]);
    }
    assert processed[..] == spec;
    var values := processed[..];
    assert |values| == height * width * channels;
    match config.format {
      case HWC =>
        r := FromF32(values, [height, width, channels]);
      case CHW =>
        var chw := FillChw(values, height, width, channels, 0);
        r := FromF32(chw, [channels, height, width]);
    }
  }

  /// The CHW branch of `preprocess_image` is `hwc_to_chw` applied to the
  /// HWC result.
  lemma ChwBranchIsHwcToChw(data: seq<byte>, width: nat, height: nat, channels: nat,
                            n: Option<Normalization>, pixel: PixelFn)
    requires |data| == width * height * channels
    ensures PreprocessImageSpec(data, width, height, channels, ImageConfig(n, HWC), pixel).Ok?
    ensures Converters.HwcToChwValues(PreprocessImageSpec(data, width, height, channels, ImageConfig(n, HWC), pixel).value)
            == PreprocessImageSpec(data, width, height, channels, ImageConfig(n, CHW), pixel)
  {
    var t := PreprocessImageSpec(data, width, height, channels, ImageConfig(n, HWC), pixel).value;
    Converters.Words3(t);
  }

  // ---------------------------------------------------------------------
  // Text

  datatype TextConfig = TextConfig(
    lowercase: bool,
    removePunctuation: bool,
    maxLength: Option<nat>,
    vocabulary: Option<map<string, nat>>,
    unknownTokenId: nat,
    paddingTokenId: nat)

  const DefaultTextConfig := TextConfig(true, false, None, None, 0, 0)

  /// Unicode `White_Space`, the property `char::is_whitespace` and
  /// `str::split_whitespace` use.
  predicate IsWhitespace(c: char)
  {
    var u := c as int;
    (0x09 <= u <= 0x0D) || u == 0x20 || u == 0x85 || u == 0xA0 || u == 0x1680
    || (0x2000 <= u <= 0x200A) || u == 0x2028 || u == 0x2029 || u == 0x202F
    || u == 0x205F || u == 0x3000
  }

  predicate NoWhitespace(s: string)
  {
    forall i :: 0 <= i < |s| ==> !IsWhitespace(s[i])
  }

  /// The maximal runs of non-whitespace characters of `s`, the first one
  /// continuing the run `current` already read.
  function Runs(s: string, current: string): seq<string>
  {
    if |s| == 0 then
      (if current == [] then [] else [current])
    else if IsWhitespace(s[0]) then
      (if current == [] then [] else [current]) + Runs(s[1..], [])
    else
      Runs(s[1..], current + [s[0]])
  }

  /// `str::split_whitespace`.
  function SplitWhitespace(s: string): seq<string>
  {
    Runs(s, [])
  }

  function Concat(ts: seq<string>): string
  {
    if |ts| == 0 then [] else ts[0] + Concat(ts[1..])
  }

  function NonWhitespace(s: string): string
  {
    if |s| == 0 then [] else (if IsWhitespace(s[0]) then [] else [s[0]]) + NonWhitespace(s[1..])
  }

  /// Tokens separated by single spaces.
  function JoinSpaced(ts: seq<string>): string
  {
    if |ts| == 0 then [] else if |ts| == 1 then ts[0] else ts[0] + " " + JoinSpaced(ts[1..])
  }

  predicate WellFormedTokens(ts: seq<string>)
  {
    forall k :: 0 <= k < |ts| ==> |ts[k]| > 0 && NoWhitespace(ts[k])
  }

  lemma {:induction false} RunsWellFormed(s: string, current: string)
    requires NoWhitespace(current)
    ensures WellFormedTokens(Runs(s, current))
  {
    if |s| > 0 {
      if IsWhitespace(s[0]) {
        RunsWellFormed(s[1..], []);
      } else {
        RunsWellFormed(s[1..], current + [s[0]]);
      }
    }
  }

  lemma {:induction false} ConcatAppend(a: seq<string>, b: seq<string>)
    ensures Concat(a + b) == Concat(a) + Concat(b)
  {
    if |a| > 0 {
      assert (a + b)[0] == a[0];
      assert (a + b)[1..] == a[1..] + b;
      ConcatAppend(a[1..], b);
    } else {
      assert a + b == b;
    }
  }

  lemma {:induction false} RunsCover(s: string, current: string)
    ensures Concat(Runs(s, current)) == current + NonWhitespace(s)
  {
    if |s| == 0 {
      if current != [] {
        assert Concat([current]) == current + Concat([current][1..]);
      }
    } else if IsWhitespace(s[0]) {
      RunsCover(s[1..], []);
      var head := if current == [] then [] else [current];
      ConcatAppend(head, Runs(s[1..], []));
      if current != [] {
        assert Concat([current]) == current + Concat([current][1..]);
      }
    } else {
      RunsCover(s[1..], current + [s[0]]);
    }
  }

  /// `split_whitespace` yields non-empty tokens free of whitespace that,
  /// put back together, are the text with its whitespace removed.
  lemma SplitWhitespaceSpec(s: string)
    ensures WellFormedTokens(SplitWhitespace(s))
    ensures Concat(SplitWhitespace(s)) == NonWhitespace(s)
  {
    RunsWellFormed(s, []);
    RunsCover(s, []);
  }

  /// Reading a whitespace-free word extends the current run.
  lemma {:induction false} RunsOverWord(word: string, rest: string, current: string)
    requires NoWhitespace(word)
    ensures Runs(word + rest, current) == Runs(rest, current + word)
  {
    if |word| > 0 {
      assert (word + rest)[1..] == word[1..] + rest;
      assert current + [word[0]] + word[1..] == current + word;
      RunsOverWord(word[1..], rest, current + [word[0]]);
    } else {
      assert word + rest == rest;
      assert current + word == current;
    }
  }

  lemma {:induction false} RunsOfJoined(ts: seq<string>)
    requires WellFormedTokens(ts)
    ensures Runs(JoinSpaced(ts), []) == ts
  {
    if |ts| == 1 {
      RunsOverWord(ts[0], [], []);
      assert ts[0] + [] == ts[0];
    } else if |ts| > 1 {
      var rest := JoinSpaced(ts[1..]);
      assert ts[0] + " " + rest == ts[0] + (" " + rest);
      RunsOverWord(ts[0], " " + rest, []);
      assert [] + ts[0] == ts[0];
      assert (" " + rest)[0] == ' ' && (" " + rest)[1..] == rest;
      assert Runs(" " + rest, ts[0]) == [ts[0]] + Runs(rest, []);
      RunsOfJoined(ts[1..]);
      assert ts == [ts[0]] + ts[1..];
    }
  }

  /// Splitting tokens joined by spaces gives the tokens back.
  lemma SplitJoinRoundTrip(ts: seq<string>)
    requires WellFormedTokens(ts)
    ensures SplitWhitespace(JoinSpaced(ts)) == ts
  {
    RunsOfJoined(ts);
  }

  /// The number of bytes of `c` in UTF-8 (`str::len` counts bytes).
  function Utf8Width(c: char): (n: nat)
    ensures 1 <= n <= 4
  {
    if c as int < 0x80 then 1 else if c as int < 0x800 then 2 else if c as int < 0x10000 then 3 else 4
  }

  function Utf8Length(s: string): (n: nat)
    ensures |s| <= n <= 4 * |s|
  {
    if |s| == 0 then 0 else Utf8Width(s[0]) + Utf8Length(s[1..])
  }

  /// The id of one token: its vocabulary entry or the unknown id, or
  /// without a vocabulary its UTF-8 length modulo 1000.
  function TokenId(token: string, vocabulary: Option<map<string, nat>>, unknownTokenId: nat): (id: nat)
    ensures vocabulary.Some? && token in vocabulary.value ==> id == vocabulary.value[token]
    ensures vocabulary.Some? && token !in vocabulary.value ==> id == unknownTokenId
    ensures vocabulary.None? ==> id < 1000 && id == Utf8Length(token) % 1000
  {
    match vocabulary
    case Some(v) => if token in v then v[token] else unknownTokenId
    case None => Utf8Length(token) % 1000
  }

  /// The text after the optional lowercasing and punctuation removal;
  /// `lower` is `str::to_lowercase` and `isAlphanumeric` is
  /// `char::is_alphanumeric`.
  function CleanText(text: string, config: TextConfig, lower: string -> string,
                     isAlphanumeric: char -> bool): (r: string)
    ensures config.removePunctuation ==>
              forall i :: 0 <= i < |r| ==> isAlphanumeric(r[i]) || IsWhitespace(r[i])
    ensures !config.lowercase && !config.removePunctuation ==> r == text
  {
    var lowered := if config.lowercase then lower(text) else text;
    if config.removePunctuation then Keep(lowered, isAlphanumeric) else lowered
  }

  function Keep(s: string, isAlphanumeric: char -> bool): (r: string)
    ensures forall i :: 0 <= i < |r| ==> isAlphanumeric(r[i]) || IsWhitespace(r[i])
    ensures |r| <= |s|
  {
    if |s| == 0 then []
    else (if isAlphanumeric(s[0]) || IsWhitespace(s[0]) then [s[0]] else []) + Keep(s[1..], isAlphanumeric)
  }

  function IdValue(token: string, config: TextConfig, toF32: nat -> F32Bits): F32Bits
  {
    toF32(TokenId(token, config.vocabulary, config.unknownTokenId))
  }

  /// The float ids of the tokens of the cleaned text, before padding.
  function TokenValues(text: string, config: TextConfig, lower: string -> string,
                       isAlphanumeric: char -> bool, toF32: nat -> F32Bits): (r: seq<F32Bits>)
    ensures |r| == |SplitWhitespace(CleanText(text, config, lower, isAlphanumeric))|
  {
    var tokens := SplitWhitespace(CleanText(text, config, lower, isAlphanumeric));
    seq(|tokens|, k requires 0 <= k < |tokens| => IdValue(tokens[k], config, toF32))
  }

  /// `truncate` or `resize` to `maxLength`, padding with `pad`.
  function PadOrTruncate<T>(xs: seq<T>, maxLength: Option<nat>, pad: T): (r: seq<T>)
    ensures maxLength.None? ==> r == xs
    ensures maxLength.Some? ==> |r| == maxLength.value
    ensures forall i :: 0 <= i < |r| && i < |xs| ==> r[i] == xs[i]
    ensures forall i :: |xs| <= i < |r| ==> r[i] == pad
  {
    match maxLength
    case None => xs
    case Some(m) => if |xs| > m then xs[..m] else xs + seq(m - |xs|, _ => pad)
  }

  /// What `preprocess_text` returns.
  function PreprocessTextSpec(text: string, config: TextConfig, lower: string -> string,
                              isAlphanumeric: char -> bool, toF32: nat -> F32Bits): (t: Tensor)
    ensures t.Valid() && t.dataType == F32
    ensures config.maxLength.Some? ==> t.shape == [config.maxLength.value]
    ensures config.maxLength.None? ==>
              t.shape == [|SplitWhitespace(CleanText(text, config, lower, isAlphanumeric))|]
  {
    var values := PadOrTruncate(TokenValues(text, config, lower, isAlphanumeric, toF32),
                                config.maxLength, toF32(config.paddingTokenId));
    Converters.ProductOf1(|values|);
    FromF32(values, [|values|]).value
  }

  /// `preprocess_text`: tokenise, look up ids, then truncate or pad the id
  /// vector in place.
  method PreprocessText(text: string, config: TextConfig, lower: string -> string,
                        isAlphanumeric: char -> bool, toF32: nat -> F32Bits) returns (r: Result<Tensor>)
    ensures r == Ok(PreprocessTextSpec(text, config, lower, isAlphanumeric, toF32))
  {
    var finalTokens := TokenValues(text, config, lower, isAlphanumeric, toF32);
    if config.maxLength.Some? {
      var maxLength := config.maxLength.value;
      if |finalTokens| > maxLength {
        finalTokens := finalTokens[..maxLength];
      } else {
        finalTokens := finalTokens + seq(maxLength - |finalTokens|, _ => toF32(config.paddingTokenId));
      }
    }
    var length := |finalTokens|;
    Converters.ProductOf1(length);
    assert finalTokens == PadOrTruncate(TokenValues(text, config, lower, isAlphanumeric, toF32),
                                        config.maxLength, toF32(config.paddingTokenId));
    r := FromF32(finalTokens, [length]);
  }

  /// The values of a preprocessed text: the ids of its first tokens, then
  /// padding.
  lemma TextValues(text: string, config: TextConfig, lower: string -> string,
                   isAlphanumeric: char -> bool, toF32: nat -> F32Bits, i: nat)
    requires i < PreprocessTextSpec(text, config, lower, isAlphanumeric, toF32).shape[0]
    ensures var tokens := SplitWhitespace(CleanText(text, config, lower, isAlphanumeric));
            var values := ToF32Values(PreprocessTextSpec(text, config, lower, isAlphanumeric, toF32));
            values.Ok? && i < |values.value|
            && (i < |tokens| ==> values.value[i] == toF32(TokenId(tokens[i], config.vocabulary, config.unknownTokenId)))
            && (i >= |tokens| ==> values.value[i] == toF32(config.paddingTokenId))
  {
    var vs := PadOrTruncate(TokenValues(text, config, lower, isAlphanumeric, toF32),
                            config.maxLength, toF32(config.paddingTokenId));
    Converters.ProductOf1(|vs|);
    F32RoundTrip(vs, [|vs|]);
  }

  // ---------------------------------------------------------------------
  // Audio

  datatype AudioConfig = AudioConfig(
    normalize: bool,
    targetSampleRate: Option<nat>,
    windowSize: Option<nat>,
    hopSize: Option<nat>)

  const DefaultAudioConfig := AudioConfig(true, None, None, None)

  /// The windowing loop stops: it advances, or its first window already
  /// does not fit.
  predicate WindowingStops(n: nat, window: nat, hop: nat)
  {
    hop > 0 || window > n
  }

  /// The windows `samples[pos + k*hop .. pos + k*hop + window]`, in order,
  /// while they fit.
  function WindowsFrom(samples: seq<F32Bits>, window: nat, hop: nat, pos: nat): seq<F32Bits>
    requires hop > 0 || pos + window > |samples|
    decreases |samples| - pos
  {
    if pos + window > |samples| then []
    else samples[pos..pos + window] + WindowsFrom(samples, window, hop, pos + hop)
  }

  /// How many windows fit from `pos` on.
  function WindowCount(n: nat, window: nat, hop: nat, pos: nat): nat
    requires hop > 0 || pos + window > n
    decreases n - pos
  {
    if pos + window > n then 0 else 1 + WindowCount(n, window, hop, pos + hop)
  }

  lemma {:induction false} WindowsLength(samples: seq<F32Bits>, window: nat, hop: nat, pos: nat)
    requires hop > 0 || pos + window > |samples|
    ensures |WindowsFrom(samples, window, hop, pos)| == window * WindowCount(|samples|, window, hop, pos)
    decreases |samples| - pos
  {
    if pos + window <= |samples| {
      WindowsLength(samples, window, hop, pos + hop);
      var c := WindowCount(|samples|, window, hop, pos + hop);
      assert window * (1 + c) == window + window * c;
    }
  }

  /// Window `k` starts at `pos + k*hop`, and exactly the `k` whose window
  /// fits are counted.
  lemma {:induction false} WindowCountIff(n: nat, window: nat, hop: nat, pos: nat, k: nat)
    requires hop > 0
    ensures k < WindowCount(n, window, hop, pos) <==> pos + Flat(k, 0, hop) + window <= n
    decreases k
  {
    if k > 0 && pos + window <= n {
      WindowCountIff(n, window, hop, pos + hop, k - 1);
      assert Flat(k, 0, hop) == hop + Flat(k - 1, 0, hop);
    } else if k > 0 {
      assert Flat(k, 0, hop) >= 0;
    }
  }

  /// Entry `j` of window `k` is sample `pos + k*hop + j`.
  lemma {:induction false} WindowsAt(samples: seq<F32Bits>, window: nat, hop: nat, pos: nat, k: nat, j: nat)
    requires hop > 0 || pos + window > |samples|
    requires k < WindowCount(|samples|, window, hop, pos) && j < window
    ensures pos + Flat(k, 0, hop) + j < |samples|
    ensures Flat(k, j, window) < |WindowsFrom(samples, window, hop, pos)|
    ensures WindowsFrom(samples, window, hop, pos)[Flat(k, j, window)] == samples[pos + Flat(k, 0, hop) + j]
    decreases k
  {
    var first := samples[pos..pos + window];
    var rest := WindowsFrom(samples, window, hop, pos + hop);
    assert WindowsFrom(samples, window, hop, pos) == first + rest;
    if k == 0 {
      assert Flat(0, j, window) == j && Flat(0, 0, hop) == 0;
    } else {
      WindowsAt(samples, window, hop, pos + hop, k - 1, j);
      FlatStep(k - 1, 0, hop);
      FlatStep(k - 1, j, window);
    }
  }

  /// `apply_windowing`.
  method ApplyWindowing(samples: seq<F32Bits>, window: nat, hop: nat) returns (windowed: seq<F32Bits>)
    requires WindowingStops(|samples|, window, hop)
    ensures windowed == WindowsFrom(samples, window, hop, 0)
    ensures |windowed| == window * WindowCount(|samples|, window, hop, 0)
  {
    windowed := [];
    var pos := 0;
    while pos + window <= |samples|
      invariant hop > 0 || pos + window > |samples|
      invariant windowed + WindowsFrom(samples, window, hop, pos) == WindowsFrom(samples, window, hop, 0)
      decreases |samples| - pos
    {
      windowed := windowed + samples[pos..pos + window];
      pos := pos + hop;
    }
    WindowsLength(samples, window, hop, 0);
  }

  /// The default hop as written: half the window.
  function DefaultHopAsWritten(window: nat): nat
  {
    window / 2
  }

  /// With a window of 0 or 1 samples and no explicit hop, the default hop
  /// is 0: whenever the first window fits, the loop never advances and so
  /// never stops.
  lemma DefaultHopStalls(n: nat, window: nat, iterations: nat)
    requires window <= 1 && window <= n
    ensures !WindowingStops(n, window, DefaultHopAsWritten(window))
    ensures Flat(iterations, 0, DefaultHopAsWritten(window)) + window <= n
  {
  }

  /// The default hop with a floor of one sample.
  function DefaultHop(window: nat): (hop: nat)
    ensures hop >= 1
    ensures window >= 2 ==> hop == DefaultHopAsWritten(window)
  {
    if window / 2 == 0 then 1 else window / 2
  }

  /// With the corrected default, windowing without an explicit hop always
  /// stops.
  lemma DefaultHopStops(n: nat, window: nat)
    ensures WindowingStops(n, window, DefaultHop(window))
  {
  }

  /// The float arithmetic of `preprocess_audio`, given as parameters.
  datatype AudioArithmetic = AudioArithmetic(
    /// the largest absolute sample, folded with `f32::max` from `0.0`
    peak: seq<F32Bits> -> F32Bits,
    /// `max_amplitude > 0.0`
    positive: F32Bits -> bool,
    /// `sample / max_amplitude`
    divide: (F32Bits, F32Bits) -> F32Bits,
    /// `resample_audio(samples, from_rate, to_rate)`
    resample: (seq<F32Bits>, nat, nat) -> seq<F32Bits>)

  /// Amplitude normalisation: every sample divided by the peak when the
  /// peak is positive, the samples untouched otherwise.
  function AmplitudeNormalized(samples: seq<F32Bits>, ar: AudioArithmetic): (out: seq<F32Bits>)
    ensures |out| == |samples|
    ensures !ar.positive(ar.peak(samples)) ==> out == samples
  {
    var peak := ar.peak(samples);
    if ar.positive(peak) then seq(|samples|, i requires 0 <= i < |samples| => ar.divide(samples[i], peak))
    else samples
  }

  /// The samples after amplitude normalisation and resampling.
  function PreparedSamples(samples: seq<F32Bits>, sampleRate: nat, config: AudioConfig,
                           ar: AudioArithmetic): seq<F32Bits>
  {
    var normalized := if config.normalize then AmplitudeNormalized(samples, ar) else samples;
    match config.targetSampleRate
    case Some(target) => if target != sampleRate then ar.resample(normalized, sampleRate, target) else normalized
    case None => normalized
  }

  /// The hop the windowing uses: the configured one, else the corrected
  /// default, which is the default as written for every window of at
  /// least two samples.
  function HopOf(config: AudioConfig): (hop: nat)
    requires config.windowSize.Some?
    ensures config.hopSize.None? ==> hop >= 1
    ensures config.hopSize.Some? || config.windowSize.value >= 2
            ==> hop == config.hopSize.GetOr(DefaultHopAsWritten(config.windowSize.value))
  {
    config.hopSize.GetOr(DefaultHop(config.windowSize.value))
  }

  /// What `preprocess_audio` returns: the prepared samples, windowed when
  /// a window size is configured.
  function AudioValues(samples: seq<F32Bits>, sampleRate: nat, config: AudioConfig,
                       ar: AudioArithmetic): seq<F32Bits>
    requires config.windowSize.Some? ==>
               WindowingStops(|PreparedSamples(samples, sampleRate, config, ar)|,
                              config.windowSize.value, HopOf(config))
  {
    var prepared := PreparedSamples(samples, sampleRate, config, ar);
    match config.windowSize
    case Some(window) => WindowsFrom(prepared, window, HopOf(config), 0)
    case None => prepared
  }

  /// The normalisation loop of `preprocess_audio`: the peak is taken once,
  /// then every sample is divided by it in place.
  method NormalizeAmplitude(samples: seq<F32Bits>, ar: AudioArithmetic) returns (out: seq<F32Bits>)
    ensures out == AmplitudeNormalized(samples, ar)
  {
    out := samples;
    var peak := ar.peak(samples);
    if ar.positive(peak) {
      var i := 0;
      while i < |out|
        invariant 0 <= i <= |out| == |samples|
        invariant out == AmplitudeNormalized(samples, ar)[..i] + samples[i..]
      {
        out := out[i := ar.divide(out[i], peak)];
        i := i + 1;
      }
    }
  }

  /// `preprocess_audio`. An explicit hop of 0 with a window that fits
  /// makes the source loop forever; callers must not ask for that.
  method PreprocessAudio(samples: seq<F32Bits>, sampleRate: nat, config: AudioConfig,
                         ar: AudioArithmetic) returns (r: Result<Tensor>)
    requires config.windowSize.Some? ==>
               WindowingStops(|PreparedSamples(samples, sampleRate, config, ar)|,
                              config.windowSize.value, HopOf(config))
    ensures r.Ok? && r.value.Valid() && r.value.dataType == F32
    ensures var values := AudioValues(samples, sampleRate, config, ar);
            r.value.shape == [|values|] && ToF32Values(r.value) == Ok(values)
    ensures config.windowSize.None? && (config.targetSampleRate.None? || config.targetSampleRate == Some(sampleRate))
            ==> r.value.shape == [|samples|]
  {
    var processed := samples;
    if config.normalize {
      processed := NormalizeAmplitude(processed, ar);
    }
    if config.targetSampleRate.Some? && config.targetSampleRate.value != sampleRate {
      processed := ar.resample(processed, sampleRate, config.targetSampleRate.value);
    }
    if config.windowSize.Some? {
      var hop := config.hopSize.GetOr(DefaultHop(config.windowSize.value));
      processed := ApplyWindowing(processed, config.windowSize.value, hop);
    }
    var length := |processed|;
    Converters.ProductOf1(length);
    F32RoundTrip(processed, [length]);
    r := FromF32(processed, [length]);
  }

  /// Without a window and without a change of rate, the output is the
  /// input, normalised when asked, sample for sample; under the default
  /// configuration that is the normalised input.
  lemma AudioKeepsSamples(samples: seq<F32Bits>, sampleRate: nat, config: AudioConfig, ar: AudioArithmetic)
    requires config.windowSize.None?
    requires config.targetSampleRate.None? || config.targetSampleRate == Some(sampleRate)
    ensures |AudioValues(samples, sampleRate, config, ar)| == |samples|
    ensures AudioValues(samples, sampleRate, config, ar)
            == (if config.normalize then AmplitudeNormalized(samples, ar) else samples)
    ensures config == DefaultAudioConfig ==> AudioValues(samples, sampleRate, config, ar) == AmplitudeNormalized(samples, ar)
  {
  }

  /// With a window, the output holds `window` samples per window that fits.
  lemma AudioWindowedLength(samples: seq<F32Bits>, sampleRate: nat, config: AudioConfig,
                            ar: AudioArithmetic)
    requires config.windowSize.Some?
    requires WindowingStops(|PreparedSamples(samples, sampleRate, config, ar)|,
                            config.windowSize.value, HopOf(config))
    ensures var n := |PreparedSamples(samples, sampleRate, config, ar)|;
            |AudioValues(samples, sampleRate, config, ar)|
            == config.windowSize.value * WindowCount(n, config.windowSize.value, HopOf(config), 0)
    ensures config.windowSize.value > |PreparedSamples(samples, sampleRate, config, ar)|
            ==> AudioValues(samples, sampleRate, config, ar) == []
  {
    WindowsLength(PreparedSamples(samples, sampleRate, config, ar),
                  config.windowSize.value, HopOf(config), 0);
  }
}
