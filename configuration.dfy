/**
 * The configuration classes of InternS1: the time-series encoder config and its
 * `from_pretrained` unwrapping, the time-series chat config and its fixed-key
 * `to_dict`, the vision config with its size normalisation, and the composite
 * InternS1Config that dispatches each sub-config argument on its kind.
 *
 * A configuration is a value built by a constructor function from its keyword
 * arguments; an argument that is not passed is `None` and takes the default
 * the Python signature gives it. A constructor that can fail an `assert`
 * returns a Result.
 */
module Configuration {
  import opened Outcomes
  import TimeSeriesLengths
  import VisionShapes

  /** The values a configuration dictionary holds. */
  datatype Json =
    | JNull
    | JBool(b: bool)
    | JInt(i: int)
    | JStr(s: string)
    | JList(items: seq<Json>)
    | JObject(fields: map<string, Json>)

  type Dict = map<string, Json>

  /** A keyword argument, or its default when it is not passed. */
  function Or<T>(o: Option<T>, dflt: T): T {
    if o.Some? then o.value else dflt
  }

  // ---------------------------------------------------------------------------
  // InternTimeSeriesEncoderConfig
  // ---------------------------------------------------------------------------

  const TS_ENCODER_MODEL_TYPE := "intern_time_series_encoder"

  datatype TsEncoderConfig = TsEncoderConfig(
    adaptInDim: int, adaptOutDim: int, hiddenDim: int,
    cnnChannels: seq<int>, cnnKernelSizes: seq<int>, cnnStrides: seq<int>, cnnPaddings: seq<int>,
    concatInChannels: int, concatSize: int, useFlashAttn: bool)

  /** The keyword arguments of InternTimeSeriesEncoderConfig.__init__. */
  datatype TsEncoderArgs = TsEncoderArgs(
    adaptInDim: Option<int>, adaptOutDim: Option<int>, hiddenDim: Option<int>,
    cnnChannels: Option<seq<int>>, cnnKernelSizes: Option<seq<int>>,
    cnnStrides: Option<seq<int>>, cnnPaddings: Option<seq<int>>,
    concatInChannels: Option<int>, concatSize: Option<int>, useFlashAttn: Option<bool>)

  const NO_TS_ENCODER_ARGS := TsEncoderArgs(None, None, None, None, None, None, None, None, None, None)

  /** The configuration every default argument gives. */
  const DEFAULT_TS_ENCODER := TsEncoderConfig(
    256, 1024, 1024, [1, 32, 64, 128, 128], [3, 5, 5, 5], [2, 4, 4, 5], [1, 2, 2, 2], 128, 2, false)

  /** The arguments that reproduce a given configuration. */
  function ArgsOfTsEncoder(c: TsEncoderConfig): TsEncoderArgs {
    TsEncoderArgs(Some(c.adaptInDim), Some(c.adaptOutDim), Some(c.hiddenDim),
      Some(c.cnnChannels), Some(c.cnnKernelSizes), Some(c.cnnStrides), Some(c.cnnPaddings),
      Some(c.concatInChannels), Some(c.concatSize), Some(c.useFlashAttn))
  }

  /** InternTimeSeriesEncoderConfig(**args): the fields are stored, then the
      adapter output width must equal the hidden width (AssertionError), and the
      concat subsampling input must equal the last CNN channel count; an empty
      channel list fails that lookup with IndexError. */
  function NewTsEncoderConfig(a: TsEncoderArgs): (r: Result<TsEncoderConfig>)
    ensures
      var channels := Or(a.cnnChannels, DEFAULT_TS_ENCODER.cnnChannels);
      && (r.Ok? <==>
            Or(a.adaptOutDim, 1024) == Or(a.hiddenDim, 1024)
            && |channels| > 0
            && Or(a.concatInChannels, 128) == channels[|channels| - 1])
      && (r.Err? && Or(a.adaptOutDim, 1024) != Or(a.hiddenDim, 1024) ==> r.error.AssertionError?)
      && (r.Err? && Or(a.adaptOutDim, 1024) == Or(a.hiddenDim, 1024) && |channels| == 0 ==> r.error.IndexError?)
      && (r.Err? && |channels| > 0 ==> r.error.AssertionError?)
    ensures r.Ok? ==>
      && r.value.adaptInDim == Or(a.adaptInDim, 256)
      && r.value.adaptOutDim == Or(a.adaptOutDim, 1024)
      && r.value.hiddenDim == Or(a.hiddenDim, 1024)
      && r.value.cnnChannels == Or(a.cnnChannels, DEFAULT_TS_ENCODER.cnnChannels)
      && r.value.cnnKernelSizes == Or(a.cnnKernelSizes, DEFAULT_TS_ENCODER.cnnKernelSizes)
      && r.value.cnnStrides == Or(a.cnnStrides, DEFAULT_TS_ENCODER.cnnStrides)
      && r.value.cnnPaddings == Or(a.cnnPaddings, DEFAULT_TS_ENCODER.cnnPaddings)
      && r.value.concatInChannels == Or(a.concatInChannels, 128)
      && r.value.concatSize == Or(a.concatSize, 2)
      && r.value.useFlashAttn == Or(a.useFlashAttn, false)
  {
    var c := TsEncoderConfig(
      Or(a.adaptInDim, 256), Or(a.adaptOutDim, 1024), Or(a.hiddenDim, 1024),
      Or(a.cnnChannels, DEFAULT_TS_ENCODER.cnnChannels), Or(a.cnnKernelSizes, DEFAULT_TS_ENCODER.cnnKernelSizes),
      Or(a.cnnStrides, DEFAULT_TS_ENCODER.cnnStrides), Or(a.cnnPaddings, DEFAULT_TS_ENCODER.cnnPaddings),
      Or(a.concatInChannels, 128), Or(a.concatSize, 2), Or(a.useFlashAttn, false));
    if c.adaptOutDim != c.hiddenDim then
      Err(AssertionError("ts_adapt_out_dim should be equal to ts_hidden_dim"))
    else if |c.cnnChannels| == 0 then
      Err(IndexError("list index out of range"))
    else if c.concatInChannels != c.cnnChannels[|c.cnnChannels| - 1] then
      Err(AssertionError("ts_concat_subsampling_in_channels should be equal to the out_channel of the last cnn layer"))
    else Ok(c)
  }

  /** Passing back every field of an accepted configuration rebuilds it. */
  lemma TsEncoderArgsRoundTrip(a: TsEncoderArgs)
    requires NewTsEncoderConfig(a).Ok?
    ensures NewTsEncoderConfig(ArgsOfTsEncoder(NewTsEncoderConfig(a).value)) == NewTsEncoderConfig(a)
  {
  }

  /** The default configuration passes both assertions, and its CNN lists pass
      the Conv1dSubsampling length check. */
  lemma DefaultTsEncoderIsValid()
    ensures NewTsEncoderConfig(NO_TS_ENCODER_ARGS) == Ok(DEFAULT_TS_ENCODER)
    ensures TimeSeriesLengths.LayerListsAgree(
      DEFAULT_TS_ENCODER.cnnChannels, DEFAULT_TS_ENCODER.cnnKernelSizes,
      DEFAULT_TS_ENCODER.cnnStrides, DEFAULT_TS_ENCODER.cnnPaddings)
  {
  }

  /** The conv layers Conv1dSubsampling builds from a configuration: layer i
      maps channels[i] to channels[i+1] with the i-th kernel, stride and padding. */
  predicate BuiltFrom(layers: seq<TimeSeriesLengths.ConvLayer>, c: TsEncoderConfig) {
    && |layers| == |c.cnnChannels| - 1
    && |c.cnnKernelSizes| >= |layers| && |c.cnnStrides| >= |layers| && |c.cnnPaddings| >= |layers|
    && forall i :: 0 <= i < |layers| ==>
         layers[i] == TimeSeriesLengths.ConvLayer(c.cnnChannels[i], c.cnnChannels[i + 1],
                        c.cnnKernelSizes[i], c.cnnStrides[i], c.cnnPaddings[i])
  }

  lemma BuiltLayer(layers: seq<TimeSeriesLengths.ConvLayer>, c: TsEncoderConfig, i: nat)
    requires BuiltFrom(layers, c) && i < |layers|
    ensures layers[i] == TimeSeriesLengths.ConvLayer(c.cnnChannels[i], c.cnnChannels[i + 1],
                           c.cnnKernelSizes[i], c.cnnStrides[i], c.cnnPaddings[i])
  {
  }

  /** The conv stack of the default configuration is the one the hardcoded
      x_lens formula encodes. */
  lemma DefaultLayersMatchFormula(layers: seq<TimeSeriesLengths.ConvLayer>, l: int)
    requires BuiltFrom(layers, DEFAULT_TS_ENCODER)
    ensures TimeSeriesLengths.PositiveStrides(layers)
    ensures TimeSeriesLengths.FramesThrough(layers, l) == TimeSeriesLengths.ConvStackLength(l)
  {
    var c := DEFAULT_TS_ENCODER;
    assert c.cnnChannels == [1, 32, 64, 128, 128] && c.cnnKernelSizes == [3, 5, 5, 5];
    assert c.cnnStrides == [2, 4, 4, 5] && c.cnnPaddings == [1, 2, 2, 2];
    assert |layers| == 4;
    BuiltLayer(layers, c, 0);
    BuiltLayer(layers, c, 1);
    BuiltLayer(layers, c, 2);
    BuiltLayer(layers, c, 3);
    assert layers[0] == TimeSeriesLengths.ConvLayer(1, 32, 3, 2, 1);
    assert layers[1] == TimeSeriesLengths.ConvLayer(32, 64, 5, 4, 2);
    assert layers[2] == TimeSeriesLengths.ConvLayer(64, 128, 5, 4, 2);
    assert layers[3] == TimeSeriesLengths.ConvLayer(128, 128, 5, 5, 2);
    TimeSeriesLengths.DefaultStackMatchesFormula(layers, l);
  }

  /** What the second assertion secures: in an accepted configuration with at
      least one conv layer, the last layer's output width is the concat
      subsampling's input width. */
  lemma AcceptedConfigChainsIntoConcat(a: TsEncoderArgs, layers: seq<TimeSeriesLengths.ConvLayer>)
    requires NewTsEncoderConfig(a).Ok?
    requires BuiltFrom(layers, NewTsEncoderConfig(a).value) && |layers| > 0
    ensures layers[|layers| - 1].outChannels == NewTsEncoderConfig(a).value.concatInChannels
  {
    var c := NewTsEncoderConfig(a).value;
    var n := |layers| - 1;
    assert layers[n].outChannels == c.cnnChannels[n + 1];
  }

  /** InternTimeSeriesEncoderConfig.from_pretrained, after the dictionary is
      loaded: a dictionary holding "ts_encoder_config" (a composite checkpoint)
      is replaced by that nested value, which must itself be a dictionary for
      the keyword-argument call that follows (TypeError otherwise). */
  function UnwrapEncoderDict(d: Dict): (r: Result<Dict>)
    ensures "ts_encoder_config" !in d ==> r == Ok(d)
    ensures "ts_encoder_config" in d ==>
      && (r.Ok? <==> d["ts_encoder_config"].JObject?)
      && (r.Ok? ==> r.value == d["ts_encoder_config"].fields)
      && (r.Err? ==> r.error.TypeError?)
  {
    if "ts_encoder_config" in d then
      match d["ts_encoder_config"]
      case JObject(fields) => Ok(fields)
      case _ => Err(TypeError("argument after ** must be a mapping"))
    else Ok(d)
  }

  /** An encoder dictionary stored under "ts_encoder_config" of any outer
      dictionary is recovered exactly, whatever else the outer one holds. */
  lemma UnwrapRecoversNested(outer: Dict, inner: Dict)
    ensures UnwrapEncoderDict(outer["ts_encoder_config" := JObject(inner)]) == Ok(inner)
  {
  }

  /** Unwrapping happens once: a nested dictionary that again holds the key is
      passed on with the key still in it. */
  lemma UnwrapIsSingleLevel(inner: Dict)
    requires "ts_encoder_config" in inner
    ensures UnwrapEncoderDict(map["ts_encoder_config" := JObject(inner)]).Ok?
    ensures "ts_encoder_config" in UnwrapEncoderDict(map["ts_encoder_config" := JObject(inner)]).value
  {
  }

  // ---------------------------------------------------------------------------
  // InternTSChatConfig
  // ---------------------------------------------------------------------------

  const CHAT_MODEL_TYPE := "interts_chat"

  /** Where a sub-config of the chat config comes from: the defaults, or a
      pretrained path (whose loading is file I/O). */
  datatype TsConfigSource = TsDefault(config: TsEncoderConfig) | TsFromPath(path: string)
  datatype LlmConfigSource = LlmDefaultQwen2 | LlmFromPath(path: string)

  datatype TsChatConfig = TsChatConfig(
    llmModelPath: Option<string>, tsModelPath: Option<string>,
    useBackboneLora: int, useLlmLora: int, selectLayer: int,
    template: string, adapterType: string,
    tsConfig: TsConfigSource, llmConfig: LlmConfigSource)

  /** The keyword arguments of InternTSChatConfig.__init__. */
  datatype TsChatArgs = TsChatArgs(
    llmModelPath: Option<string>, tsModelPath: Option<string>,
    useBackboneLora: Option<int>, useLlmLora: Option<int>, selectLayer: Option<int>,
    template: Option<string>, adapterType: Option<string>)

  /** InternTSChatConfig(**args): no path gives the default sub-config, a path
      names the pretrained one. */
  function NewTsChatConfig(a: TsChatArgs): (c: TsChatConfig)
    ensures c.llmModelPath == a.llmModelPath && c.tsModelPath == a.tsModelPath
    ensures c.tsModelPath.None? <==> c.tsConfig.TsDefault?
    ensures c.tsConfig.TsDefault? ==> Ok(c.tsConfig.config) == NewTsEncoderConfig(NO_TS_ENCODER_ARGS)
    ensures c.tsConfig.TsFromPath? ==> c.tsConfig.path == c.tsModelPath.value
    ensures c.llmModelPath.None? <==> c.llmConfig.LlmDefaultQwen2?
    ensures c.llmConfig.LlmFromPath? ==> c.llmConfig.path == c.llmModelPath.value
    ensures c.useBackboneLora == Or(a.useBackboneLora, 0) && c.useLlmLora == Or(a.useLlmLora, 0)
    ensures c.selectLayer == Or(a.selectLayer, -1)
    ensures c.template == Or(a.template, "internts") && c.adapterType == Or(a.adapterType, "mlp")
  {
    var ts := if a.tsModelPath.None? then TsDefault(DEFAULT_TS_ENCODER) else TsFromPath(a.tsModelPath.value);
    var llm := if a.llmModelPath.None? then LlmDefaultQwen2 else LlmFromPath(a.llmModelPath.value);
    TsChatConfig(a.llmModelPath, a.tsModelPath,
      Or(a.useBackboneLora, 0), Or(a.useLlmLora, 0), Or(a.selectLayer, -1),
      Or(a.template, "internts"), Or(a.adapterType, "mlp"), ts, llm)
  }

  function OptionalStr(o: Option<string>): Json {
    if o.Some? then JStr(o.value) else JNull
  }

  const CHAT_KEYS: set<string> := {
    "ts_model_path", "llm_model_path", "model_type", "use_backbone_lora",
    "use_llm_lora", "select_layer", "adapter_type", "template"}

  /** InternTSChatConfig.to_dict: exactly the eight listed keys, the class's
      model type, and the other values copied from the fields; the sub-configs
      themselves are not serialised. */
  function ChatToDict(c: TsChatConfig): (d: Dict)
    ensures d.Keys == CHAT_KEYS
    ensures d["model_type"] == JStr(CHAT_MODEL_TYPE)
    ensures d["ts_model_path"] == OptionalStr(c.tsModelPath)
    ensures d["llm_model_path"] == OptionalStr(c.llmModelPath)
    ensures d["use_backbone_lora"] == JInt(c.useBackboneLora) && d["use_llm_lora"] == JInt(c.useLlmLora)
    ensures d["select_layer"] == JInt(c.selectLayer)
    ensures d["adapter_type"] == JStr(c.adapterType) && d["template"] == JStr(c.template)
  {
    map[
      "ts_model_path" := OptionalStr(c.tsModelPath),
      "llm_model_path" := OptionalStr(c.llmModelPath),
      "model_type" := JStr(CHAT_MODEL_TYPE),
      "use_backbone_lora" := JInt(c.useBackboneLora),
      "use_llm_lora" := JInt(c.useLlmLora),
      "select_layer" := JInt(c.selectLayer),
      "adapter_type" := JStr(c.adapterType),
      "template" := JStr(c.template)]
  }

  function StrArg(d: Dict, key: string): Option<string> {
    if key in d && d[key].JStr? then Some(d[key].s) else None
  }

  function IntArg(d: Dict, key: string): Option<int> {
    if key in d && d[key].JInt? then Some(d[key].i) else None
  }

  /** InternTSChatConfig(**d) for the keys the chat constructor names; the
      "model_type" entry goes to the base class's keyword arguments. */
  function ChatArgsOfDict(d: Dict): TsChatArgs {
    TsChatArgs(StrArg(d, "llm_model_path"), StrArg(d, "ts_model_path"),
      IntArg(d, "use_backbone_lora"), IntArg(d, "use_llm_lora"), IntArg(d, "select_layer"),
      StrArg(d, "template"), StrArg(d, "adapter_type"))
  }

  /** Serialising a chat configuration and constructing from the dictionary
      gives the same configuration back, sub-config sources included. */
  lemma ChatDictRoundTrip(a: TsChatArgs)
    ensures NewTsChatConfig(ChatArgsOfDict(ChatToDict(NewTsChatConfig(a)))) == NewTsChatConfig(a)
  {
    var c := NewTsChatConfig(a);
    var d := ChatToDict(c);
    assert StrArg(d, "llm_model_path") == c.llmModelPath;
    assert StrArg(d, "ts_model_path") == c.tsModelPath;
  }

  // ---------------------------------------------------------------------------
  // InternS1VisionConfig
  // ---------------------------------------------------------------------------

  const VISION_MODEL_TYPE := "interns1_vision"

  /** An `image_size` / `patch_size` argument: an int, a list or a tuple. */
  datatype SizeArg = Scalar(n: int) | ListOf(items: seq<int>) | TupleOf(items: seq<int>)

  /** A scalar s becomes the pair (s, s); a list or tuple is kept as given. */
  function NormalizeSize(s: SizeArg): (r: SizeArg)
    ensures !r.Scalar?
    ensures s.Scalar? ==> r.items == [s.n, s.n] && r.TupleOf?
    ensures !s.Scalar? ==> r == s
  {
    if s.Scalar? then TupleOf([s.n, s.n]) else s
  }

  /** Normalising twice is normalising once. */
  lemma NormalizeSizeIdempotent(s: SizeArg)
    ensures NormalizeSize(NormalizeSize(s)) == NormalizeSize(s)
  {
  }

  datatype VisionConfig = VisionConfig(
    hiddenSize: int, numHiddenLayers: int, numAttentionHeads: int,
    attentionBias: bool, useQkNorm: bool, intermediateSize: int, hiddenAct: string,
    hiddenDropoutProb: real, attentionDropout: real, projectionDropout: real,
    dropPathRate: real, initializerRange: real, normType: string, layerNormEps: real,
    imageSize: SizeArg, patchSize: SizeArg, numChannels: int,
    useMaskToken: bool, useAbsolutePositionEmbeddings: bool,
    layerScaleInitValue: real, useMeanPooling: bool)

  /** The keyword arguments of InternS1VisionConfig.__init__. */
  datatype VisionArgs = VisionArgs(
    hiddenSize: Option<int>, numHiddenLayers: Option<int>, numAttentionHeads: Option<int>,
    attentionBias: Option<bool>, useQkNorm: Option<bool>, intermediateSize: Option<int>,
    hiddenAct: Option<string>, hiddenDropoutProb: Option<real>, attentionDropout: Option<real>,
    projectionDropout: Option<real>, dropPathRate: Option<real>, initializerRange: Option<real>,
    normType: Option<string>, layerNormEps: Option<real>,
    imageSize: Option<SizeArg>, patchSize: Option<SizeArg>, numChannels: Option<int>,
    useMaskToken: Option<bool>, useAbsolutePositionEmbeddings: Option<bool>,
    layerScaleInitValue: Option<real>, useMeanPooling: Option<bool>)

  const NO_VISION_ARGS := VisionArgs(
    None, None, None, None, None, None, None, None, None, None, None,
    None, None, None, None, None, None, None, None, None, None)

  /** InternS1VisionConfig(**args): the fields are stored as given (or their
      defaults), with the two sizes normalised to sequences. */
  function NewVisionConfig(a: VisionArgs): (c: VisionConfig)
    ensures c.imageSize == NormalizeSize(Or(a.imageSize, ListOf([448, 448])))
    ensures c.patchSize == NormalizeSize(Or(a.patchSize, ListOf([14, 14])))
    ensures c.hiddenSize == Or(a.hiddenSize, 1024) && c.numHiddenLayers == Or(a.numHiddenLayers, 24)
    ensures c.numAttentionHeads == Or(a.numAttentionHeads, 16)
    ensures c.attentionBias == Or(a.attentionBias, false) && c.useQkNorm == Or(a.useQkNorm, false)
    ensures c.intermediateSize == Or(a.intermediateSize, 4096) && c.hiddenAct == Or(a.hiddenAct, "gelu")
    ensures c.hiddenDropoutProb == Or(a.hiddenDropoutProb, 0.0)
    ensures c.attentionDropout == Or(a.attentionDropout, 0.0)
    ensures c.projectionDropout == Or(a.projectionDropout, 0.0)
    ensures c.dropPathRate == Or(a.dropPathRate, 0.0)
    ensures c.initializerRange == Or(a.initializerRange, 0.02)
    ensures c.normType == Or(a.normType, "layer_norm") && c.layerNormEps == Or(a.layerNormEps, 0.000001)
    ensures c.numChannels == Or(a.numChannels, 3) && c.useMaskToken == Or(a.useMaskToken, false)
    ensures c.useAbsolutePositionEmbeddings == Or(a.useAbsolutePositionEmbeddings, true)
    ensures c.layerScaleInitValue == Or(a.layerScaleInitValue, 0.1)
    ensures c.useMeanPooling == Or(a.useMeanPooling, true)
  {
    VisionConfig(
      Or(a.hiddenSize, 1024), Or(a.numHiddenLayers, 24), Or(a.numAttentionHeads, 16),
      Or(a.attentionBias, false), Or(a.useQkNorm, false), Or(a.intermediateSize, 4096),
      Or(a.hiddenAct, "gelu"), Or(a.hiddenDropoutProb, 0.0), Or(a.attentionDropout, 0.0),
      Or(a.projectionDropout, 0.0), Or(a.dropPathRate, 0.0), Or(a.initializerRange, 0.02),
      Or(a.normType, "layer_norm"), Or(a.layerNormEps, 0.000001),
      NormalizeSize(Or(a.imageSize, ListOf([448, 448]))), NormalizeSize(Or(a.patchSize, ListOf([14, 14]))),
      Or(a.numChannels, 3), Or(a.useMaskToken, false), Or(a.useAbsolutePositionEmbeddings, true),
      Or(a.layerScaleInitValue, 0.1), Or(a.useMeanPooling, true))
  }

  /** The patch grid the patch embeddings derive from a vision configuration.
      Indexing a size that is still an int (possible only for an instance built
      elsewhere) is a TypeError; `image_size[1]` is looked up before `patch_size[1]`. */
  function VisionPatchGrid(c: VisionConfig): (r: Result<VisionShapes.PatchGrid>)
    ensures c.imageSize.Scalar? ==> r.Err? && r.error.TypeError?
    ensures !c.imageSize.Scalar? && !c.patchSize.Scalar? ==>
      r == VisionShapes.PatchGridOf(c.imageSize.items, c.patchSize.items)
  {
    if c.imageSize.Scalar? then Err(TypeError("'int' object is not subscriptable"))
    else if |c.imageSize.items| < 2 then Err(IndexError("list index out of range"))
    else if c.patchSize.Scalar? then Err(TypeError("'int' object is not subscriptable"))
    else VisionShapes.PatchGridOf(c.imageSize.items, c.patchSize.items)
  }

  /** Scalar sizes s and p (p > 0) give a square grid of (s // p)^2 patches:
      the normalised pair reaches both sides of the grid. */
  lemma ScalarSizesGiveSquareGrid(a: VisionArgs, s: int, p: int)
    requires p > 0
    requires a.imageSize == Some(Scalar(s)) && a.patchSize == Some(Scalar(p))
    ensures VisionPatchGrid(NewVisionConfig(a)).Ok?
    ensures
      var g := VisionPatchGrid(NewVisionConfig(a)).value;
      g.patchRows == g.patchCols && g.numPatches == g.patchRows * g.patchRows
      && g.patchRows * p <= s < (g.patchRows + 1) * p
  {
  }

  /** A one-entry list is kept as it is, so the patch embeddings' index 1 fails. */
  lemma ShortListSizeFails(a: VisionArgs, s: int)
    requires a.imageSize == Some(ListOf([s]))
    ensures VisionPatchGrid(NewVisionConfig(a)).Err?
    ensures VisionPatchGrid(NewVisionConfig(a)).error.IndexError?
  {
  }

  // ---------------------------------------------------------------------------
  // InternS1Config
  // ---------------------------------------------------------------------------

  const TEXT_DEFAULT_MODEL_TYPE := "qwen3_moe"

  /** A sub-config argument: a dictionary of keyword arguments, an instance of
      the sub-config class, None, or any other value. */
  datatype SubConfigArg<A, C> = FromDict(args: A) | Instance(config: C) | NotGiven | OtherValue

  /** A text configuration as the registry builds it: its model type and the
      dictionary it was built from. */
  datatype TextConfig = TextConfig(modelType: string, settings: Dict)

  /** The text_config argument: a dictionary, None, or any other object, which
      is stored as it is. */
  datatype TextArg = TextDict(d: Dict) | TextNotGiven | TextObject(config: TextConfig)

  datatype InternS1Args = InternS1Args(
    visionConfig: SubConfigArg<VisionArgs, VisionConfig>,
    textConfig: TextArg,
    tsConfig: SubConfigArg<TsEncoderArgs, TsEncoderConfig>,
    imageTokenId: Option<int>, tsContextTokenId: Option<int>, tsSelectLayer: Option<int>,
    imageSeqLength: Option<int>, downsampleRatio: Option<real>, projectorHiddenAct: Option<string>,
    visionFeatureLayer: Option<int>, visionFeatureSelectStrategy: Option<string>)

  const NO_INTERNS1_ARGS := InternS1Args(
    NotGiven, TextNotGiven, NotGiven, None, None, None, None, None, None, None, None)

  /** An attribute the constructor may leave unassigned is `None` when it does. */
  datatype InternS1Config = InternS1Config(
    imageTokenId: int, tsContextTokenId: int, tsSelectLayer: int,
    imageSeqLength: int, downsampleRatio: real, projectorHiddenAct: string,
    visionFeatureLayer: int, visionFeatureSelectStrategy: string,
    visionConfig: Option<VisionConfig>, textConfig: TextConfig, tsConfig: Option<TsEncoderConfig>)

  /** The vision_config branch: only the three named kinds assign the attribute. */
  function DispatchVision(arg: SubConfigArg<VisionArgs, VisionConfig>): (v: Option<VisionConfig>)
    ensures v.None? <==> arg.OtherValue?
    ensures arg.FromDict? ==> v == Some(NewVisionConfig(arg.args))
    ensures arg.Instance? ==> v == Some(arg.config)
    ensures arg.NotGiven? ==> v == Some(NewVisionConfig(NO_VISION_ARGS))
  {
    match arg
    case FromDict(args) => Some(NewVisionConfig(args))
    case Instance(config) => Some(config)
    case NotGiven => Some(NewVisionConfig(NO_VISION_ARGS))
    case OtherValue => None
  }

  /** A text dictionary is tagged "qwen3_moe" when it names no model type; its
      model type then selects the registered config class. */
  function TagTextDict(d: Dict): (t: Dict)
    ensures "model_type" in t
    ensures "model_type" in d ==> t == d
    ensures "model_type" !in d ==> t == d["model_type" := JStr(TEXT_DEFAULT_MODEL_TYPE)]
    ensures forall k :: k in d ==> k in t && t[k] == d[k]
  {
    if "model_type" in d then d else d["model_type" := JStr(TEXT_DEFAULT_MODEL_TYPE)]
  }

  /** The text_config branch. A model type that is not a string cannot select
      a config class: an unhashable one (a list or a dictionary) is a TypeError,
      any other is a KeyError. */
  function DispatchText(arg: TextArg): (r: Result<TextConfig>)
    ensures arg.TextNotGiven? ==> r == Ok(TextConfig(TEXT_DEFAULT_MODEL_TYPE, map[]))
    ensures arg.TextObject? ==> r == Ok(arg.config)
    ensures arg.TextDict? ==>
      var t := TagTextDict(arg.d);
      && (r.Ok? <==> t["model_type"].JStr?)
      && (r.Ok? ==> r.value == TextConfig(t["model_type"].s, t))
      && (r.Err? ==> (if t["model_type"].JList? || t["model_type"].JObject? then r.error.TypeError?
                      else r.error.KeyError?))
  {
    match arg
    case TextNotGiven => Ok(TextConfig(TEXT_DEFAULT_MODEL_TYPE, map[]))
    case TextObject(config) => Ok(config)
    case TextDict(d) =>
      var t := TagTextDict(d);
      match t["model_type"]
      case JStr(name) => Ok(TextConfig(name, t))
      case JList(_) => Err(TypeError("unhashable type: 'list'"))
      case JObject(_) => Err(TypeError("unhashable type: 'dict'"))
      case _ => Err(KeyError("model_type"))
  }

  /** A text dictionary without a model type is built as a "qwen3_moe" config. */
  lemma UntaggedTextDictIsQwen3Moe(d: Dict)
    requires "model_type" !in d
    ensures DispatchText(TextDict(d)).Ok?
    ensures DispatchText(TextDict(d)).value.modelType == TEXT_DEFAULT_MODEL_TYPE
    ensures DispatchText(TextDict(d)).value.settings.Keys == d.Keys + {"model_type"}
  {
  }

  /** The ts_config branch as written: a dictionary is built (so its assertions
      still fire) into a local only, and the attribute is left unassigned. */
  function DispatchTsAsWritten(arg: SubConfigArg<TsEncoderArgs, TsEncoderConfig>): (r: Result<Option<TsEncoderConfig>>)
    ensures arg.Instance? ==> r == Ok(Some(arg.config))
    ensures arg.NotGiven? ==> r == Ok(Some(DEFAULT_TS_ENCODER))
    ensures arg.OtherValue? ==> r == Ok(None)
    ensures arg.FromDict? ==>
      (r.Err? <==> NewTsEncoderConfig(arg.args).Err?)
      && (r.Err? ==> r.error == NewTsEncoderConfig(arg.args).error)
      && (r.Ok? ==> r.value.None?)
  {
    match arg
    case FromDict(args) =>
      var _ :- NewTsEncoderConfig(args);
      Ok(None)
    case Instance(config) => Ok(Some(config))
    case NotGiven => Ok(Some(DEFAULT_TS_ENCODER))  // what DefaultTsEncoderIsValid shows the call gives
    case OtherValue => Ok(None)
  }

  /** The ts_config branch storing the configuration it builds from a dictionary. */
  function DispatchTs(arg: SubConfigArg<TsEncoderArgs, TsEncoderConfig>): (r: Result<Option<TsEncoderConfig>>)
    ensures arg.FromDict? ==>
      (r.Err? <==> NewTsEncoderConfig(arg.args).Err?)
      && (r.Ok? ==> r.value == Some(NewTsEncoderConfig(arg.args).value))
    ensures !arg.FromDict? ==> r == DispatchTsAsWritten(arg)
  {
    match arg
    case FromDict(args) =>
      var c :- NewTsEncoderConfig(args);
      Ok(Some(c))
    case _ => DispatchTsAsWritten(arg)
  }

  /** The scalar attributes, stored before the sub-configs are dispatched. */
  function WithScalars(a: InternS1Args, vision: Option<VisionConfig>, text: TextConfig,
                       ts: Option<TsEncoderConfig>): (c: InternS1Config)
    ensures c.visionConfig == vision && c.textConfig == text && c.tsConfig == ts
    ensures c.imageTokenId == Or(a.imageTokenId, 151667)
    ensures c.tsContextTokenId == Or(a.tsContextTokenId, 151668)
    ensures c.tsSelectLayer == Or(a.tsSelectLayer, -1)
    ensures c.imageSeqLength == Or(a.imageSeqLength, 256)
    ensures c.downsampleRatio == Or(a.downsampleRatio, 0.5)
    ensures c.projectorHiddenAct == Or(a.projectorHiddenAct, "gelu")
    ensures c.visionFeatureLayer == Or(a.visionFeatureLayer, -1)
    ensures c.visionFeatureSelectStrategy == Or(a.visionFeatureSelectStrategy, "default")
  {
    InternS1Config(
      Or(a.imageTokenId, 151667), Or(a.tsContextTokenId, 151668), Or(a.tsSelectLayer, -1),
      Or(a.imageSeqLength, 256), Or(a.downsampleRatio, 0.5), Or(a.projectorHiddenAct, "gelu"),
      Or(a.visionFeatureLayer, -1), Or(a.visionFeatureSelectStrategy, "default"),
      vision, text, ts)
  }

  /** InternS1Config(**args) as written: vision, then text, then ts dispatch. */
  function NewInternS1ConfigAsWritten(a: InternS1Args): (r: Result<InternS1Config>)
    ensures r.Err? <==> DispatchText(a.textConfig).Err? || DispatchTsAsWritten(a.tsConfig).Err?
    ensures r.Ok? ==> r.value == WithScalars(a, DispatchVision(a.visionConfig),
                                   DispatchText(a.textConfig).value, DispatchTsAsWritten(a.tsConfig).value)
  {
    var vision := DispatchVision(a.visionConfig);
    var text :- DispatchText(a.textConfig);
    var ts :- DispatchTsAsWritten(a.tsConfig);
    Ok(WithScalars(a, vision, text, ts))
  }

  /** InternS1Config(**args) with the ts_config dictionary stored. */
  function NewInternS1Config(a: InternS1Args): (r: Result<InternS1Config>)
    ensures r.Err? <==> DispatchText(a.textConfig).Err? || DispatchTs(a.tsConfig).Err?
    ensures r.Ok? ==> r.value == WithScalars(a, DispatchVision(a.visionConfig),
                                   DispatchText(a.textConfig).value, DispatchTs(a.tsConfig).value)
  {
    var vision := DispatchVision(a.visionConfig);
    var text :- DispatchText(a.textConfig);
    var ts :- DispatchTs(a.tsConfig);
    Ok(WithScalars(a, vision, text, ts))
  }

  /** As written, a valid ts_config dictionary is accepted yet leaves the
      attribute unassigned, where its absence gives the default. */
  lemma DictTsConfigIsDropped(a: InternS1Args)
    requires a.tsConfig == FromDict(NO_TS_ENCODER_ARGS) && a.textConfig == TextNotGiven
    ensures NewInternS1ConfigAsWritten(a).Ok?
    ensures NewInternS1ConfigAsWritten(a).value.tsConfig == None
    ensures NewInternS1ConfigAsWritten(a.(tsConfig := NotGiven)).value.tsConfig == Some(DEFAULT_TS_ENCODER)
  {
    DefaultTsEncoderIsValid();
  }

  /** With the dictionary stored, passing the fields of a valid configuration as
      a dictionary has the same effect as passing the instance itself. */
  lemma DictTsConfigMatchesInstance(a: InternS1Args, c: TsEncoderConfig)
    requires NewTsEncoderConfig(ArgsOfTsEncoder(c)).Ok?
    requires a.textConfig.TextNotGiven?
    ensures NewInternS1Config(a.(tsConfig := FromDict(ArgsOfTsEncoder(c))))
         == NewInternS1Config(a.(tsConfig := Instance(c)))
    ensures NewInternS1Config(a.(tsConfig := Instance(c))).value.tsConfig == Some(c)
  {
  }

  /** Only with the dictionary stored is the attribute present for all three
      named kinds of argument. */
  lemma NamedKindsAssignTsConfig(a: InternS1Args)
    requires !a.tsConfig.OtherValue?
    requires NewInternS1Config(a).Ok?
    ensures NewInternS1Config(a).value.tsConfig.Some?
  {
  }

  /** The default composite configuration: every sub-config is assigned, and its
      default image_seq_length is exactly the number of tokens one default image
      yields (1024 patches and the CLS position through pixel shuffle at 0.5). */
  lemma DefaultInternS1Config(batch: nat)
    requires batch > 0
    ensures NewInternS1Config(NO_INTERNS1_ARGS).Ok?
    ensures
      var c := NewInternS1Config(NO_INTERNS1_ARGS).value;
      && c.visionConfig.Some? && c.tsConfig == Some(DEFAULT_TS_ENCODER)
      && c.textConfig.modelType == TEXT_DEFAULT_MODEL_TYPE
      && 1.0 / c.downsampleRatio == 2.0
      && VisionPatchGrid(c.visionConfig.value) == Ok(VisionShapes.PatchGrid(1024, 32, 32))
      && VisionShapes.ImageFeatureShape(batch, 1024 + 1, c.visionConfig.value.hiddenSize,
           c.visionFeatureSelectStrategy, 2)
         == Ok(VisionShapes.Shape3(batch, c.imageSeqLength, c.visionConfig.value.hiddenSize * 4))
  {
    DefaultTsEncoderIsValid();
    VisionShapes.DefaultImageTokens(batch, 1024);
  }
}
