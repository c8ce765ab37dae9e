# InternS1 bookkeeping core in Dafny

This project models the integer and boolean bookkeeping of the InternS1
multimodal model in the `transformers` repository. InternS1 is a language
model that takes text, images and time-series signals. The model leaves the
neural-network numerics to the framework. What it does model:

- **Time-series lengths** (`lengths.dfy`, module `TimeSeriesLengths`).
  - The `Conv1dSubsampling` front end: its constructor's list-length check, its layer loop followed on the time axis, and its closed-form length formula.
  - `ConcatSubsampling`, which pairs frames and halves lengths.
  - The encoder's extra halving and its positivity assertion.
  - `make_pad_mask`.
- **Attention masks** (`masks.dfy`, module `AttentionMasks`).
  - `_make_causal_mask`, `_expand_mask`, `_prepare_decoder_attention_mask`.
  - The block-diagonal `prepare_chunk_attention_mask`, written as a loop over an integer matrix.
  - The mask selection of `InternTimeSeriesEncoder`, written as a class whose mask state `define_masktype` updates.
  - Masks are integer matrices: 0 means "may attend". The blocking value is a negative parameter standing for `finfo(dtype).min`. The chunk mask uses the constant -65504 that the code writes.
- **Modality merge** (`merge.dfy`, module `ModalityMerge`).
  - The checks and the ordered replacement (`masked_scatter`) in `InternS1Model.forward`.
  - `get_input_modality`.
  - Embeddings and features are values of a generic type `T`. One position's embedding vector is one `T`.
- **Vision shapes** (`vision.dfy`, module `VisionShapes`).
  - The patch grid of `InternS1VisionPatchEmbeddings`.
  - The token count `get_image_features` produces through `pixel_shuffle`.
  - A scale factor 1/r is modelled by the integer r.
- **Configuration** (`configuration.dfy`, module `Configuration`).
  - The four configuration classes, as values that constructor functions build from keyword arguments.
  - An argument that is not passed is `None` and takes its Python default.
  - A constructor that can fail an `assert` returns a `Result`.

The remaining files are helpers:

- `outcomes.dfy` holds the Python exceptions and the `Result`/`Option` types.
- `sequtil.dfy` holds maximum, counting and flattening over sequences.
- `arith.dfy` holds ceiling division and Python floor division.

Where Python raises, the model returns `Err` with the exception class. Integer
division follows Python's floor division: Dafny's `/` for positive divisors,
and `IntArith.PyFloorDiv` where a divisor may be negative.

## Model

| member | source | states |
|---|---|---|
| TimeSeriesLengths.ConvStackLengthIsNestedCeil | src/transformers/models/interns1/modular_interns1.py:729 | the hardcoded x_lens formula is four nested ceiling divisions (by 2, 4, 4, 5) and equals ceil(L / 160) |
| TimeSeriesLengths.ConvStackLengthMonotone | src/transformers/models/interns1/modular_interns1.py:729 | the x_lens formula is monotone in the input length |
| TimeSeriesLengths.DefaultStackMatchesFormula | src/transformers/models/interns1/modular_interns1.py:719-729 | running a length through conv layers with the default kernel/stride/padding triples gives exactly the hardcoded formula |
| TimeSeriesLengths.NewConv1dSubsampling | src/transformers/models/interns1/modular_interns1.py:687-717 | ValueError iff the kernel, stride and padding lists are not all one shorter than the channel list; otherwise layer i maps channels[i] to channels[i+1] with the i-th kernel/stride/padding, consecutive layers chain, and the concat subsampling declares in_channels * concat_size outputs |
| TimeSeriesLengths.ConvStackFrames | src/transformers/models/interns1/modular_interns1.py:719-725 | the per-layer loop leaves the frame count the layers define when applied in order |
| TimeSeriesLengths.ConcatFramesAt | src/transformers/models/interns1/modular_interns1.py:674-682 | T frames become T // 2 frames, output frame t is frame 2t followed by frame 2t+1 |
| TimeSeriesLengths.ConcatFramesKeepsStream | src/transformers/models/interns1/modular_interns1.py:676-682 | the flattened output is the flattened input without its odd last frame |
| TimeSeriesLengths.ConcatFramesWidth | src/transformers/models/interns1/modular_interns1.py:665-682 | frames of width C become width 2C; the declared out_channels equals the real width iff concat_size is 2 |
| TimeSeriesLengths.ConcatSubsamplingForward | src/transformers/models/interns1/modular_interns1.py:674-684 | every batch item is paired and every length becomes x_lens // 2 |
| TimeSeriesLengths.NewConcatSubsampling | src/transformers/models/interns1/modular_interns1.py:665-672 | in_channels is kept and out_channels is in_channels * concat_size (ConcatFramesWidth shows the frames reach that width iff concat_size is 2) |
| TimeSeriesLengths.ConvStackLengths | src/transformers/models/interns1/modular_interns1.py:729 | every length of the batch becomes ceil(L / 160) |
| TimeSeriesLengths.Conv1dSubsamplingForward | src/transformers/models/interns1/modular_interns1.py:719-731 | the returned frames are the conv frames of every item paired two by two, and the returned lengths are ceil(L / 160) // 2 |
| TimeSeriesLengths.EncoderLengths | src/transformers/models/interns1/modular_interns1.py:381-382 | lengths become ceil(L / 2); AssertionError iff some input length is below 1 (some result is not positive) |
| TimeSeriesLengths.MakePadMask | src/transformers/models/interns1/modular_interns1.py:402-426 | len(lengths) rows of max(lengths) columns, cell (i,j) true iff j >= lengths[i], longest row all false; RuntimeError for an empty or all-negative lengths vector |
| TimeSeriesLengths.MakePadMaskExample | src/transformers/models/interns1/modular_interns1.py:414-419 | the doc example [1,3,2,5] gives the matrix shown |
| TimeSeriesLengths.PadMaskRowValid | src/transformers/models/interns1/modular_interns1.py:424-426 | a pad-mask row has exactly lengths[i] non-padded cells |
| TimeSeriesLengths.SubsampledLengths | src/transformers/models/interns1/modular_interns1.py:360-371 | ValueError with neither input; usable embeds keep x_lens (even when it is None); 3-D signals give ceil(L / 160) // 2 per item, or TypeError when x_lens is None; other ranks raise ValueError; missing signals with unusable embeds raise |
| TimeSeriesLengths.LengthsAfterEncoder | src/transformers/models/interns1/modular_interns1.py:380-385 | succeeds iff the batch is non-empty and every length is positive; the final lengths are ceil(len / 2) >= 1 and the mask is make_pad_mask of them |
| TimeSeriesLengths.TimeSeriesForwardLengths | src/transformers/models/interns1/modular_interns1.py:360-385 | succeeds iff the subsampled lengths exist, the batch is non-empty and every subsampled length is positive; a missing x_lens gives TypeError on both paths; on success the result is the post-encoder step of the subsampled lengths |
| TimeSeriesLengths.MinimumSignalLength | src/transformers/models/interns1/modular_interns1.py:367-385 | for raw signals the positivity assertion passes iff every length is at least 161, and the final length is ceil(ceil(L / 160) // 2 / 2) >= 1 with a pad mask row per signal |
| TimeSeriesLengths.ShapeCommentExample | src/transformers/models/interns1/modular_interns1.py:373 | 64000 samples give 200 frames after subsampling and 100 after the encoder |
| AttentionMasks.MakeCausalMask | src/transformers/models/interns1/modular_interns1.py:428-442 | shape (bsz, tgt, tgt + past), every batch item identical, all past columns allowed, cell (i, past + k) allowed iff k <= i and min otherwise |
| AttentionMasks.CausalRowAllowed | src/transformers/models/interns1/modular_interns1.py:435-441 | cell (i, j) is allowed iff j <= past + i |
| AttentionMasks.ExpandMask | src/transformers/models/interns1/modular_interns1.py:445-457 | shape (bsz, tgt, src); cell (b, i, s) is 0 when mask[b][s] == 1 and min otherwise |
| AttentionMasks.ExpandMaskBinary | src/transformers/models/interns1/modular_interns1.py:453-457 | for a 0/1 mask, column s is blocked exactly when mask[b][s] == 0, identically for every row |
| AttentionMasks.AddMasks | src/transformers/models/interns1/modular_interns1.py:522-524 | broadcasting addition: RuntimeError iff the batch or column sizes cannot broadcast; cells are elementwise sums |
| AttentionMasks.PrepareDecoderAttentionMask | src/transformers/models/interns1/modular_interns1.py:506-525 | no mask: None iff tgt_len <= 1, otherwise the causal mask; a mask with tgt_len <= 1 gives the expanded mask |
| AttentionMasks.CombinedMaskAllowed | src/transformers/models/interns1/modular_interns1.py:519-524 | with both masks a cell is allowed iff the padding mask keeps the key and it is causally visible |
| AttentionMasks.BlockCounts | src/transformers/models/interns1/modular_interns1.py:533-534 | Python's matrix_size // block_size and % block_size: Dafny's `/` and `%` for a positive size, both at most 0 for a negative one |
| AttentionMasks.PrepareChunkAttentionMask | src/transformers/models/interns1/modular_interns1.py:527-549 | for a positive block size b the block-filling loop yields, per batch item, the matrix whose cell (i,j) is 0 iff i // b == j // b and -65504 otherwise; for a negative b no block is zeroed and every cell is -65504 |
| AttentionMasks.ScaledIsChunk | src/transformers/models/interns1/modular_interns1.py:536-546 | after all full blocks and the remainder block are zeroed, scaling by -65504 gives the block-diagonal matrix |
| AttentionMasks.ChunkMatrixShape | src/transformers/models/interns1/modular_interns1.py:527-549 | the chunk matrix is n by n, symmetric, its diagonal allowed, and every cell is 0 or -65504 |
| AttentionMasks.ChunkRowWindow | src/transformers/models/interns1/modular_interns1.py:536-544 | position i sees exactly the positions of its own block [b * (i // b), b * (i // b) + b) |
| AttentionMasks.TimeSeriesEncoder.constructor | src/transformers/models/interns1/modular_interns1.py:461-489 | a new encoder has no mask type and no chunk length |
| AttentionMasks.TimeSeriesEncoder.DefineMaskType | src/transformers/models/interns1/modular_interns1.py:502-504 | stores the mask type and chunk block size |
| AttentionMasks.TimeSeriesEncoder.SelfAttentionMask | src/transformers/models/interns1/modular_interns1.py:592-600 | mask_type 'chunk' gives the chunk mask (TypeError without a chunk length, ZeroDivisionError for block size 0, every cell blocked for a negative block size); anything else gives the decoder mask with no padding mask and no past |
| ModalityMerge.ResolveEmbeddings | src/transformers/models/interns1/modular_interns1.py:1214-1218 | ValueError iff both or neither of input_ids / inputs_embeds are given; ids are embedded position by position |
| ModalityMerge.EqualsMask | src/transformers/models/interns1/modular_interns1.py:1228-1234 | a position is a placeholder iff its id equals the token id, or, without ids, iff its embedding equals the placeholder embedding |
| ModalityMerge.MergeFeatures | src/transformers/models/interns1/modular_interns1.py:1235-1245 | ValueError iff the placeholder count differs from the feature count; otherwise the k-th placeholder in row-major order receives feature k and every other position is kept |
| ModalityMerge.ScatterAt | src/transformers/models/interns1/modular_interns1.py:1245 | masked_scatter places feature Rank(b, s) at placeholder (b, s) and keeps every other cell |
| ModalityMerge.ScatterSelect | src/transformers/models/interns1/modular_interns1.py:1245 | scattering back the selected cells of a tensor restores it, so scatter inverts boolean selection |
| ModalityMerge.ValidTimeSeriesFeatures | src/transformers/models/interns1/modular_interns1.py:1255 | the valid time-series rows are the rows whose pad-mask cell is false, in row-major order; IndexError on a shape mismatch |
| ModalityMerge.SelectAllAt | src/transformers/models/interns1/modular_interns1.py:1255 | the k-th selected row is the row of rank k among the selected cells |
| ModalityMerge.PlaceholderMask | src/transformers/models/interns1/modular_interns1.py:1227-1233 | a position is an image (or time-series) placeholder iff its id equals the token id when ids are given, else iff its embedding equals the token's embedding |
| ModalityMerge.AfterImages | src/transformers/models/interns1/modular_interns1.py:1236-1244 | the image step keeps the shape of the embeddings |
| ModalityMerge.MergeImages | src/transformers/models/interns1/modular_interns1.py:1214-1244 | succeeds iff exactly one of input_ids / inputs_embeds is given and, with images, the image placeholder count equals the image feature rows; its result is the image step applied to the resolved embeddings; all failures are ValueError |
| ModalityMerge.MergeModalities | src/transformers/models/interns1/modular_interns1.py:1214-1277 | succeeds iff exactly one of input_ids / inputs_embeds is given, the image placeholder count equals the image feature rows, and the time-series features match their pad mask's shape and the time-series placeholder count (counted after the image step); both-or-neither gives ValueError, and every failure is a ValueError or an IndexError |
| ModalityMerge.MergeByTokenIds | src/transformers/models/interns1/modular_interns1.py:1214-1277 | sequence shape unchanged, image placeholder of rank k gets image feature k, time-series placeholder of rank k gets valid time-series row k, every other position keeps its token embedding |
| ModalityMerge.TextOnlyUnchanged | src/transformers/models/interns1/modular_interns1.py:1214-1218 | without images or time series the embeddings pass through unchanged |
| ModalityMerge.GetInputModality | src/transformers/models/interns1/modular_interns1.py:1147-1168 | multimodal / vision / time_series / text_only each exactly for its combination of given inputs |
| VisionShapes.PatchGridOf | src/transformers/models/interns1/modular_interns1.py:204-214 | num_patches is the product of the patch_shape sides, each side is image // patch; IndexError for sizes shorter than two, ZeroDivisionError for a zero patch side |
| VisionShapes.PatchGridIsConvOutput | src/transformers/models/interns1/modular_interns1.py:209-217 | each patch-grid side equals the output length of the projection Conv2d (kernel = stride = patch) |
| VisionShapes.PatchEmbeddingsForward | src/transformers/models/interns1/modular_interns1.py:219-229 | ValueError iff the pixel channel count differs from the configured one; the sequence length is patch_height * patch_width of the conv output |
| VisionShapes.ForwardAtConfiguredSize | src/transformers/models/interns1/modular_interns1.py:209-229 | at the configured image size the forward pass yields exactly num_patches positions |
| VisionShapes.PixelShuffle | src/transformers/models/interns1/modular_interns1.py:1018-1051 | successful output shape is (batch, width / r, height / r, channels * r * r); a failed view is a RuntimeError |
| VisionShapes.PixelShuffleKeepsNumel | src/transformers/models/interns1/modular_interns1.py:1036-1049 | pixel shuffle keeps the element count |
| VisionShapes.PixelShuffleSucceedsIffDivisible | src/transformers/models/interns1/modular_interns1.py:1036-1046 | for a non-empty tensor both views succeed iff r divides the width and the height |
| VisionShapes.GridFeatureShape | src/transformers/models/interns1/modular_interns1.py:1088-1100 | the reshape, pixel shuffle and flattening keep the batch and the element count, and fail only with RuntimeError |
| VisionShapes.ImageFeatureShape | src/transformers/models/interns1/modular_interns1.py:1085-1100 | the default strategy drops the CLS position before the grid reshape; other strategies keep all positions |
| VisionShapes.SquareGridTokens | src/transformers/models/interns1/modular_interns1.py:1089-1100 | k * k positions with r dividing k give (k / r)^2 tokens of hidden * r^2 channels |
| VisionShapes.DefaultImageTokens | src/transformers/models/interns1/modular_interns1.py:209-210 | 448 / 14 gives 32 x 32 = 1024 patches; 1025 tower positions give 256 tokens per image at scale 0.5 |
| Configuration.NewTsEncoderConfig | src/transformers/models/interns1/configuration_interns1.py:30-60 | accepted iff ts_adapt_out_dim == ts_hidden_dim and ts_concat_subsampling_in_channels equals the last CNN channel (AssertionError otherwise, IndexError for an empty channel list); fields are the arguments or their defaults |
| Configuration.TsEncoderArgsRoundTrip | src/transformers/models/interns1/configuration_interns1.py:46-60 | passing back the fields of an accepted config rebuilds the same config |
| Configuration.DefaultTsEncoderIsValid | src/transformers/models/interns1/configuration_interns1.py:32-41 | the defaults pass both assertions and the Conv1dSubsampling length check |
| Configuration.DefaultLayersMatchFormula | src/transformers/models/interns1/configuration_interns1.py:35-38 | the conv stack built from the default lists is the one the hardcoded x_lens formula encodes |
| Configuration.AcceptedConfigChainsIntoConcat | src/transformers/models/interns1/configuration_interns1.py:60 | in an accepted config the last conv layer outputs the concat subsampling input width |
| Configuration.UnwrapEncoderDict | src/transformers/models/interns1/configuration_interns1.py:67-68 | a dict holding 'ts_encoder_config' is replaced by the nested dict (TypeError if it is not one); any other dict is kept |
| Configuration.UnwrapRecoversNested | src/transformers/models/interns1/configuration_interns1.py:67-68 | a nested encoder dict is recovered exactly whatever the outer dict holds |
| Configuration.UnwrapIsSingleLevel | src/transformers/models/interns1/configuration_interns1.py:67-68 | unwrapping happens once only |
| Configuration.NewTsChatConfig | src/transformers/models/interns1/configuration_interns1.py:82-118 | no ts / llm path gives the default sub-config, a path names the pretrained one; the scalar fields take the arguments or defaults |
| Configuration.ChatToDict | src/transformers/models/interns1/configuration_interns1.py:126-144 | exactly the eight listed keys, model_type 'interts_chat', other values copied from the fields |
| Configuration.ChatDictRoundTrip | src/transformers/models/interns1/configuration_interns1.py:82-144 | constructing from to_dict gives back the same chat config |
| Configuration.NormalizeSize | src/transformers/models/interns1/configuration_interns1.py:260-263 | a scalar s becomes the pair (s, s); a list or tuple is kept unchanged |
| Configuration.NormalizeSizeIdempotent | src/transformers/models/interns1/configuration_interns1.py:260-263 | normalising a normalised size changes nothing |
| Configuration.NewVisionConfig | src/transformers/models/interns1/configuration_interns1.py:218-269 | fields are the arguments or their defaults, with both sizes normalised |
| Configuration.VisionPatchGrid | src/transformers/models/interns1/configuration_interns1.py:260-263 | the patch grid of a vision config; an int size cannot be indexed (TypeError) |
| Configuration.ScalarSizesGiveSquareGrid | src/transformers/models/interns1/configuration_interns1.py:260-263 | scalar sizes s and p give a square grid of (s // p)^2 patches |
| Configuration.ShortListSizeFails | src/transformers/models/interns1/configuration_interns1.py:260-263 | a one-entry size list is kept, so the patch embeddings raise IndexError |
| Configuration.DispatchVision | src/transformers/models/interns1/configuration_interns1.py:342-347 | a dict is built, an instance kept, None gives the default; any other value leaves the attribute unassigned |
| Configuration.TagTextDict | src/transformers/models/interns1/configuration_interns1.py:349-350 | a text dict without model_type gets 'qwen3_moe'; existing entries are kept |
| Configuration.DispatchText | src/transformers/models/interns1/configuration_interns1.py:349-353 | dict: built from its (tagged) model type, which must be a string; None: a default 'qwen3_moe' config; any other value kept |
| Configuration.UntaggedTextDictIsQwen3Moe | src/transformers/models/interns1/configuration_interns1.py:349-351 | a text dict with no model_type is built as 'qwen3_moe' with that key added |
| Configuration.DispatchTsAsWritten | src/transformers/models/interns1/configuration_interns1.py:355-360 | a dict is built (its assertions still fire) and discarded; an instance is kept, None gives the default; other values leave it unassigned |
| Configuration.DispatchTs | src/transformers/models/interns1/configuration_interns1.py:355-360 | as DispatchTsAsWritten, except that the config built from a dict is stored |
| Configuration.WithScalars | src/transformers/models/interns1/configuration_interns1.py:318-340 | the scalar attributes are the arguments or their defaults |
| Configuration.NewInternS1ConfigAsWritten | src/transformers/models/interns1/configuration_interns1.py:318-362 | fails iff the text or ts dispatch fails; otherwise the scalar fields and the three dispatch results |
| Configuration.NewInternS1Config | src/transformers/models/interns1/configuration_interns1.py:318-362 | as NewInternS1ConfigAsWritten with the ts dict stored |
| Configuration.DictTsConfigIsDropped | src/transformers/models/interns1/configuration_interns1.py:355-356 | as written, a valid ts_config dict is accepted yet leaves ts_config unassigned, whereas None gives the default |
| Configuration.DictTsConfigMatchesInstance | src/transformers/models/interns1/configuration_interns1.py:355-358 | with the dict stored, passing a valid config as a dict has the same effect as passing the instance |
| Configuration.NamedKindsAssignTsConfig | src/transformers/models/interns1/configuration_interns1.py:355-360 | with the dict stored, dict, instance and None all assign ts_config |
| Configuration.DefaultInternS1Config | src/transformers/models/interns1/configuration_interns1.py:323-360 | the default config assigns every sub-config, and its image_seq_length 256 is the token count of one default image at downsample_ratio 0.5 |

## Findings

| source | as written | input that shows it | evidently intended | confidence | as-written member | corrected member |
|---|---|---|---|---|---|---|
| src/transformers/models/interns1/configuration_interns1.py:355-356 | a dict `ts_config` is built into the local `ts_config`, so `self.ts_config` is never assigned on that branch | `InternS1Config(ts_config={})`: construction succeeds and leaves the config without `ts_config`, while `InternS1Config()` has the default one | `self.ts_config = InternTimeSeriesEncoderConfig(**ts_config)`, like the instance and None branches | high (the two sibling branches assign the attribute); not executed | Configuration.NewInternS1ConfigAsWritten, Configuration.DictTsConfigIsDropped | Configuration.NewInternS1Config, Configuration.DictTsConfigMatchesInstance |

## Left out

- All tensor numerics are left out: attention, softmax, norms, MLPs, projectors, the Conv1d/Conv2d/Linear layers, positional embeddings, dropout and LayerDrop. The conv stack's output tensor is an input of `Conv1dSubsamplingForward`.
- Randomness is left out: weight initialisation, `torch.rand` in LayerDrop, and DropPath.
- Framework behaviour is left out: gradient checkpointing, `torch.jit` and torchdynamo guards, device/dtype moves, and logging.
- The registry and file I/O are left out: `CONFIG_MAPPING`, `AutoConfig`, `AutoModel`, and `get_config_dict`.
  - A pretrained path is recorded (`TsFromPath`, `LlmFromPath`), not loaded.
  - Any string model type is taken as registered.
  - `from_dict`'s own keyword handling is not modelled.
- Base-class behaviour of `WhisperConfig` and `PretrainedConfig` is not modelled: the `**kwargs` they receive (such as `architectures` or `model_type`) and `tie_word_embeddings`, which copies an attribute of the Qwen2 config.
- Configurations are modelled as values, not as mutable objects. What this does not capture:
  - assigning attributes one by one;
  - that `InternS1Config.__init__` writes the tag `model_type` into the caller's own text-config dict (aliasing);
  - values of types outside the modelled argument types, which Python stores without checking.
- The interpretation of the text config's settings is left out (`TextConfig` keeps the dict it was built from).
- `AttentionMasks`: the masks drop the singleton head axis of shape (bsz, 1, tgt, src).
- `AttentionMasks`: blocked cells hold `minValue` (for `finfo.min`) or -65504. Float rounding and overflow are not modelled, so a sum of two blocked cells does not saturate to -inf.
- The chunk block size is a parameter of either sign, and `round(chunk_length / 4 * 2)` (float rounding) is not modelled. `None` for the size gives TypeError, 0 gives ZeroDivisionError, a negative size blocks every cell.
- The float divisibility check in `pixel_shuffle` is not modelled: for integer sizes and a factor 0.5 it never fires.
- `int(h * scale_factor)` is taken to equal `h // r`. This is exact when r is a power of two, such as the default 2.
- `int(n ** 0.5)` is the integer square root `IntSqrt`. The float square root agrees for perfect squares.
- `interpolate_pos_encoding` (bicubic interpolation) is left out, as are the positional-embedding addition in `InternS1VisionEmbeddings.forward` and the `bool_masked_pos` mask-token blend.
- The encoder layer loop that accumulates hidden states and attentions (`InternTimeSeriesEncoder.forward`, src/transformers/models/interns1/modular_interns1.py:607-645) is left out: it only carries tensors.
- `load_balancing_loss_func`, `get_time_series_features`' projector, and `InternS1ForConditionalGeneration` are left out: they are numerics.
- `ModalityMerge`: placeholder detection by embedding equality uses exact equality of `T`. Float NaN comparison is not modelled.
- `ModalityMerge`: the token-embedding lookup is a total function parameter, so out-of-vocabulary ids are not modelled.
- `ModalityMerge`: image features are passed as the flattened rows of the `(num_images, tokens, C)` tensor.
- `ModalityMerge`: the element-count check `inputs_embeds[mask].numel() != features.numel()` is modelled as a row-count check. Every row has the embedding width, so the two checks agree.
- `TimeSeriesLengths.SubsampledLengths`: `time_series_embeds` is described only by whether its shape is usable (3-D, last dimension `ts_adapt_in_dim`), not as a tensor.
- `make_pad_mask`'s `lengths.ndim == 1` assertion holds by the type: lengths are a sequence.
- The model_type mismatch warning in `from_pretrained` is logging only and is left out.
- Missing imports and load-time failures of the modules are not modelled.
