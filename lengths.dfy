/**
 * Frame-count bookkeeping of the time-series encoder: the convolutional
 * subsampling front end (Conv1dSubsampling and ConcatSubsampling), the extra
 * halving after the attention encoder, and the padding mask built from the
 * resulting lengths (make_pad_mask), as used by InternTimeSeriesModel.forward.
 *
 * Frames are generic values E; a frame is the vector of its channels, so a
 * batch of signals of shape (B, T, C) is a seq<seq<seq<E>>>.
 */
module TimeSeriesLengths {
  import opened Outcomes
  import opened SeqUtil
  import opened IntArith

  // ---------------------------------------------------------------------------
  // Conv1dSubsampling
  // ---------------------------------------------------------------------------

  /** The closed form Conv1dSubsampling.forward applies to x_lens. */
  function ConvStackLength(xLen: int): int {
    ((((xLen + 1) / 2 + 3) / 4 + 3) / 4 + 4) / 5
  }

  /** The closed form is four nested ceiling divisions, by 2, 4, 4 and 5, and
      altogether one ceiling division by 160. */
  lemma {:induction false} ConvStackLengthIsNestedCeil(xLen: int)
    ensures ConvStackLength(xLen)
         == CeilDiv(CeilDiv(CeilDiv(CeilDiv(xLen, 2), 4), 4), 5)
    ensures ConvStackLength(xLen) == CeilDiv(xLen, 160)
  {
    AddThenFloorIsCeil(xLen, 2);
    var a := CeilDiv(xLen, 2);
    AddThenFloorIsCeil(a, 4);
    var b := CeilDiv(a, 4);
    AddThenFloorIsCeil(b, 4);
    var c := CeilDiv(b, 4);
    AddThenFloorIsCeil(c, 5);
    CeilDivTwice(xLen, 2, 4);
    CeilDivTwice(xLen, 8, 4);
    CeilDivTwice(xLen, 32, 5);
  }

  /** A longer signal never yields fewer frames. */
  lemma ConvStackLengthMonotone(l1: int, l2: int)
    requires l1 <= l2
    ensures ConvStackLength(l1) <= ConvStackLength(l2)
  {
    DivMonotone(l1 + 1, l2 + 1, 2);
    DivMonotone((l1 + 1) / 2 + 3, (l2 + 1) / 2 + 3, 4);
    DivMonotone(((l1 + 1) / 2 + 3) / 4 + 3, ((l2 + 1) / 2 + 3) / 4 + 3, 4);
    DivMonotone((((l1 + 1) / 2 + 3) / 4 + 3) / 4 + 4, (((l2 + 1) / 2 + 3) / 4 + 3) / 4 + 4, 5);
  }

  /** One Conv1d layer of the stack, as built by the constructor. */
  datatype ConvLayer = ConvLayer(inChannels: int, outChannels: int, kernelSize: int, stride: int, padding: int)

  /** Output frame count of a Conv1d layer (dilation 1):
      floor((L + 2 * padding - kernel) / stride) + 1. */
  function ConvOutLength(l: int, layer: ConvLayer): int
    requires layer.stride > 0
  {
    (l + 2 * layer.padding - layer.kernelSize) / layer.stride + 1
  }

  predicate PositiveStrides(layers: seq<ConvLayer>) {
    forall i :: 0 <= i < |layers| ==> layers[i].stride > 0
  }

  /** Frame count after running a signal of length l through the layers in order. */
  function FramesThrough(layers: seq<ConvLayer>, l: int): int
    requires PositiveStrides(layers)
    decreases |layers|
  {
    if |layers| == 0 then l else FramesThrough(layers[1..], ConvOutLength(l, layers[0]))
  }

  /** The kernel/stride/padding triples of the default configuration:
      (3, 2, 1), (5, 4, 2), (5, 4, 2), (5, 5, 2). */
  predicate IsDefaultStack(layers: seq<ConvLayer>) {
    |layers| == 4
    && layers[0].kernelSize == 3 && layers[0].stride == 2 && layers[0].padding == 1
    && layers[1].kernelSize == 5 && layers[1].stride == 4 && layers[1].padding == 2
    && layers[2].kernelSize == 5 && layers[2].stride == 4 && layers[2].padding == 2
    && layers[3].kernelSize == 5 && layers[3].stride == 5 && layers[3].padding == 2
  }

  /** The hardcoded x_lens formula is exactly the frame count of the default conv
      stack: each default layer computes a ceiling division by its stride. */
  lemma {:induction false} DefaultStackMatchesFormula(layers: seq<ConvLayer>, l: int)
    requires IsDefaultStack(layers)
    ensures PositiveStrides(layers)
    ensures FramesThrough(layers, l) == ConvStackLength(l)
  {
    var l1 := ConvOutLength(l, layers[0]);
    var l2 := ConvOutLength(l1, layers[1]);
    var l3 := ConvOutLength(l2, layers[2]);
    var l4 := ConvOutLength(l3, layers[3]);
    var s1 := layers[1..];
    var s2 := s1[1..];
    var s3 := s2[1..];
    var s4 := s3[1..];
    assert s1[0] == layers[1] && s2[0] == layers[2] && s3[0] == layers[3] && s4 == [];
    calc {
      FramesThrough(layers, l);
      FramesThrough(s1, l1);
      FramesThrough(s2, l2);
      FramesThrough(s3, l3);
      FramesThrough(s4, l4);
      l4;
    }
  }

  /** Conv1dSubsampling.__init__: the channel list has one more entry than the
      kernel, stride and padding lists. */
  predicate LayerListsAgree(channels: seq<int>, kernels: seq<int>, strides: seq<int>, paddings: seq<int>) {
    |kernels| == |strides| == |paddings| == |channels| - 1
  }

  datatype ConcatSubsampling = ConcatSubsampling(inChannels: int, outChannels: int)

  /** ConcatSubsampling.__init__: declares in_channels * concat_size output channels. */
  function NewConcatSubsampling(inChannels: int, concatSize: int): (c: ConcatSubsampling)
    ensures c.inChannels == inChannels && c.outChannels == inChannels * concatSize
  {
    ConcatSubsampling(inChannels, inChannels * concatSize)
  }

  datatype Conv1dSubsampling = Conv1dSubsampling(
    channels: seq<int>, kernelSizes: seq<int>, strides: seq<int>, paddings: seq<int>,
    concatInChannels: int, concatSize: int,
    layers: seq<ConvLayer>, subsampling: ConcatSubsampling)

  /** Conv1dSubsampling.__init__: checks the list lengths, then builds one conv
      layer per stride, chaining each layer's input to the previous output. */
  method NewConv1dSubsampling(
    channels: seq<int>, kernels: seq<int>, strides: seq<int>, paddings: seq<int>,
    concatInChannels: int, concatSize: int)
    returns (r: Result<Conv1dSubsampling>)
    ensures r.Err? <==> !LayerListsAgree(channels, kernels, strides, paddings)
    ensures r.Err? ==> r.error.ValueError?
    ensures r.Ok? ==>
      var m := r.value;
      && |m.layers| == |channels| - 1
      && (forall i :: 0 <= i < |m.layers| ==>
            m.layers[i] == ConvLayer(channels[i], channels[i + 1], kernels[i], strides[i], paddings[i]))
      && (forall i :: 0 <= i < |m.layers| - 1 ==> m.layers[i].outChannels == m.layers[i + 1].inChannels)
      && m.subsampling == NewConcatSubsampling(concatInChannels, concatSize)
      && m.channels == channels && m.kernelSizes == kernels && m.strides == strides
      && m.paddings == paddings && m.concatInChannels == concatInChannels && m.concatSize == concatSize
  {
    var nLayers := |channels| - 1;
    if !(|kernels| == |strides| == |paddings| == nLayers) {
      return Err(ValueError("Length mismatch: channels should have 1 more element than kernel_sizes/strides/paddings."));
    }
    var layers: seq<ConvLayer> := [];
    var inChannels := channels[0];
    for i := 0 to nLayers
      invariant |layers| == i
      invariant inChannels == channels[i]
      invariant forall j :: 0 <= j < i ==>
        layers[j] == ConvLayer(channels[j], channels[j + 1], kernels[j], strides[j], paddings[j])
    {
      var outChannels := channels[i + 1];
      var layer := ConvLayer(inChannels, outChannels, kernels[i], strides[i], paddings[i]);
      assert forall j :: 0 <= j < i ==> (layers + [layer])[j] == layers[j];
      layers := layers + [layer];
      inChannels := outChannels;
    }
    forall i | 0 <= i < |layers| - 1 ensures layers[i].outChannels == layers[i + 1].inChannels {
      assert layers[i] == ConvLayer(channels[i], channels[i + 1], kernels[i], strides[i], paddings[i]);
      assert layers[i + 1] == ConvLayer(channels[i + 1], channels[i + 2], kernels[i + 1], strides[i + 1], paddings[i + 1]);
    }
    var sub := NewConcatSubsampling(concatInChannels, concatSize);
    return Ok(Conv1dSubsampling(channels, kernels, strides, paddings, concatInChannels, concatSize, layers, sub));
  }

  /** Conv1dSubsampling.forward's layer loop, followed on the time axis: each
      layer replaces the current frame count by its output length. */
  method ConvStackFrames(layers: seq<ConvLayer>, t: int) returns (frames: int)
    requires PositiveStrides(layers)
    ensures frames == FramesThrough(layers, t)
  {
    frames := t;
    for i := 0 to |layers|
      invariant PositiveStrides(layers[i..])
      invariant FramesThrough(layers[i..], frames) == FramesThrough(layers, t)
    {
      assert layers[i..][1..] == layers[i + 1..];
      frames := ConvOutLength(frames, layers[i]);
    }
  }

  // ---------------------------------------------------------------------------
  // ConcatSubsampling
  // ---------------------------------------------------------------------------

  /** Concatenates frames 2t and 2t+1 for every t; a trailing unpaired frame is
      not part of any pair. */
  function PairFrames<E>(x: seq<seq<E>>): (r: seq<seq<E>>)
    ensures |r| == |x| / 2
  {
    if |x| < 2 then [] else [x[0] + x[1]] + PairFrames(x[2..])
  }

  /** ConcatSubsampling.forward on one batch item: drop an odd last frame, then
      concatenate the even and odd frames along the channel axis. */
  function ConcatFrames<E>(x: seq<seq<E>>): seq<seq<E>> {
    var even := if |x| % 2 != 0 then x[..|x| - 1] else x;
    PairFrames(even)
  }

  lemma {:induction false} PairFramesAt<E>(x: seq<seq<E>>, t: nat)
    requires t < |x| / 2
    ensures PairFrames(x)[t] == x[2 * t] + x[2 * t + 1]
  {
    if t > 0 {
      PairFramesAt(x[2..], t - 1);
    }
  }

  /** Output frame t is input frame 2t followed by input frame 2t+1. */
  lemma ConcatFramesAt<E>(x: seq<seq<E>>, t: nat)
    requires t < |x| / 2
    ensures |ConcatFrames(x)| == |x| / 2
    ensures ConcatFrames(x)[t] == x[2 * t] + x[2 * t + 1]
  {
    var even := if |x| % 2 != 0 then x[..|x| - 1] else x;
    assert |even| / 2 == |x| / 2;
    PairFramesAt(even, t);
  }

  /** Pairing keeps the stream of channel values: flattening the output gives
      the flattened input without its unpaired last frame. */
  lemma {:induction false} ConcatFramesKeepsStream<E>(x: seq<seq<E>>)
    ensures Flatten(ConcatFrames(x)) == Flatten(x[..2 * (|x| / 2)])
  {
    var even := if |x| % 2 != 0 then x[..|x| - 1] else x;
    assert even == x[..2 * (|x| / 2)];
    PairFramesStream(even);
  }

  lemma {:induction false} PairFramesStream<E>(x: seq<seq<E>>)
    requires |x| % 2 == 0
    ensures Flatten(PairFrames(x)) == Flatten(x)
  {
    if |x| >= 2 {
      PairFramesStream(x[2..]);
      assert x[1..][1..] == x[2..];
      calc {
        Flatten(PairFrames(x));
        (x[0] + x[1]) + Flatten(PairFrames(x[2..]));
        (x[0] + x[1]) + Flatten(x[2..]);
        x[0] + (x[1] + Flatten(x[1..][1..]));
        x[0] + Flatten(x[1..]);
      }
    }
  }

  /** Every frame of the batch item has `width` channels. */
  predicate FramesOfWidth<E>(x: seq<seq<E>>, width: int) {
    forall t :: 0 <= t < |x| ==> |x[t]| == width
  }

  /** Frames of width C become frames of width 2C: the declared out_channels
      (in_channels * concat_size) is the real width exactly when concat_size is 2. */
  lemma ConcatFramesWidth<E>(x: seq<seq<E>>, c: nat, concatSize: int)
    requires FramesOfWidth(x, c) && c > 0
    ensures FramesOfWidth(ConcatFrames(x), 2 * c)
    ensures |x| >= 2 ==>
              (FramesOfWidth(ConcatFrames(x), NewConcatSubsampling(c, concatSize).outChannels) <==> concatSize == 2)
  {
    forall t | 0 <= t < |ConcatFrames(x)| ensures |ConcatFrames(x)[t]| == 2 * c {
      ConcatFramesAt(x, t);
    }
    if |x| >= 2 {
      ConcatFramesAt(x, 0);
      assert |ConcatFrames(x)[0]| == 2 * c;
      MulStrict(concatSize, 2, c);
      MulStrict(2, concatSize, c);
    }
  }

  /** ConcatSubsampling.forward's `x_lens // 2`. */
  function HalvedLengths(xLens: seq<int>): (r: seq<int>)
    ensures |r| == |xLens|
  {
    seq(|xLens|, i requires 0 <= i < |xLens| => xLens[i] / 2)
  }

  /** ConcatSubsampling.forward on a batch: every item is paired and every
      length is halved. */
  function ConcatSubsamplingForward<E>(x: seq<seq<seq<E>>>, xLens: seq<int>): (r: (seq<seq<seq<E>>>, seq<int>))
    ensures |r.0| == |x| && |r.1| == |xLens|
    ensures forall b :: 0 <= b < |x| ==> r.0[b] == ConcatFrames(x[b])
    ensures forall i :: 0 <= i < |xLens| ==> r.1[i] == xLens[i] / 2
  {
    (seq(|x|, b requires 0 <= b < |x| => ConcatFrames(x[b])), HalvedLengths(xLens))
  }

  /** The length formula of Conv1dSubsampling.forward on every item of a batch:
      one ceiling division by 160 each. */
  function ConvStackLengths(xLens: seq<int>): (r: seq<int>)
    ensures |r| == |xLens|
    ensures forall i :: 0 <= i < |xLens| ==> r[i] == CeilDiv(xLens[i], 160)
  {
    var lens := seq(|xLens|, i requires 0 <= i < |xLens| => ConvStackLength(xLens[i]));
    forall i | 0 <= i < |xLens| ensures lens[i] == CeilDiv(xLens[i], 160) {
      ConvStackLengthIsNestedCeil(xLens[i]);
    }
    lens
  }

  /** Conv1dSubsampling.forward: the conv stack produces `convOut` (the tensor
      arithmetic is the framework's); the lengths follow the closed form and
      both then pass through ConcatSubsampling, so the returned frames are the
      paired conv frames of every batch item. */
  function Conv1dSubsamplingForward<E>(convOut: seq<seq<seq<E>>>, xLens: seq<int>): (r: (seq<seq<seq<E>>>, seq<int>))
    ensures |r.0| == |convOut| && |r.1| == |xLens|
    ensures forall b :: 0 <= b < |convOut| ==> r.0[b] == ConcatFrames(convOut[b])
    ensures forall i :: 0 <= i < |xLens| ==> r.1[i] == CeilDiv(xLens[i], 160) / 2
    ensures r.1 == HalvedLengths(ConvStackLengths(xLens))
  {
    ConcatSubsamplingForward(convOut, ConvStackLengths(xLens))
  }

  // ---------------------------------------------------------------------------
  // Encoder halving and the padding mask
  // ---------------------------------------------------------------------------

  /** InternTimeSeriesModel.forward after the encoder: halve the lengths once more,
      rounding up, and assert that every length stays positive. */
  function EncoderLengths(xLens: seq<int>): (r: Result<seq<int>>)
    ensures r.Ok? <==> forall i :: 0 <= i < |xLens| ==> xLens[i] >= 1
    ensures r.Err? ==> r.error.AssertionError?
    ensures r.Ok? ==> (|r.value| == |xLens|
      && forall i :: 0 <= i < |xLens| ==> r.value[i] == CeilDiv(xLens[i], 2) && r.value[i] >= 1)
  {
    var halved := seq(|xLens|, i requires 0 <= i < |xLens| => (xLens[i] + 1) / 2);
    forall i | 0 <= i < |xLens| ensures halved[i] == CeilDiv(xLens[i], 2) {
      AddThenFloorIsCeil(xLens[i], 2);
    }
    if forall i :: 0 <= i < |halved| ==> halved[i] > 0 then Ok(halved)
    else Err(AssertionError("The length of time_series_embeds is so small."))
  }

  /** make_pad_mask: row i marks the positions at or beyond lengths[i] as padding,
      over max(lengths) columns. `max()` of an empty tensor and `arange` to a
      negative bound raise. */
  function MakePadMask(lengths: seq<int>): (r: Result<seq<seq<bool>>>)
    ensures r.Ok? <==> |lengths| > 0 && Max(lengths) >= 0
    ensures r.Err? ==> r.error.RuntimeError?
    ensures r.Ok? ==>
      var m := r.value;
      && |m| == |lengths|
      && (forall i :: 0 <= i < |m| ==> |m[i]| == Max(lengths))
      && (forall i, j :: 0 <= i < |m| && 0 <= j < |m[i]| ==> (m[i][j] <==> j >= lengths[i]))
      && (forall i, j :: 0 <= i < |m| && lengths[i] == Max(lengths) && 0 <= j < |m[i]| ==> !m[i][j])
  {
    if |lengths| == 0 then Err(RuntimeError("max(): Expected reduction dim to be specified for input.numel() == 0."))
    else
      var maxLen := Max(lengths);
      if maxLen < 0 then Err(RuntimeError("upper bound and larger bound inconsistent with step sign"))
      else Ok(seq(|lengths|, i requires 0 <= i < |lengths| => seq(maxLen, j => j >= lengths[i])))
  }

  /** The doc-comment example of make_pad_mask. */
  lemma MakePadMaskExample()
    ensures MakePadMask([1, 3, 2, 5]).Ok?
    ensures MakePadMask([1, 3, 2, 5]).value == ([
      [false, true,  true,  true,  true],
      [false, false, false, true,  true],
      [false, false, true,  true,  true],
      [false, false, false, false, false]])
  {
    var lengths := [1, 3, 2, 5];
    assert Max(lengths) == 5 by {
      assert lengths[1..] == [3, 2, 5];
      assert lengths[1..][1..] == [2, 5];
      assert lengths[1..][1..][1..] == [5];
    }
    var m := MakePadMask(lengths).value;
    assert m[0] == [false, true,  true,  true,  true];
    assert m[1] == [false, false, false, true,  true];
    assert m[2] == [false, false, true,  true,  true];
    assert m[3] == [false, false, false, false, false];
    assert |m| == 4;
    assert m == [m[0], m[1], m[2], m[3]];
  }

  /** A row of the padding mask has exactly lengths[i] non-padded cells. */
  lemma PadMaskRowValid(row: seq<bool>, len: int)
    requires 0 <= len <= |row|
    requires forall j :: 0 <= j < |row| ==> (row[j] <==> j >= len)
    ensures Count(Invert([row])[0]) == len
  {
    var inv := Invert([row])[0];
    CountFirstTrue(inv, len);
  }

  /** A row that is true exactly on its first k cells has k true cells. */
  lemma {:induction false} CountFirstTrue(row: seq<bool>, k: int)
    requires 0 <= k <= |row|
    requires forall j :: 0 <= j < |row| ==> (row[j] <==> j < k)
    ensures Count(row) == k
  {
    if |row| > 0 {
      if k > 0 {
        CountFirstTrue(row[1..], k - 1);
      } else {
        CountFirstTrue(row[1..], 0);
      }
    }
  }

  // ---------------------------------------------------------------------------
  // InternTimeSeriesModel.forward, length steps
  // ---------------------------------------------------------------------------

  /** How the time-series input arrives. `signalsRank` is the rank of
      time_series_signals when given; `embedsUsable` is given when
      time_series_embeds is, and says whether it is 3-D with last dimension
      ts_adapt_in_dim. */
  datatype TimeSeriesInput = TimeSeriesInput(signalsRank: Option<nat>, embedsUsable: Option<bool>)

  /** The lengths the encoder is fed: x_lens unchanged (possibly None) for
      ready-made embeddings, through Conv1dSubsampling's length formula for raw
      3-D signals, where a missing x_lens makes `x_lens + 1` raise TypeError. */
  function SubsampledLengths(input: TimeSeriesInput, xLens: Option<seq<int>>): (r: Result<Option<seq<int>>>)
    ensures r.Ok? <==> input.embedsUsable == Some(true) || (input.signalsRank == Some(3) && xLens.Some?)
    ensures input.signalsRank.None? && input.embedsUsable.None? ==> r.Err? && r.error.ValueError?
    ensures input.embedsUsable != Some(true) && input.signalsRank.Some? && input.signalsRank != Some(3) ==>
      r.Err? && r.error.ValueError?
    ensures input.embedsUsable != Some(true) && input.signalsRank == Some(3) && xLens.None? ==>
      r.Err? && r.error.TypeError?
    ensures r.Ok? && input.embedsUsable == Some(true) ==> r.value == xLens
    ensures r.Ok? && input.embedsUsable != Some(true) ==>
      r.value.Some? && |r.value.value| == |xLens.value|
      && forall i :: 0 <= i < |xLens.value| ==> r.value.value[i] == CeilDiv(xLens.value[i], 160) / 2
  {
    if input.signalsRank.None? && input.embedsUsable.None? then
      Err(ValueError("You have to specify time_series_signals or time_series_embeds"))
    else if input.embedsUsable == Some(true) then Ok(xLens)
    else if input.signalsRank.None? then
      Err(AttributeError("'NoneType' object has no attribute 'shape'"))
    else if input.signalsRank == Some(3) then
      if xLens.None? then Err(TypeError("unsupported operand type(s) for +: 'NoneType' and 'int'"))
      else Ok(Some(HalvedLengths(ConvStackLengths(xLens.value))))
    else Err(ValueError("wrong time_series_signals size"))
  }

  /** The steps after the encoder in InternTimeSeriesModel.forward: halve the
      lengths once more, rounding up, assert that they stay positive, and build
      their padding mask. It succeeds exactly for a non-empty batch of positive
      lengths. */
  function LengthsAfterEncoder(lens: seq<int>): (r: Result<(seq<int>, seq<seq<bool>>)>)
    ensures r.Ok? <==> |lens| > 0 && forall i :: 0 <= i < |lens| ==> lens[i] >= 1
    ensures r.Ok? ==>
      var (final, mask) := r.value;
      && |final| == |lens|
      && (forall i :: 0 <= i < |lens| ==> final[i] == CeilDiv(lens[i], 2) && final[i] >= 1)
      && MakePadMask(final) == Ok(mask)
  {
    var final :- EncoderLengths(lens);
    PositiveLengthsMask(final);
    var mask :- MakePadMask(final);
    Ok((final, mask))
  }

  /** The final lengths and padding mask InternTimeSeriesModel.forward returns:
      the subsampled lengths through LengthsAfterEncoder, where a missing x_lens
      makes `x_lens + 1` raise TypeError. */
  function TimeSeriesForwardLengths(input: TimeSeriesInput, xLens: Option<seq<int>>): (r: Result<(seq<int>, seq<seq<bool>>)>)
    ensures r.Ok? <==>
      var sub := SubsampledLengths(input, xLens);
      sub.Ok? && sub.value.Some? && |sub.value.value| > 0 && forall i :: 0 <= i < |sub.value.value| ==> sub.value.value[i] >= 1
    ensures xLens.None? && (input.embedsUsable == Some(true) || input.signalsRank == Some(3)) ==>
      r.Err? && r.error.TypeError?
    ensures r.Ok? ==> r == LengthsAfterEncoder(SubsampledLengths(input, xLens).value.value)
  {
    var lens :- SubsampledLengths(input, xLens);
    if lens.None? then Err(TypeError("unsupported operand type(s) for +: 'NoneType' and 'int'"))
    else LengthsAfterEncoder(lens.value)
  }

  /** Positive lengths have a padding mask exactly when there is at least one. */
  lemma PositiveLengthsMask(lengths: seq<int>)
    requires forall i :: 0 <= i < |lengths| ==> lengths[i] >= 1
    ensures MakePadMask(lengths).Ok? <==> |lengths| > 0
  {
    if |lengths| > 0 {
      assert Max(lengths) >= lengths[0];
    }
  }

  /** Raw signals pass the encoder's positivity assertion exactly when every
      signal has at least 161 samples; the final length is then
      ceil(ceil(L / 160) / 2 / 2), at least 1. */
  lemma {:induction false} MinimumSignalLength(input: TimeSeriesInput, xLens: seq<int>)
    requires input.signalsRank == Some(3) && input.embedsUsable != Some(true)
    requires |xLens| > 0
    ensures TimeSeriesForwardLengths(input, Some(xLens)).Ok? <==> forall i :: 0 <= i < |xLens| ==> xLens[i] >= 161
    ensures TimeSeriesForwardLengths(input, Some(xLens)).Ok? ==>
      var (final, mask) := TimeSeriesForwardLengths(input, Some(xLens)).value;
      |final| == |xLens| && |mask| == |xLens|
      && forall i :: 0 <= i < |xLens| ==> final[i] == CeilDiv(CeilDiv(xLens[i], 160) / 2, 2) >= 1
  {
    var lens := SubsampledLengths(input, Some(xLens)).value.value;
    forall i | 0 <= i < |xLens| ensures lens[i] >= 1 <==> xLens[i] >= 161 {
      var q := CeilDiv(xLens[i], 160);
      assert (q - 1) * 160 < xLens[i] <= q * 160;
      assert lens[i] == q / 2;
    }
  }

  /** The shape comment [B, 64000, 1] -> [B, 200, 256] -> [B, 100, 1024]. */
  lemma ShapeCommentExample()
    ensures SubsampledLengths(TimeSeriesInput(Some(3), None), Some([64000])) == Ok(Some([200]))
    ensures TimeSeriesForwardLengths(TimeSeriesInput(Some(3), None), Some([64000])).Ok?
    ensures TimeSeriesForwardLengths(TimeSeriesInput(Some(3), None), Some([64000])).value.0 == [100]
  {
    var input := TimeSeriesInput(Some(3), None);
    var halved := SubsampledLengths(input, Some([64000])).value.value;
    assert CeilDiv(64000, 160) == 400;
    assert halved[0] == 200;
    assert halved == [200];
    var final := TimeSeriesForwardLengths(input, Some([64000])).value.0;
    assert final[0] == CeilDiv(200, 2) == 100;
    assert final == [100];
  }
}
