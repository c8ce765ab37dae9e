/**
 * Shape arithmetic of the vision path: the patch grid of
 * InternS1VisionPatchEmbeddings, and the number of image tokens
 * InternS1Model.get_image_features produces through pixel_shuffle.
 *
 * A downsampling `scale_factor` is modelled by the integer r = 1 / scale_factor
 * (the default 0.5 is r = 2), so `int(h * scale_factor)` is `h / r` and
 * `int(c / scale_factor)` is `c * r`.
 */
module VisionShapes {
  import opened Outcomes
  import opened IntArith
  import TimeSeriesLengths

  // ---------------------------------------------------------------------------
  // Patch embeddings
  // ---------------------------------------------------------------------------

  /** What InternS1VisionPatchEmbeddings.__init__ derives from the sizes. */
  datatype PatchGrid = PatchGrid(numPatches: int, patchRows: int, patchCols: int)

  /** `num_patches` and `patch_shape` from `image_size` and `patch_size`.
      Both products index entry 1 first, so a size with fewer than two entries
      raises IndexError before any division; a zero patch side then raises
      ZeroDivisionError. */
  function PatchGridOf(imageSize: seq<int>, patchSize: seq<int>): (r: Result<PatchGrid>)
    ensures r.Ok? <==> |imageSize| >= 2 && |patchSize| >= 2 && patchSize[0] != 0 && patchSize[1] != 0
    ensures (|imageSize| < 2 || |patchSize| < 2) ==> r.Err? && r.error.IndexError?
    ensures r.Err? && |imageSize| >= 2 && |patchSize| >= 2 ==> r.error.ZeroDivisionError?
    ensures r.Ok? ==> r.value.numPatches == r.value.patchRows * r.value.patchCols
    ensures r.Ok? && patchSize[0] > 0 ==>
      r.value.patchRows * patchSize[0] <= imageSize[0] < (r.value.patchRows + 1) * patchSize[0]
    ensures r.Ok? && patchSize[1] > 0 ==>
      r.value.patchCols * patchSize[1] <= imageSize[1] < (r.value.patchCols + 1) * patchSize[1]
  {
    if |imageSize| < 2 || |patchSize| < 2 then Err(IndexError("list index out of range"))
    else if patchSize[1] == 0 || patchSize[0] == 0 then Err(ZeroDivisionError("integer division or modulo by zero"))
    else
      var rows := PyFloorDiv(imageSize[0], patchSize[0]);
      var cols := PyFloorDiv(imageSize[1], patchSize[1]);
      Ok(PatchGrid(cols * rows, rows, cols))
  }

  /** The patch grid is the output grid of the projection Conv2d, whose kernel
      and stride are both the patch size: each side of at least one patch gives
      `side // patch` positions. */
  lemma PatchGridIsConvOutput(imageSize: seq<int>, patchSize: seq<int>, inChannels: int, hidden: int)
    requires |imageSize| >= 2 && |patchSize| >= 2
    requires patchSize[0] > 0 && patchSize[1] > 0
    ensures PatchGridOf(imageSize, patchSize).Ok?
    ensures PatchGridOf(imageSize, patchSize).value.patchRows
         == TimeSeriesLengths.ConvOutLength(imageSize[0],
              TimeSeriesLengths.ConvLayer(inChannels, hidden, patchSize[0], patchSize[0], 0))
    ensures PatchGridOf(imageSize, patchSize).value.patchCols
         == TimeSeriesLengths.ConvOutLength(imageSize[1],
              TimeSeriesLengths.ConvLayer(inChannels, hidden, patchSize[1], patchSize[1], 0))
  {
    SubtractOneDivisor(imageSize[0], patchSize[0]);
    SubtractOneDivisor(imageSize[1], patchSize[1]);
  }

  lemma SubtractOneDivisor(a: int, d: int)
    requires d > 0
    ensures (a - d) / d + 1 == a / d
  {
    assert a == d * (a / d) + a % d;
    InBlock(a - d, d, a / d - 1);
  }

  /** InternS1VisionPatchEmbeddings.forward on pixel values of shape
      (batch, channels, height, width): the channel check, then the projection
      Conv2d (kernel and stride the patch size; an image side smaller than the
      kernel is a RuntimeError), flattened to patchHeight * patchWidth positions. */
  function PatchEmbeddingsForward(patchSize: seq<int>, configChannels: int,
                                  pixelChannels: int, height: int, width: int): (r: Result<PatchGrid>)
    requires |patchSize| >= 2 && patchSize[0] > 0 && patchSize[1] > 0
    ensures r.Err? <==> pixelChannels != configChannels || height < patchSize[0] || width < patchSize[1]
    ensures pixelChannels != configChannels ==> r.Err? && r.error.ValueError?
    ensures r.Err? && pixelChannels == configChannels ==> r.error.RuntimeError?
    ensures r.Ok? ==> r.value.numPatches == r.value.patchRows * r.value.patchCols
    ensures r.Ok? ==> r.value.patchRows == TimeSeriesLengths.ConvOutLength(height,
              TimeSeriesLengths.ConvLayer(configChannels, 0, patchSize[0], patchSize[0], 0))
    ensures r.Ok? ==> r.value.patchCols == TimeSeriesLengths.ConvOutLength(width,
              TimeSeriesLengths.ConvLayer(configChannels, 0, patchSize[1], patchSize[1], 0))
  {
    if pixelChannels != configChannels then
      Err(ValueError("Make sure that the channel dimension of the pixel values match with the one set in the configuration."))
    else if height < patchSize[0] || width < patchSize[1] then
      Err(RuntimeError("Kernel size can't be greater than actual input size"))
    else
      var rows := (height - patchSize[0]) / patchSize[0] + 1;
      var cols := (width - patchSize[1]) / patchSize[1] + 1;
      Ok(PatchGrid(rows * cols, rows, cols))
  }

  /** For pixel values at the configured image size, the forward pass yields
      exactly the `num_patches` positions the constructor sized the position
      embeddings for (plus the CLS position). */
  lemma ForwardAtConfiguredSize(imageSize: seq<int>, patchSize: seq<int>, channels: int)
    requires |imageSize| >= 2 && |patchSize| >= 2 && patchSize[0] > 0 && patchSize[1] > 0
    requires imageSize[0] >= patchSize[0] && imageSize[1] >= patchSize[1]
    ensures PatchGridOf(imageSize, patchSize).Ok?
    ensures PatchEmbeddingsForward(patchSize, channels, channels, imageSize[0], imageSize[1])
         == PatchGridOf(imageSize, patchSize)
  {
    SubtractOneDivisor(imageSize[0], patchSize[0]);
    SubtractOneDivisor(imageSize[1], patchSize[1]);
    var rows := imageSize[0] / patchSize[0];
    var cols := imageSize[1] / patchSize[1];
    assert rows * cols == cols * rows;
  }

  // ---------------------------------------------------------------------------
  // Reshapes and pixel shuffle
  // ---------------------------------------------------------------------------

  /** (batch, width, height, channels), the layout pixel_shuffle documents. */
  datatype Shape4 = Shape4(batch: nat, width: nat, height: nat, channels: nat)

  function Numel4(s: Shape4): nat {
    s.batch * s.width * s.height * s.channels
  }

  /** `reshape`/`view` with one `-1`: the known dimensions' product must be
      non-zero and divide the element count; the `-1` becomes the quotient. */
  function InferredDim(numel: nat, known: nat): (r: Result<nat>)
    ensures r.Ok? <==> known > 0 && numel % known == 0
    ensures r.Err? ==> r.error.RuntimeError?
    ensures r.Ok? ==> r.value * known == numel
  {
    if known == 0 || numel % known != 0 then Err(RuntimeError("shape is invalid for input size"))
    else
      assert numel == known * (numel / known) + numel % known;
      Ok(numel / known)
  }

  /** `view` to a fully given shape: the element counts must agree. */
  predicate ViewFits(from: nat, to: nat) {
    from == to
  }

  /** InternS1Model.pixel_shuffle on a (batch, width, height, channels) tensor
      with scale factor 1 / r: two views (each must keep the element count),
      giving (batch, width / r, height / r, channels * r * r). */
  function PixelShuffle(s: Shape4, r: nat): (out: Result<Shape4>)
    requires r > 0
    ensures out.Ok? ==> out.value == Shape4(s.batch, s.width / r, s.height / r, s.channels * r * r)
    ensures out.Err? ==> out.error.RuntimeError?
  {
    var h := s.height / r;
    var c := s.channels * r;
    if !ViewFits(Numel4(s), Numel4(Shape4(s.batch, s.width, h, c))) then
      Err(RuntimeError("view size is not compatible"))
    else
      // permute(0, 2, 1, 3) gives (batch, height / r, width, channels * r)
      var w := s.width / r;
      if !ViewFits(Numel4(Shape4(s.batch, h, s.width, c)), Numel4(Shape4(s.batch, h, w, c * r))) then
        Err(RuntimeError("view size is not compatible"))
      else
        // the final permute(0, 2, 1, 3) swaps back to (batch, width / r, height / r, ...)
        Ok(Shape4(s.batch, w, h, c * r))
  }

  /** Pixel shuffle only rearranges elements: the count is kept. */
  lemma PixelShuffleKeepsNumel(s: Shape4, r: nat)
    requires r > 0
    requires PixelShuffle(s, r).Ok?
    ensures Numel4(PixelShuffle(s, r).value) == Numel4(s)
  {
    var h := s.height / r;
    var w := s.width / r;
    var c := s.channels * r;
    calc {
      Numel4(PixelShuffle(s, r).value);
      s.batch * w * h * (c * r);
      { assert s.batch * w * h * (c * r) == s.batch * h * w * (c * r); }
      s.batch * h * w * (c * r);
      s.batch * h * s.width * c;
      { assert s.batch * h * s.width * c == s.batch * s.width * h * c; }
      s.batch * s.width * h * c;
      Numel4(s);
    }
  }

  lemma MulCancel(x: int, y: int, k: int)
    requires k > 0
    ensures x * k == y * k <==> x == y
  {
    MulStrict(x, y, k);
    MulStrict(y, x, k);
  }

  lemma HeightFactor(b: nat, w: nat, h: nat, c: nat)
    ensures Numel4(Shape4(b, w, h, c)) == (b * w * c) * h
  {
    assert b * w * h * c == (b * w) * (h * c);
    assert (b * w) * (h * c) == (b * w) * (c * h);
  }

  lemma ScaledHeight(b: nat, w: nat, h: nat, c: nat, r: nat)
    ensures Numel4(Shape4(b, w, h, c * r)) == (b * w * c) * (h * r)
  {
    HeightFactor(b, w, h, c * r);
    var bw := b * w;
    assert bw * (c * r) * h == bw * c * (h * r);
  }

  lemma PositiveProduct(a: nat, b: nat, c: nat)
    requires a > 0 && b > 0 && c > 0
    ensures a * b * c > 0
  {
    assert a * b > 0;
  }

  /** The first view of pixel_shuffle keeps the element count iff r divides the height. */
  lemma FirstViewFits(s: Shape4, r: nat)
    requires r > 0
    requires s.batch > 0 && s.width > 0 && s.channels > 0
    ensures ViewFits(Numel4(s), Numel4(Shape4(s.batch, s.width, s.height / r, s.channels * r)))
        <==> s.height % r == 0
  {
    var h := s.height / r;
    assert s.height == r * h + s.height % r;
    HeightFactor(s.batch, s.width, s.height, s.channels);
    ScaledHeight(s.batch, s.width, h, s.channels, r);
    PositiveProduct(s.batch, s.width, s.channels);
    MulCancel(s.height, h * r, s.batch * s.width * s.channels);
  }

  /** The second view keeps the element count iff r divides the width (once the
      reduced height is positive). */
  lemma SecondViewFits(b: nat, h: nat, wid: nat, c: nat, r: nat)
    requires r > 0
    requires b > 0 && h > 0 && c > 0
    ensures ViewFits(Numel4(Shape4(b, h, wid, c)), Numel4(Shape4(b, h, wid / r, c * r)))
        <==> wid % r == 0
  {
    var w := wid / r;
    assert wid == r * w + wid % r;
    HeightFactor(b, h, wid, c);
    ScaledHeight(b, h, w, c, r);
    PositiveProduct(b, h, c);
    MulCancel(wid, w * r, b * h * c);
  }

  /** For a non-empty tensor, pixel shuffle succeeds exactly when r divides
      both the width and the height. */
  lemma PixelShuffleSucceedsIffDivisible(s: Shape4, r: nat)
    requires r > 0
    requires s.batch > 0 && s.width > 0 && s.height > 0 && s.channels > 0
    ensures PixelShuffle(s, r).Ok? <==> s.width % r == 0 && s.height % r == 0
  {
    FirstViewFits(s, r);
    var h := s.height / r;
    if s.height % r == 0 {
      assert s.height == r * h;
      assert s.channels * r > 0;
      SecondViewFits(s.batch, h, s.width, s.channels * r, r);
    }
  }

  /** `int(n ** 0.5)` for the sequence lengths that occur: the integer square root. */
  function IntSqrt(n: nat): (s: nat)
    ensures s * s <= n < (s + 1) * (s + 1)
  {
    if n == 0 then 0
    else
      var t := IntSqrt(n - 1);
      if (t + 1) * (t + 1) <= n then t + 1 else t
  }

  lemma SquareStrict(a: nat, b: nat)
    ensures a < b ==> a * a < b * b
  {
    if a < b {
      assert a * a <= a * b;
      assert a * b < b * b;
    }
  }

  lemma IntSqrtOfSquare(k: nat)
    ensures IntSqrt(k * k) == k
  {
    var s := IntSqrt(k * k);
    SquareStrict(s, k + 0);
    SquareStrict(k, s);
    if s < k {
      SquareStrict(s + 1, k);
    }
  }

  /** A 3-d shape (batch, tokens, channels). */
  datatype Shape3 = Shape3(batch: nat, tokens: nat, channels: nat)

  /** The tensor bookkeeping of InternS1Model.get_image_features from the vision
      tower's (batch, seqLen, hidden) output: the "default" strategy drops the CLS
      position, then the positions go through GridFeatureShape. */
  function ImageFeatureShape(batch: nat, seqLen: nat, hidden: nat, strategy: string, r: nat): (out: Result<Shape3>)
    requires r > 0
    ensures out.Err? ==> out.error.RuntimeError?
    ensures strategy == "default" && seqLen > 0 ==> out == GridFeatureShape(batch, seqLen - 1, hidden, r)
    ensures strategy != "default" ==> out == GridFeatureShape(batch, seqLen, hidden, r)
  {
    var n: nat := if strategy == "default" then (if seqLen == 0 then 0 else seqLen - 1) else seqLen;
    GridFeatureShape(batch, n, hidden, r)
  }

  /** n positions of width hidden are arranged on an int(sqrt(n)) square grid,
      pixel shuffled by 1 / r, and flattened back to (batch, tokens, channels). */
  function GridFeatureShape(batch: nat, n: nat, hidden: nat, r: nat): (out: Result<Shape3>)
    requires r > 0
    ensures out.Err? ==> out.error.RuntimeError?
    ensures out.Ok? ==> out.value.batch == batch
    ensures out.Ok? ==> out.value.batch * out.value.tokens * out.value.channels == batch * n * hidden
  {
    var side := IntSqrt(n);
    var last :- InferredDim(batch * n * hidden, batch * side * side);
    var grid := Shape4(batch, side, side, last);
    GridNumel(batch, side, last);
    var shuffled :- PixelShuffle(grid, r);
    PixelShuffleKeepsNumel(grid, r);
    var tokens :- InferredDim(Numel4(shuffled), batch * shuffled.channels);
    FlatNumel(batch, tokens, shuffled.channels);
    Ok(Shape3(batch, tokens, shuffled.channels))
  }

  /** The element count of a (batch, side, side, last) grid. */
  lemma GridNumel(batch: nat, side: nat, last: nat)
    ensures Numel4(Shape4(batch, side, side, last)) == last * (batch * side * side)
  {
    assert Numel4(Shape4(batch, side, side, last)) == ((batch * side) * side) * last;
  }

  /** The element count of a (batch, tokens, channels) tensor. */
  lemma FlatNumel(batch: nat, tokens: nat, channels: nat)
    ensures batch * tokens * channels == tokens * (batch * channels)
  {
  }

  /** A k by k grid of hidden-wide positions reshapes back to width hidden. */
  lemma GridReshape(batch: nat, k: nat, hidden: nat)
    requires batch > 0 && k > 0
    ensures InferredDim(batch * (k * k) * hidden, batch * k * k) == Ok(hidden)
  {
    var known := batch * k * k;
    PositiveProduct(batch, k, k);
    assert batch * (k * k) * hidden == hidden * known;
    LemmaMulDiv(hidden, known);
  }

  /** The final flatten of a (batch, q, q, c) tensor has q * q tokens. */
  lemma FlattenGrid(batch: nat, q: nat, c: nat)
    requires batch > 0 && c > 0
    ensures InferredDim(Numel4(Shape4(batch, q, q, c)), batch * c) == Ok(q * q)
  {
    assert batch * c > 0;
    assert Numel4(Shape4(batch, q, q, c)) == (q * q) * (batch * c);
    LemmaMulDiv(q * q, batch * c);
  }

  /** When the positions fill a k by k grid and r divides k, every image yields
      (k / r)^2 tokens of hidden * r * r channels. */
  lemma SquareGridTokens(batch: nat, k: nat, hidden: nat, r: nat)
    requires r > 0 && batch > 0 && k > 0 && hidden > 0
    requires k % r == 0
    ensures GridFeatureShape(batch, k * k, hidden, r) == Ok(Shape3(batch, (k / r) * (k / r), hidden * r * r))
  {
    IntSqrtOfSquare(k);
    GridReshape(batch, k, hidden);
    var s := Shape4(batch, k, k, hidden);
    PixelShuffleSucceedsIffDivisible(s, r);
    var q := k / r;
    assert hidden * r * r > 0 by {
      assert hidden * r > 0;
    }
    FlattenGrid(batch, q, hidden * r * r);
  }

  lemma LemmaMulDiv(x: nat, k: nat)
    requires k > 0
    ensures (x * k) % k == 0 && (x * k) / k == x
  {
    InBlock(x * k, k, x);
    assert x * k == k * ((x * k) / k) + (x * k) % k;
  }

  /** The default vision settings: a 448 x 448 image in 14 x 14 patches is a
      32 x 32 grid of 1024 patches; with the CLS position the tower emits 1025
      positions, and pixel shuffle at 0.5 leaves 256 tokens per image. */
  lemma DefaultImageTokens(batch: nat, hidden: nat)
    requires batch > 0 && hidden > 0
    ensures PatchGridOf([448, 448], [14, 14]) == Ok(PatchGrid(1024, 32, 32))
    ensures ImageFeatureShape(batch, 1024 + 1, hidden, "default", 2) == Ok(Shape3(batch, 256, hidden * 4))
  {
    SquareGridTokens(batch, 32, hidden, 2);
    assert hidden * 2 * 2 == hidden * 4;
  }
}
