/**
 * Additive attention masks of the time-series encoder: the causal mask, the
 * expansion of a padding mask, their combination, the block-diagonal chunk
 * mask, and the encoder's choice between them.
 *
 * A mask cell is an integer added to an attention score: 0 lets the query see
 * the key, a negative value blocks it. The causal and expanded masks use the
 * smallest value of the score dtype (torch.finfo(dtype).min), passed in as
 * `minValue`; the chunk mask uses the literal -65504. The singleton head axis
 * of the (bsz, 1, tgt, src) tensors is dropped: a batch mask is indexed
 * [batch][query][key].
 */
module AttentionMasks {
  import opened Outcomes
  import opened IntArith

  type Matrix = seq<seq<int>>
  type BatchMask = seq<Matrix>

  /** The block value of prepare_chunk_attention_mask (the float16 minimum). */
  const CHUNK_BLOCK: int := -65504

  /** A cell lets its query attend to its key. */
  predicate Allowed(v: int) { v == 0 }

  predicate IsMatrix(m: Matrix, rows: nat, cols: nat) {
    |m| == rows && forall i :: 0 <= i < rows ==> |m[i]| == cols
  }

  predicate IsBatchMask(mask: BatchMask, bsz: nat, rows: nat, cols: nat) {
    |mask| == bsz && forall b :: 0 <= b < bsz ==> IsMatrix(mask[b], rows, cols)
  }

  /** torch.full((rows, cols), v) */
  function Full(rows: nat, cols: nat, v: int): (m: Matrix)
    ensures IsMatrix(m, rows, cols)
    ensures forall i, j :: 0 <= i < rows && 0 <= j < cols ==> m[i][j] == v
  {
    seq(rows, i => seq(cols, j => v))
  }

  /** Horizontal concatenation (torch.cat(..., dim=-1)). */
  function CatColumns(a: Matrix, b: Matrix): (m: Matrix)
    requires |a| == |b|
    ensures |m| == |a|
    ensures forall i :: 0 <= i < |a| ==> m[i] == a[i] + b[i]
  {
    seq(|a|, i requires 0 <= i < |a| => a[i] + b[i])
  }

  /** mask[None, None, :, :].expand(bsz, ...): the same matrix for every batch item. */
  function Repeat(bsz: nat, m: Matrix): (r: BatchMask)
    ensures |r| == bsz
    ensures forall b :: 0 <= b < bsz ==> r[b] == m
  {
    seq(bsz, b => m)
  }

  // ---------------------------------------------------------------------------
  // _make_causal_mask
  // ---------------------------------------------------------------------------

  /** The square part of the causal mask: full of minValue, then masked_fill_ with
      0 where the key index is below the query index plus one. */
  function CausalSquare(tgtLen: nat, minValue: int): Matrix {
    var full := Full(tgtLen, tgtLen, minValue);
    seq(tgtLen, i requires 0 <= i < tgtLen =>
      seq(tgtLen, j requires 0 <= j < tgtLen => if j < i + 1 then 0 else full[i][j]))
  }

  /** _make_causal_mask: prepend `past` all-zero key columns when there are past
      key values, then expand over the batch. */
  function MakeCausalMask(bsz: nat, tgtLen: nat, past: nat, minValue: int): (r: BatchMask)
    requires minValue < 0
    ensures IsBatchMask(r, bsz, tgtLen, tgtLen + past)
    ensures forall b :: 0 <= b < bsz ==> r[b] == r[0]
    ensures forall b, i, j :: 0 <= b < bsz && 0 <= i < tgtLen && 0 <= j < past ==> Allowed(r[b][i][j])
    ensures forall b, i, j :: 0 <= b < bsz && 0 <= i < tgtLen && past <= j < tgtLen + past ==>
      r[b][i][j] == (if j - past <= i then 0 else minValue)
  {
    var square := CausalSquare(tgtLen, minValue);
    var withPast := if past > 0 then CatColumns(Full(tgtLen, past, 0), square) else square;
    assert forall i, j :: 0 <= i < tgtLen && past <= j < tgtLen + past ==>
      withPast[i][j] == square[i][j - past];
    Repeat(bsz, withPast)
  }

  /** Row i of the causal mask lets the query see the past columns and the keys
      0..i of the current window, and nothing else. */
  lemma CausalRowAllowed(bsz: nat, tgtLen: nat, past: nat, minValue: int, b: nat, i: nat, j: nat)
    requires minValue < 0
    requires b < bsz && i < tgtLen && j < tgtLen + past
    ensures Allowed(MakeCausalMask(bsz, tgtLen, past, minValue)[b][i][j]) <==> j <= past + i
  {
  }

  // ---------------------------------------------------------------------------
  // _expand_mask
  // ---------------------------------------------------------------------------

  /** _expand_mask: broadcast a (bsz, src) mask over tgtLen query rows (src_len
      when not given), computing 1 - mask and replacing every non-zero cell by
      minValue. */
  function ExpandMask(mask: Matrix, srcLen: nat, tgtLen: Option<nat>, minValue: int): (r: BatchMask)
    requires IsMatrix(mask, |mask|, srcLen)
    requires minValue < 0
    ensures var t := if tgtLen.Some? then tgtLen.value else srcLen;
      && IsBatchMask(r, |mask|, t, srcLen)
      && forall b, i, s :: 0 <= b < |mask| && 0 <= i < t && 0 <= s < srcLen ==>
           r[b][i][s] == (if mask[b][s] == 1 then 0 else minValue)
  {
    var t := if tgtLen.Some? then tgtLen.value else srcLen;
    seq(|mask|, b requires 0 <= b < |mask| =>
      seq(t, i =>
        seq(srcLen, s requires 0 <= s < srcLen =>
          var inverted := 1 - mask[b][s];
          if inverted != 0 then minValue else inverted)))
  }

  /** For a 0/1 padding mask, key s of batch item b is blocked exactly when
      mask[b][s] is 0, in every query row alike. */
  lemma {:induction false} ExpandMaskBinary(mask: Matrix, srcLen: nat, tgtLen: nat, minValue: int, b: nat, i: nat, s: nat)
    requires IsMatrix(mask, |mask|, srcLen) && minValue < 0
    requires forall c, d :: 0 <= c < |mask| && 0 <= d < srcLen ==> mask[c][d] == 0 || mask[c][d] == 1
    requires b < |mask| && i < tgtLen && s < srcLen
    ensures !Allowed(ExpandMask(mask, srcLen, Some(tgtLen), minValue)[b][i][s]) <==> mask[b][s] == 0
    ensures ExpandMask(mask, srcLen, Some(tgtLen), minValue)[b][i] == ExpandMask(mask, srcLen, Some(tgtLen), minValue)[b][0]
  {
    var r := ExpandMask(mask, srcLen, Some(tgtLen), minValue);
    assert mask[b][s] == 0 || mask[b][s] == 1;
    assert |r[b][i]| == |r[b][0]| == srcLen;
    forall s' | 0 <= s' < srcLen ensures r[b][i][s'] == r[b][0][s'] {
    }
  }

  // ---------------------------------------------------------------------------
  // _prepare_decoder_attention_mask
  // ---------------------------------------------------------------------------

  /** Two axis sizes broadcast when they agree or one of them is 1. */
  predicate Broadcastable(a: nat, b: nat) { a == b || a == 1 || b == 1 }

  function BroadcastSize(a: nat, b: nat): nat { if a == 1 then b else a }

  /** The index into an axis of size n that position k of the broadcast result reads. */
  function BroadcastIndex(n: nat, k: nat): nat { if n == 1 then 0 else k }

  /** Element-wise sum of two batch masks of the same query length, with size-1
      batch and key axes broadcast; other shape mismatches raise. */
  function AddMasks(a: BatchMask, aCols: nat, b: BatchMask, bCols: nat, rows: nat): (r: Result<BatchMask>)
    requires IsBatchMask(a, |a|, rows, aCols) && IsBatchMask(b, |b|, rows, bCols)
    ensures r.Ok? <==> Broadcastable(|a|, |b|) && Broadcastable(aCols, bCols)
    ensures r.Err? ==> r.error.RuntimeError?
    ensures r.Ok? ==>
      var bsz := BroadcastSize(|a|, |b|);
      var cols := BroadcastSize(aCols, bCols);
      && IsBatchMask(r.value, bsz, rows, cols)
      && forall n, i, j :: 0 <= n < bsz && 0 <= i < rows && 0 <= j < cols ==>
           r.value[n][i][j] == a[BroadcastIndex(|a|, n)][i][BroadcastIndex(aCols, j)]
                             + b[BroadcastIndex(|b|, n)][i][BroadcastIndex(bCols, j)]
  {
    if !(Broadcastable(|a|, |b|) && Broadcastable(aCols, bCols)) then
      Err(RuntimeError("The size of tensor a must match the size of tensor b"))
    else
      var bsz := BroadcastSize(|a|, |b|);
      var cols := BroadcastSize(aCols, bCols);
      Ok(seq(bsz, n requires 0 <= n < bsz =>
        seq(rows, i requires 0 <= i < rows =>
          seq(cols, j requires 0 <= j < cols =>
            a[BroadcastIndex(|a|, n)][i][BroadcastIndex(aCols, j)]
            + b[BroadcastIndex(|b|, n)][i][BroadcastIndex(bCols, j)]))))
  }

  /** _prepare_decoder_attention_mask for input shape (bsz, tgtLen): a causal mask
      when there is more than one query position, the expanded padding mask when
      one is given, their sum when both are present, and None otherwise. */
  function PrepareDecoderAttentionMask(attentionMask: Option<Matrix>, srcLen: nat, bsz: nat, tgtLen: nat, past: nat, minValue: int): (r: Result<Option<BatchMask>>)
    requires attentionMask.Some? ==> IsMatrix(attentionMask.value, |attentionMask.value|, srcLen)
    requires minValue < 0
    ensures r.Ok? && r.value.None? <==> tgtLen <= 1 && attentionMask.None?
    ensures attentionMask.None? ==>
      r == Ok(if tgtLen > 1 then Some(MakeCausalMask(bsz, tgtLen, past, minValue)) else None)
    ensures attentionMask.Some? && tgtLen <= 1 ==>
      r == Ok(Some(ExpandMask(attentionMask.value, srcLen, Some(tgtLen), minValue)))
  {
    var combined: Option<BatchMask> := if tgtLen > 1 then Some(MakeCausalMask(bsz, tgtLen, past, minValue)) else None;
    if attentionMask.None? then Ok(combined)
    else
      var expanded := ExpandMask(attentionMask.value, srcLen, Some(tgtLen), minValue);
      if combined.None? then Ok(Some(expanded))
      else
        var sum :- AddMasks(expanded, srcLen, combined.value, tgtLen + past, tgtLen);
        Ok(Some(sum))
  }

  /** With both masks present, a cell of the sum lets the query attend exactly
      when the padding mask and the causal mask both do. */
  lemma {:induction false} CombinedMaskAllowed(mask: Matrix, bsz: nat, tgtLen: nat, past: nat, minValue: int, n: nat, i: nat, j: nat)
    requires IsMatrix(mask, bsz, tgtLen + past) && minValue < 0 && tgtLen > 1
    requires n < bsz && i < tgtLen && j < tgtLen + past
    ensures var r := PrepareDecoderAttentionMask(Some(mask), tgtLen + past, bsz, tgtLen, past, minValue);
      && r.Ok? && r.value.Some?
      && (Allowed(r.value.value[n][i][j]) <==> mask[n][j] == 1 && j <= past + i)
  {
    var expanded := ExpandMask(mask, tgtLen + past, Some(tgtLen), minValue);
    var causal := MakeCausalMask(bsz, tgtLen, past, minValue);
    var sum := AddMasks(expanded, tgtLen + past, causal, tgtLen + past, tgtLen);
    assert sum.Ok?;
    CausalRowAllowed(bsz, tgtLen, past, minValue, n, i, j);
    assert sum.value[n][i][j] == expanded[n][i][j] + causal[n][i][j] by {
      if bsz == 1 { assert n == 0; }
    }
  }

  // ---------------------------------------------------------------------------
  // prepare_chunk_attention_mask
  // ---------------------------------------------------------------------------

  /** The block-diagonal chunk mask over n positions: positions i and j see each
      other exactly when they fall in the same block of blockSize positions
      (the trailing remainder is a block of its own). */
  function ChunkMatrix(n: nat, blockSize: nat): Matrix
    requires blockSize > 0
  {
    seq(n, i => seq(n, j => if i / blockSize == j / blockSize then 0 else CHUNK_BLOCK))
  }

  /** matrix[lo:hi, lo:hi] = v */
  function AssignBlock(m: Matrix, lo: nat, hi: nat, v: int): (r: Matrix)
    ensures |r| == |m|
    ensures forall i :: 0 <= i < |m| ==> |r[i]| == |m[i]|
    ensures forall i, j :: 0 <= i < |m| && 0 <= j < |m[i]| ==>
      r[i][j] == (if lo <= i < hi && lo <= j < hi then v else m[i][j])
  {
    seq(|m|, i requires 0 <= i < |m| =>
      seq(|m[i]|, j requires 0 <= j < |m[i]| => if lo <= i < hi && lo <= j < hi then v else m[i][j]))
  }

  /** matrix * k */
  function Scale(m: Matrix, k: int): (r: Matrix)
    ensures |r| == |m|
    ensures forall i :: 0 <= i < |m| ==> |r[i]| == |m[i]|
    ensures forall i, j :: 0 <= i < |m| && 0 <= j < |m[i]| ==> r[i][j] == m[i][j] * k
  {
    seq(|m|, i requires 0 <= i < |m| => seq(|m[i]|, j requires 0 <= j < |m[i]| => m[i][j] * k))
  }

  /** The loop state after zeroing the first k full blocks of a matrix of ones. */
  predicate ZeroedBlocks(m: Matrix, n: nat, b: nat, k: nat)
    requires b > 0
  {
    IsMatrix(m, n, n)
    && forall r, c :: 0 <= r < n && 0 <= c < n ==>
         m[r][c] == (if r / b == c / b && r / b < k then 0 else 1)
  }

  /** A matrix of ones has no zeroed block yet. */
  lemma NoBlockZeroed(n: nat, b: nat)
    requires b > 0
    ensures ZeroedBlocks(Full(n, n, 1), n, b, 0)
  {
  }

  /** Zeroing block k extends the zeroed prefix of blocks by one. */
  lemma ZeroBlockStep(m: Matrix, n: nat, b: nat, k: nat)
    requires b > 0 && ZeroedBlocks(m, n, b, k)
    ensures ZeroedBlocks(AssignBlock(m, k * b, k * b + b, 0), n, b, k + 1)
  {
    var m' := AssignBlock(m, k * b, k * b + b, 0);
    forall r, c | 0 <= r < n && 0 <= c < n
      ensures m'[r][c] == (if r / b == c / b && r / b < k + 1 then 0 else 1)
    {
      InBlock(r, b, k);
      InBlock(c, b, k);
    }
  }

  /** After the full blocks, zeroing the remainder block (when there is one)
      leaves zeros exactly on the cells of a common block. */
  lemma RemainderStep(m: Matrix, n: nat, b: nat, q: nat, rem: int)
    requires b > 0 && q == n / b && rem == n % b && ZeroedBlocks(m, n, b, q)
    ensures var m' := if rem > 0 then AssignBlock(m, q * b, q * b + rem, 0) else m;
      ZeroedBlocks(m', n, b, q + 1)
  {
    assert n == q * b + rem;
    var m' := if rem > 0 then AssignBlock(m, q * b, q * b + rem, 0) else m;
    forall r, c | 0 <= r < n && 0 <= c < n
      ensures m'[r][c] == (if r / b == c / b && r / b < q + 1 then 0 else 1)
    {
      InBlock(r, b, q);
      InBlock(c, b, q);
      DivBelow(r, n, b);
      DivBelow(c, n, b);
    }
  }

  /** The state after the full-block loop of either sign, followed by the
      remainder block: a remainder block exists only for a positive block size. */
  lemma AfterFullBlocks(m: Matrix, n: nat, b: int, q: int, rem: int)
    requires b != 0 && (q, rem) == BlockCounts(n, b)
    requires b > 0 ==> ZeroedBlocks(m, n, b, q)
    requires b < 0 ==> ZeroedBlocks(m, n, 1, 0)
    ensures rem > 0 ==> q * b >= 0
    ensures var m' := if rem > 0 then AssignBlock(m, q * b, q * b + rem, 0) else m;
      && (b > 0 ==> ZeroedBlocks(m', n, b, n / b + 1))
      && (b < 0 ==> ZeroedBlocks(m', n, 1, 0))
  {
    if b > 0 {
      RemainderStep(m, n, b, q, rem);
    }
  }

  /** Scaling the finished 0/1 matrix by -65504 gives the chunk mask. */
  lemma ScaledIsChunk(m: Matrix, n: nat, b: nat)
    requires b > 0 && ZeroedBlocks(m, n, b, n / b + 1)
    ensures Scale(m, CHUNK_BLOCK) == ChunkMatrix(n, b)
  {
    var s := Scale(m, CHUNK_BLOCK);
    var spec := ChunkMatrix(n, b);
    forall r | 0 <= r < n ensures s[r] == spec[r] {
      forall c | 0 <= c < n ensures s[r][c] == spec[r][c] {
        DivBelow(r, n, b);
      }
    }
  }

  /** Scaling a matrix of ones (no block zeroed) by k gives the constant matrix k. */
  lemma ScaledOnes(m: Matrix, n: nat, k: int)
    requires ZeroedBlocks(m, n, 1, 0)
    ensures Scale(m, k) == Full(n, n, k)
  {
    var s := Scale(m, k);
    forall r | 0 <= r < n ensures s[r] == Full(n, n, k)[r] {
    }
  }

  /** The number of full blocks and the remainder, `matrix_size // block_size`
      and `matrix_size % block_size` in Python's floor semantics: Dafny's `/`
      and `%` for a positive block size; for a negative one both are at most 0,
      so neither a full block nor a remainder block is zeroed. */
  function BlockCounts(n: nat, b: int): (counts: (int, int))
    requires b != 0
    ensures counts == (PyFloorDiv(n, b), PyMod(n, b))
    ensures b > 0 ==> counts == (n / b, n % b) && counts.0 >= 0
    ensures b < 0 ==> counts.0 <= 0 && counts.1 <= 0
  {
    var q := PyFloorDiv(n, b);
    if b > 0 then
      assert n == b * (n / b) + n % b;
      (q, PyMod(n, b))
    else
      NegativeDivisorQuotient(n, b);
      (q, PyMod(n, b))
  }

  /** A non-negative number floor-divided by a negative divisor gives at most 0. */
  lemma NegativeDivisorQuotient(n: nat, b: int)
    requires b < 0
    ensures PyFloorDiv(n, b) <= 0
  {
    var q := PyFloorDiv(n, b);
    if q > 0 {
      MulStrict(0, q, -b);
    }
  }

  /** prepare_chunk_attention_mask: a matrix of ones whose full diagonal blocks,
      then the remainder block, are zeroed one by one, scaled by -65504 and
      repeated over the batch. The block count and remainder are Python's `//`
      and `%`, so a negative block size runs no iteration, zeroes nothing and
      blocks every cell. */
  method PrepareChunkAttentionMask(bsz: nat, n: nat, blockSize: int) returns (mask: BatchMask)
    requires blockSize != 0
    ensures blockSize > 0 ==> mask == Repeat(bsz, ChunkMatrix(n, blockSize))
    ensures blockSize < 0 ==> mask == Repeat(bsz, Full(n, n, CHUNK_BLOCK))
  {
    var b := blockSize;
    var matrix := Full(n, n, 1);
    var (numFullBlocks, remainder) := BlockCounts(n, b);
    NoBlockZeroed(n, if b > 0 then b else 1);
    for k := 0 to if numFullBlocks > 0 then numFullBlocks else 0
      invariant b > 0 ==> ZeroedBlocks(matrix, n, b, k)
      invariant b < 0 ==> ZeroedBlocks(matrix, n, 1, 0)
    {
      var bp: nat := b;
      ZeroBlockStep(matrix, n, bp, k);
      var rowStart := k * bp;
      matrix := AssignBlock(matrix, rowStart, rowStart + bp, 0);
    }
    AfterFullBlocks(matrix, n, b, numFullBlocks, remainder);
    if remainder > 0 {
      var lastStart := numFullBlocks * b;
      matrix := AssignBlock(matrix, lastStart, lastStart + remainder, 0);
    }
    if b > 0 {
      ScaledIsChunk(matrix, n, b);
    } else {
      ScaledOnes(matrix, n, CHUNK_BLOCK);
    }
    matrix := Scale(matrix, CHUNK_BLOCK);
    mask := Repeat(bsz, matrix);
  }

  /** The chunk mask is symmetric, its diagonal is allowed, and a query sees a
      key exactly when both lie in the same block. */
  lemma ChunkMatrixShape(n: nat, blockSize: nat)
    requires blockSize > 0
    ensures IsMatrix(ChunkMatrix(n, blockSize), n, n)
    ensures forall i, j :: 0 <= i < n && 0 <= j < n ==> ChunkMatrix(n, blockSize)[i][j] == ChunkMatrix(n, blockSize)[j][i]
    ensures forall i :: 0 <= i < n ==> Allowed(ChunkMatrix(n, blockSize)[i][i])
    ensures forall i, j :: 0 <= i < n && 0 <= j < n ==>
      ChunkMatrix(n, blockSize)[i][j] == (if i / blockSize == j / blockSize then 0 else CHUNK_BLOCK)
  {
  }

  /** With blocks of size b, query i sees exactly the keys from (i / b) * b up to
      the end of its block or the end of the sequence. */
  lemma ChunkRowWindow(n: nat, blockSize: nat, i: nat, j: nat)
    requires blockSize > 0 && i < n && j < n
    ensures Allowed(ChunkMatrix(n, blockSize)[i][j]) <==>
      (i / blockSize) * blockSize <= j < (i / blockSize) * blockSize + blockSize
  {
    InBlock(j, blockSize, i / blockSize);
  }

  // ---------------------------------------------------------------------------
  // InternTimeSeriesEncoder: mask selection
  // ---------------------------------------------------------------------------

  /** The mask state of an InternTimeSeriesEncoder. `blockSize` is the chunk
      block size derived from chunk_length (None when no chunk length was set). */
  class TimeSeriesEncoder {
    var maskType: Option<string>
    var blockSize: Option<int>

    /** __init__ leaves mask_type and chunk_length unset. */
    constructor()
      ensures maskType == None && blockSize == None
    {
      maskType := None;
      blockSize := None;
    }

    /** define_masktype */
    method DefineMaskType(newMaskType: Option<string>, newBlockSize: Option<int>)
      modifies this
      ensures maskType == newMaskType && blockSize == newBlockSize
    {
      maskType := newMaskType;
      blockSize := newBlockSize;
    }

    /** The self-attention mask forward builds for hidden states of shape
        (bsz, seqLen): the chunk mask when mask_type is 'chunk', otherwise the
        decoder mask with no padding mask and no past keys. */
    method SelfAttentionMask(bsz: nat, seqLen: nat, minValue: int) returns (r: Result<Option<BatchMask>>)
      requires minValue < 0
      ensures maskType == Some("chunk") ==>
        match blockSize
        case None => r.Err? && r.error.TypeError?
        case Some(b) =>
          if b == 0 then r.Err? && r.error.ZeroDivisionError?
          else if b > 0 then r == Ok(Some(Repeat(bsz, ChunkMatrix(seqLen, b))))
          else r == Ok(Some(Repeat(bsz, Full(seqLen, seqLen, CHUNK_BLOCK))))
      ensures maskType != Some("chunk") ==>
        r == Ok(if seqLen > 1 then Some(MakeCausalMask(bsz, seqLen, 0, minValue)) else None)
    {
      if maskType == Some("chunk") {
        if blockSize.None? {
          return Err(TypeError("unsupported operand type(s) for /: 'NoneType' and 'int'"));
        }
        if blockSize.value == 0 {
          return Err(ZeroDivisionError("integer division or modulo by zero"));
        }
        var chunk := PrepareChunkAttentionMask(bsz, seqLen, blockSize.value);
        return Ok(Some(chunk));
      }
      r := PrepareDecoderAttentionMask(None, 0, bsz, seqLen, 0, minValue);
    }
  }
}
