/**
 * How InternS1Model.forward merges image and time-series features into the
 * token embeddings: placeholder positions are found by token id (or, without
 * input ids, by equality with the placeholder's embedding), the feature count
 * must equal the placeholder count, and the features are scattered into the
 * placeholders in row-major order (torch masked_scatter).
 *
 * An embedding vector, a projected image feature row and a projected
 * time-series feature row are all values of one generic type T: every
 * feature row has the language model's hidden size, so comparing element
 * counts is comparing row counts.
 */
module ModalityMerge {
  import opened Outcomes
  import opened SeqUtil

  type Embeddings<T> = seq<seq<T>>

  /** Two matrices have the same rows and row lengths. */
  predicate SameShape<T, U>(x: seq<seq<T>>, m: seq<seq<U>>) {
    |x| == |m| && forall b :: 0 <= b < |x| ==> |x[b]| == |m[b]|
  }

  // ---------------------------------------------------------------------------
  // masked_scatter and boolean selection
  // ---------------------------------------------------------------------------

  /** masked_scatter on one row: the masked positions take the values of src in order. */
  function ScatterRow<T>(row: seq<T>, m: seq<bool>, src: seq<T>): (r: seq<T>)
    requires |m| == |row| && Count(m) <= |src|
    ensures |r| == |row|
  {
    if |row| == 0 then []
    else if m[0] then [src[0]] + ScatterRow(row[1..], m[1..], src[1..])
    else [row[0]] + ScatterRow(row[1..], m[1..], src)
  }

  /** The number of true cells strictly before a true cell is below the row's total. */
  lemma CountBeforeTrue(m: seq<bool>, j: nat)
    requires j < |m|
    ensures m[j] ==> Count(m[..j]) < Count(m)
  {
    CountPrefixStep(m, j);
    assert m == m[..j + 1] + m[j + 1..];
    CountAppend(m[..j + 1], m[j + 1..]);
  }

  /** Counting a prefix of length j > 0: the first cell, then a prefix of the rest. */
  lemma CountPrefixTail(m: seq<bool>, j: nat)
    requires 0 < j <= |m|
    ensures Count(m[..j]) == (if m[0] then 1 else 0) + Count(m[1..][..j - 1])
  {
    assert m[..j] == [m[0]] + m[1..][..j - 1];
    CountAppend([m[0]], m[1..][..j - 1]);
    assert Count([m[0]]) == (if m[0] then 1 else 0) by {
      assert [m[0]][1..] == [];
    }
  }

  /** Past the first position, a scattered row is the scatter of the rest. */
  lemma ScatterRowTail<T>(row: seq<T>, m: seq<bool>, src: seq<T>, j: nat)
    requires |m| == |row| && Count(m) <= |src| && 0 < j < |row|
    ensures var src' := if m[0] then src[1..] else src;
      Count(m[1..]) <= |src'| && ScatterRow(row, m, src)[j] == ScatterRow(row[1..], m[1..], src')[j - 1]
  {
  }

  /** Position j of a scattered row: the k-th masked position (k counted from 0)
      receives src[k], every other position keeps its value. */
  lemma {:induction false} ScatterRowAt<T>(row: seq<T>, m: seq<bool>, src: seq<T>, j: nat)
    requires |m| == |row| && Count(m) <= |src| && j < |row|
    ensures m[j] ==> Count(m[..j]) < |src|
    ensures ScatterRow(row, m, src)[j] == if m[j] then src[Count(m[..j])] else row[j]
  {
    if m[j] {
      CountBeforeTrue(m, j);
    }
    if j > 0 {
      var src' := if m[0] then src[1..] else src;
      ScatterRowTail(row, m, src, j);
      ScatterRowAt(row[1..], m[1..], src', j - 1);
      CountPrefixTail(m, j);
    }
  }

  /** masked_scatter on a batch: the masked cells, taken in row-major order,
      receive the values of src in order. */
  function Scatter<T>(x: Embeddings<T>, m: seq<seq<bool>>, src: seq<T>): (r: Embeddings<T>)
    requires SameShape(x, m) && Total(m) <= |src|
    ensures SameShape(r, x)
  {
    if |x| == 0 then []
    else
      var c := Count(m[0]);
      [ScatterRow(x[0], m[0], src[..c])] + Scatter(x[1..], m[1..], src[c..])
  }

  /** The row-major rank of cell (b, s) among the true cells of m. */
  function Rank(m: seq<seq<bool>>, b: nat, s: nat): (k: nat)
    requires b < |m| && s < |m[b]|
    ensures m[b][s] ==> k < Total(m)
  {
    assert m == m[..b] + [m[b]] + m[b + 1..];
    TotalAppend(m[..b] + [m[b]], m[b + 1..]);
    TotalAppend(m[..b], [m[b]]);
    assert Total([m[b]]) == Count(m[b]) by {
      assert [m[b]][1..] == [];
    }
    CountBeforeTrue(m[b], s);
    Total(m[..b]) + Count(m[b][..s])
  }

  /** The rank of a cell of the first row counts within that row only. */
  lemma RankFirstRow(m: seq<seq<bool>>, s: nat)
    requires 0 < |m| && s < |m[0]|
    ensures Rank(m, 0, s) == Count(m[0][..s])
  {
    assert m[..0] == [];
  }

  /** The rank of a cell below the first row adds the first row's count to its
      rank in the remaining rows. */
  lemma RankLaterRow(m: seq<seq<bool>>, b: nat, s: nat)
    requires 0 < b < |m| && s < |m[b]|
    ensures Rank(m, b, s) == Count(m[0]) + Rank(m[1..], b - 1, s)
  {
    assert m[..b] == [m[0]] + m[1..][..b - 1];
    TotalAppend([m[0]], m[1..][..b - 1]);
    assert Total([m[0]]) == Count(m[0]) by {
      assert [m[0]][1..] == [];
    }
  }

  /** Cell (b, s) of the scattered batch: a masked cell receives the feature of its
      row-major rank, every other cell keeps its embedding. */
  lemma {:induction false} ScatterAt<T>(x: Embeddings<T>, m: seq<seq<bool>>, src: seq<T>, b: nat, s: nat)
    requires SameShape(x, m) && Total(m) <= |src|
    requires b < |x| && s < |x[b]|
    ensures m[b][s] ==> Rank(m, b, s) < |src|
    ensures Scatter(x, m, src)[b][s] == if m[b][s] then src[Rank(m, b, s)] else x[b][s]
  {
    var c := Count(m[0]);
    if b == 0 {
      ScatterRowAt(x[0], m[0], src[..c], s);
      RankFirstRow(m, s);
    } else {
      ScatterAt(x[1..], m[1..], src[c..], b - 1, s);
      RankLaterRow(m, b, s);
    }
  }

  /** tensor[keep] on one row: the kept values in order. */
  function Select<T>(row: seq<T>, keep: seq<bool>): (r: seq<T>)
    requires |keep| == |row|
    ensures |r| == Count(keep)
  {
    if |row| == 0 then []
    else (if keep[0] then [row[0]] else []) + Select(row[1..], keep[1..])
  }

  /** tensor[keep] on a batch: the kept cells in row-major order. */
  function SelectAll<T>(x: seq<seq<T>>, keep: seq<seq<bool>>): (r: seq<T>)
    requires SameShape(x, keep)
    ensures |r| == Total(keep)
  {
    if |x| == 0 then [] else Select(x[0], keep[0]) + SelectAll(x[1..], keep[1..])
  }

  lemma {:induction false} ScatterSelectRow<T>(row: seq<T>, keep: seq<bool>)
    requires |keep| == |row|
    ensures ScatterRow(row, keep, Select(row, keep)) == row
  {
    if |row| > 0 {
      ScatterSelectRow(row[1..], keep[1..]);
      if keep[0] {
        assert Select(row, keep)[1..] == Select(row[1..], keep[1..]);
      } else {
        assert Select(row, keep) == Select(row[1..], keep[1..]);
      }
    }
  }

  /** Selection and scattering are inverse: scattering the kept cells back into
      the same mask restores the batch. So selection takes exactly the kept
      cells, each once, in row-major order. */
  lemma {:induction false} ScatterSelect<T>(x: seq<seq<T>>, keep: seq<seq<bool>>)
    requires SameShape(x, keep)
    ensures Scatter(x, keep, SelectAll(x, keep)) == x
  {
    if |x| > 0 {
      var sel := SelectAll(x, keep);
      var c := Count(keep[0]);
      assert sel[..c] == Select(x[0], keep[0]);
      assert sel[c..] == SelectAll(x[1..], keep[1..]);
      ScatterSelectRow(x[0], keep[0]);
      ScatterSelect(x[1..], keep[1..]);
    }
  }

  /** The kept cell of row-major rank k is element k of the selection. */
  lemma SelectAllAt<T>(x: seq<seq<T>>, keep: seq<seq<bool>>, b: nat, s: nat)
    requires SameShape(x, keep) && b < |x| && s < |x[b]| && keep[b][s]
    ensures Rank(keep, b, s) < |SelectAll(x, keep)|
    ensures SelectAll(x, keep)[Rank(keep, b, s)] == x[b][s]
  {
    ScatterSelect(x, keep);
    ScatterAt(x, keep, SelectAll(x, keep), b, s);
  }

  // ---------------------------------------------------------------------------
  // Placeholder masks
  // ---------------------------------------------------------------------------

  /** Element-wise equality with one value: `input_ids == token_id` on ids, and
      `(inputs_embeds == embedding(token_id)).all(-1)` on embedding vectors, where
      a vector is one value of T. */
  function EqualsMask<T(==)>(x: seq<seq<T>>, v: T): (m: seq<seq<bool>>)
    ensures SameShape(m, x)
    ensures forall b, s :: 0 <= b < |x| && 0 <= s < |x[b]| ==> (m[b][s] <==> x[b][s] == v)
  {
    seq(|x|, b requires 0 <= b < |x| => seq(|x[b]|, s requires 0 <= s < |x[b]| => x[b][s] == v))
  }

  /** get_input_embeddings()(input_ids) */
  function Embed<T>(ids: seq<seq<int>>, embed: int -> T): (x: Embeddings<T>)
    ensures SameShape(x, ids)
    ensures forall b, s :: 0 <= b < |ids| && 0 <= s < |ids[b]| ==> x[b][s] == embed(ids[b][s])
  {
    seq(|ids|, b requires 0 <= b < |ids| => seq(|ids[b]|, s requires 0 <= s < |ids[b]| => embed(ids[b][s])))
  }

  // ---------------------------------------------------------------------------
  // InternS1Model.forward
  // ---------------------------------------------------------------------------

  /** Exactly one of input_ids and inputs_embeds; with ids, look the embeddings up. */
  function ResolveEmbeddings<T>(inputIds: Option<seq<seq<int>>>, inputsEmbeds: Option<Embeddings<T>>, embed: int -> T): (r: Result<Embeddings<T>>)
    ensures r.Err? <==> (inputIds.Some? == inputsEmbeds.Some?)
    ensures r.Err? ==> r.error.ValueError?
    ensures r.Ok? && inputIds.Some? ==> r.value == Embed(inputIds.value, embed)
    ensures r.Ok? && inputsEmbeds.Some? ==> r.value == inputsEmbeds.value
  {
    if inputIds.None? != inputsEmbeds.Some? then
      Err(ValueError("You must specify exactly one of input_ids or inputs_embeds"))
    else if inputIds.Some? then Ok(Embed(inputIds.value, embed))
    else Ok(inputsEmbeds.value)
  }

  /** The placeholder mask of one modality: by token id when input ids are
      given, by equality with the placeholder token's embedding otherwise. */
  function PlaceholderMask<T(==)>(inputIds: Option<seq<seq<int>>>, x: Embeddings<T>, embed: int -> T, token: int): (m: seq<seq<bool>>)
    requires inputIds.Some? ==> SameShape(inputIds.value, x)
    ensures SameShape(m, x)
    ensures forall b, s :: 0 <= b < |x| && 0 <= s < |x[b]| ==>
      (m[b][s] <==> if inputIds.Some? then inputIds.value[b][s] == token else x[b][s] == embed(token))
  {
    if inputIds.Some? then EqualsMask(inputIds.value, token) else EqualsMask(x, embed(token))
  }

  /** One masked_scatter step with its count check: the placeholder count must equal
      the feature row count, else ValueError. */
  function MergeFeatures<T>(x: Embeddings<T>, mask: seq<seq<bool>>, features: seq<T>, what: string): (r: Result<Embeddings<T>>)
    requires SameShape(x, mask)
    ensures r.Ok? <==> Total(mask) == |features|
    ensures r.Err? ==> r.error.ValueError?
    ensures r.Ok? ==> r.value == Scatter(x, mask, features)
    ensures r.Ok? ==> (SameShape(r.value, x)
      && forall b, s :: 0 <= b < |x| && 0 <= s < |x[b]| ==>
           r.value[b][s] == if mask[b][s] then features[Rank(mask, b, s)] else x[b][s])
  {
    if Total(mask) != |features| then
      Err(ValueError(what + " features and " + what + " tokens do not match"))
    else
      var merged := Scatter(x, mask, features);
      forall b, s | 0 <= b < |x| && 0 <= s < |x[b]|
        ensures merged[b][s] == if mask[b][s] then features[Rank(mask, b, s)] else x[b][s]
      {
        ScatterAt(x, mask, features, b, s);
      }
      Ok(merged)
  }

  /** The valid (non-padded) time-series feature rows: features[~ts_pad_mask],
      which raises when the mask does not have the features' shape. */
  function ValidTimeSeriesFeatures<T>(features: seq<seq<T>>, padMask: seq<seq<bool>>): (r: Result<seq<T>>)
    ensures r.Ok? <==> SameShape(features, padMask)
    ensures r.Err? ==> r.error.IndexError?
    ensures r.Ok? ==> r.value == SelectAll(features, Invert(padMask))
  {
    if !SameShape(features, padMask) then Err(IndexError("The shape of the mask does not match the shape of the indexed tensor"))
    else Ok(SelectAll(features, Invert(padMask)))
  }

  /** The inputs of InternS1Model.forward that decide its merge: the image
      feature rows when pixel_values is given, and the time-series feature rows
      with their padding mask when time_series_signals is. */
  datatype ForwardInput<T> = ForwardInput(
    inputIds: Option<seq<seq<int>>>,
    inputsEmbeds: Option<Embeddings<T>>,
    imageFeatures: Option<seq<T>>,
    timeSeries: Option<(seq<seq<T>>, seq<seq<bool>>)>)

  /** The embeddings after the image step of InternS1Model.forward: the image
      features scattered into the image placeholders when there are images. */
  function AfterImages<T(==)>(input: ForwardInput<T>, x: Embeddings<T>, embed: int -> T, imageTokenId: int): (x1: Embeddings<T>)
    requires input.inputIds.Some? ==> SameShape(input.inputIds.value, x)
    requires input.imageFeatures.Some? ==>
      Total(PlaceholderMask(input.inputIds, x, embed, imageTokenId)) == |input.imageFeatures.value|
    ensures SameShape(x1, x)
  {
    if input.imageFeatures.None? then x
    else Scatter(x, PlaceholderMask(input.inputIds, x, embed, imageTokenId), input.imageFeatures.value)
  }

  /** When the merge of InternS1Model.forward succeeds: exactly one of input
      ids and input embeddings is given, the image placeholders are as many as
      the image feature rows, and the time-series features have their padding
      mask's shape and as many valid rows as there are time-series placeholders
      (counted after the image step). */
  predicate MergeSucceeds<T(==)>(input: ForwardInput<T>, embed: int -> T, imageTokenId: int, tsTokenId: int) {
    && input.inputIds.Some? != input.inputsEmbeds.Some?
    && var x := ResolveEmbeddings(input.inputIds, input.inputsEmbeds, embed).value;
    && (input.imageFeatures.Some? ==>
          Total(PlaceholderMask(input.inputIds, x, embed, imageTokenId)) == |input.imageFeatures.value|)
    && var x1 := AfterImages(input, x, embed, imageTokenId);
    && (input.timeSeries.Some? ==>
          var (features, padMask) := input.timeSeries.value;
          && SameShape(features, padMask)
          && Total(PlaceholderMask(input.inputIds, x1, embed, tsTokenId)) == |SelectAll(features, Invert(padMask))|)
  }

  /** The first half of the merge in InternS1Model.forward: resolve the input
      embeddings, then scatter the image features into the image placeholders. */
  function MergeImages<T(==)>(input: ForwardInput<T>, embed: int -> T, imageTokenId: int): (r: Result<Embeddings<T>>)
    ensures input.inputIds.Some? == input.inputsEmbeds.Some? ==> r.Err? && r.error.ValueError?
    ensures r.Err? ==> r.error.ValueError?
    ensures r.Ok? <==>
      && input.inputIds.Some? != input.inputsEmbeds.Some?
      && var x := ResolveEmbeddings(input.inputIds, input.inputsEmbeds, embed).value;
         input.imageFeatures.Some? ==>
           Total(PlaceholderMask(input.inputIds, x, embed, imageTokenId)) == |input.imageFeatures.value|
    ensures r.Ok? ==>
      r.value == AfterImages(input, ResolveEmbeddings(input.inputIds, input.inputsEmbeds, embed).value, embed, imageTokenId)
  {
    var x :- ResolveEmbeddings(input.inputIds, input.inputsEmbeds, embed);
    if input.imageFeatures.None? then Ok(x)
    else MergeFeatures(x, PlaceholderMask(input.inputIds, x, embed, imageTokenId), input.imageFeatures.value, "Image")
  }

  /** The embeddings InternS1Model.forward hands to the language model. */
  function MergeModalities<T(==)>(input: ForwardInput<T>, embed: int -> T, imageTokenId: int, tsTokenId: int): (r: Result<Embeddings<T>>)
    ensures input.inputIds.Some? == input.inputsEmbeds.Some? ==> r.Err? && r.error.ValueError?
    ensures r.Err? ==> r.error.ValueError? || r.error.IndexError?
    ensures r.Ok? <==> MergeSucceeds(input, embed, imageTokenId, tsTokenId)
  {
    var x1 :- MergeImages(input, embed, imageTokenId);
    if input.timeSeries.None? then Ok(x1)
    else
      var valid :- ValidTimeSeriesFeatures(input.timeSeries.value.0, input.timeSeries.value.1);
      MergeFeatures(x1, PlaceholderMask(input.inputIds, x1, embed, tsTokenId), valid, "Time series")
  }

  /** With input ids and distinct placeholder ids, the merged sequence keeps its
      shape; an image placeholder receives the image feature of its row-major
      rank among image placeholders, a time-series placeholder the valid
      time-series row of its rank among time-series placeholders, and every
      other position keeps the embedding of its token. */
  lemma {:induction false} MergeByTokenIds<T>(input: ForwardInput<T>, embed: int -> T, imageTokenId: int, tsTokenId: int, b: nat, s: nat)
    requires input.inputIds.Some? && input.inputsEmbeds.None? && imageTokenId != tsTokenId
    requires MergeModalities(input, embed, imageTokenId, tsTokenId).Ok?
    requires b < |input.inputIds.value| && s < |input.inputIds.value[b]|
    ensures var ids := input.inputIds.value;
      var out := MergeModalities(input, embed, imageTokenId, tsTokenId).value;
      var imageMask := EqualsMask(ids, imageTokenId);
      var tsMask := EqualsMask(ids, tsTokenId);
      && SameShape(out, ids)
      && (ids[b][s] == imageTokenId && input.imageFeatures.Some? ==>
            Rank(imageMask, b, s) < |input.imageFeatures.value|
            && out[b][s] == input.imageFeatures.value[Rank(imageMask, b, s)])
      && (ids[b][s] == tsTokenId && input.timeSeries.Some? ==>
            var valid := SelectAll(input.timeSeries.value.0, Invert(input.timeSeries.value.1));
            Rank(tsMask, b, s) < |valid| && out[b][s] == valid[Rank(tsMask, b, s)])
      && (!(ids[b][s] == imageTokenId && input.imageFeatures.Some?)
          && !(ids[b][s] == tsTokenId && input.timeSeries.Some?) ==>
            out[b][s] == embed(ids[b][s]))
  {
    var ids := input.inputIds.value;
    var x := Embed(ids, embed);
    var x1 := if input.imageFeatures.None? then x
              else MergeFeatures(x, EqualsMask(ids, imageTokenId), input.imageFeatures.value, "Image").value;
    assert SameShape(x1, ids);
    assert ids[b][s] == imageTokenId && input.imageFeatures.Some? ==>
      x1[b][s] == input.imageFeatures.value[Rank(EqualsMask(ids, imageTokenId), b, s)];
    assert !(ids[b][s] == imageTokenId && input.imageFeatures.Some?) ==> x1[b][s] == embed(ids[b][s]);
  }

  /** Without images or time series the embeddings pass through unchanged. */
  lemma TextOnlyUnchanged<T>(input: ForwardInput<T>, embed: int -> T, imageTokenId: int, tsTokenId: int)
    requires input.imageFeatures.None? && input.timeSeries.None?
    requires input.inputIds.Some? != input.inputsEmbeds.Some?
    ensures MergeModalities(input, embed, imageTokenId, tsTokenId)
         == Ok(if input.inputIds.Some? then Embed(input.inputIds.value, embed) else input.inputsEmbeds.value)
  {
  }

  // ---------------------------------------------------------------------------
  // get_input_modality
  // ---------------------------------------------------------------------------

  datatype Modality = Multimodal | Vision | TimeSeries | TextOnly

  /** get_input_modality from whether pixel_values and time_series_signals are given. */
  function GetInputModality(hasVision: bool, hasTimeSeries: bool): (m: Modality)
    ensures m == Multimodal <==> hasVision && hasTimeSeries
    ensures m == Vision <==> hasVision && !hasTimeSeries
    ensures m == TimeSeries <==> !hasVision && hasTimeSeries
    ensures m == TextOnly <==> !hasVision && !hasTimeSeries
  {
    if hasVision && hasTimeSeries then Multimodal
    else if hasVision then Vision
    else if hasTimeSeries then TimeSeries
    else TextOnly
  }
}
