/** The discrete skeleton of model.py's encoder: how the per-example validity mask becomes the
    attention mask (CausalSelfAttention.forward), how the channels split into heads and back,
    and how the encoder input is laid out (BertIte.forward). Tensors are nested sequences. */
module Attention {
  import opened Wrappers

  /** A batch of per-position validity vectors, B × T; 0 marks a padded position. */
  type Mask = seq<seq<int>>
  type Tensor3 = seq<seq<seq<int>>>
  type Tensor4 = seq<seq<seq<seq<int>>>>

  // ---------------------------------------------------------------------------
  // Mask expansion: view(B, 1, T), np.tile([1, T, 1]), np.expand_dims(axis=1)
  // ---------------------------------------------------------------------------

  predicate HasWidth(mask: Mask, t: nat)
  {
    forall b | 0 <= b < |mask| :: |mask[b]| == t
  }

  /** attn_mask1.view(B, 1, T): fails unless every example's vector has length T. */
  function View(mask: Mask, t: nat): Option<Tensor3>
  {
    if HasWidth(mask, t) then Some(seq(|mask|, b requires 0 <= b < |mask| => [mask[b]])) else None
  }

  /** np.tile(v, [1, reps, 1]): the middle axis repeated `reps` times. */
  function Tile(v: Tensor3, reps: nat): Tensor3
  {
    seq(|v|, b requires 0 <= b < |v| =>
      seq(reps * |v[b]|, i requires 0 <= i < reps * |v[b]| => v[b][i % |v[b]|]))
  }

  /** np.expand_dims(v, axis=1): a new axis of size 1 after the batch axis. */
  function ExpandDims(v: Tensor3): Tensor4
  {
    seq(|v|, b requires 0 <= b < |v| => [v[b]])
  }

  /** The expanded mask of shape B × 1 × T × T. */
  function ExpandMask(mask: Mask, t: nat): Option<Tensor4>
  {
    match View(mask, t)
    case None => None
    case Some(v) => Some(ExpandDims(Tile(v, t)))
  }

  /** attn_mask[:, :, :T, :T]. */
  function Crop(e: Tensor4, t: nat): Tensor4
  {
    seq(|e|, b requires 0 <= b < |e| =>
      seq(|e[b]|, h requires 0 <= h < |e[b]| =>
        seq(Min(t, |e[b][h]|), i requires 0 <= i < Min(t, |e[b][h]|) =>
          e[b][h][i][..Min(t, |e[b][h][i]|)])))
  }

  /** `e` has shape B × 1 × T × T and entry (b, 0, i, j) is mask[b][j]. */
  predicate Expanded(e: Tensor4, mask: Mask, t: nat)
  {
    |e| == |mask| &&
    forall b | 0 <= b < |e| ::
      |mask[b]| == t && |e[b]| == 1 && |e[b][0]| == t &&
      forall i | 0 <= i < t :: e[b][0][i] == mask[b]
  }

  /** The expansion succeeds exactly when every vector has length T, and then every query row
      of example b is mask[b]: entry (i, j) depends on j alone. */
  lemma ExpandMaskSpec(mask: Mask, t: nat)
    ensures ExpandMask(mask, t).Some? <==> HasWidth(mask, t)
    ensures HasWidth(mask, t) ==> Expanded(ExpandMask(mask, t).value, mask, t)
  {
    if HasWidth(mask, t) {
      var v := View(mask, t).value;
      var e := ExpandMask(mask, t).value;
      forall b | 0 <= b < |e|
        ensures |mask[b]| == t && |e[b]| == 1 && |e[b][0]| == t
        ensures forall i | 0 <= i < t :: e[b][0][i] == mask[b]
      {
        assert v[b] == [mask[b]];
        forall i | 0 <= i < t ensures e[b][0][i] == mask[b] {
          assert i % 1 == 0;
        }
      }
    }
  }

  /** The crop [:, :, :T, :T] of an expanded mask changes nothing. */
  lemma CropIsNoOp(e: Tensor4, mask: Mask, t: nat)
    requires Expanded(e, mask, t)
    ensures Crop(e, t) == e
  {
    var c := Crop(e, t);
    forall b | 0 <= b < |e| ensures c[b] == e[b] {
      forall i | 0 <= i < t ensures c[b][0][i] == e[b][0][i] {
        assert |e[b][0][i]| == t;
      }
      assert c[b][0] == e[b][0];
    }
  }

  // ---------------------------------------------------------------------------
  // att.masked_fill(attn_mask == 0, -inf): which scores are blocked
  // ---------------------------------------------------------------------------

  /** Score (i, j) of example b is set to minus infinity in every head. */
  predicate Blocked(e: Tensor4, b: nat, i: nat, j: nat)
    requires b < |e| && |e[b]| > 0 && i < |e[b][0]| && j < |e[b][0][i]|
  {
    e[b][0][i][j] == 0
  }

  /** Every score of query row i of example b is blocked. */
  predicate RowBlocked(e: Tensor4, b: nat, i: nat)
    requires b < |e| && |e[b]| > 0 && i < |e[b][0]|
  {
    forall j | 0 <= j < |e[b][0][i]| :: Blocked(e, b, i, j)
  }

  predicate AllPadding(v: seq<int>)
  {
    forall j | 0 <= j < |v| :: v[j] == 0
  }

  /** Entry (i, j) is blocked exactly when key position j is padding, whatever the query row. */
  lemma BlockedIffPadding(e: Tensor4, mask: Mask, t: nat, b: nat, i: nat, j: nat)
    requires Expanded(e, mask, t) && b < |e| && i < t && j < t
    ensures Blocked(e, b, i, j) <==> mask[b][j] == 0
  {
    assert e[b][0][i] == mask[b];
  }

  /** A fully blocked query row exists for example b exactly when its whole mask is padding, and
      then every row is fully blocked (the source has no guard for this case). */
  lemma FullyBlockedRows(e: Tensor4, mask: Mask, t: nat, b: nat)
    requires Expanded(e, mask, t) && b < |e|
    ensures (exists i | 0 <= i < t :: RowBlocked(e, b, i)) <==> (t > 0 && AllPadding(mask[b]))
    ensures AllPadding(mask[b]) ==> forall i | 0 <= i < t :: RowBlocked(e, b, i)
  {
    forall i | 0 <= i < t ensures RowBlocked(e, b, i) <==> AllPadding(mask[b]) {
      forall j | 0 <= j < t ensures Blocked(e, b, i, j) <==> mask[b][j] == 0 {
        BlockedIffPadding(e, mask, t, b, i, j);
      }
    }
    if t > 0 && AllPadding(mask[b]) {
      assert RowBlocked(e, b, 0);
    }
  }

  /** Without padding nothing is blocked: the mask is a no-op. */
  lemma NoPaddingNoBlock(e: Tensor4, mask: Mask, t: nat)
    requires Expanded(e, mask, t)
    requires forall b, j | 0 <= b < |mask| && 0 <= j < |mask[b]| :: mask[b][j] != 0
    ensures forall b, i, j | 0 <= b < |e| && 0 <= i < t && 0 <= j < t :: !Blocked(e, b, i, j)
  {
    forall b, i, j | 0 <= b < |e| && 0 <= i < t && 0 <= j < t ensures !Blocked(e, b, i, j) {
      BlockedIffPadding(e, mask, t, b, i, j);
    }
  }

  // ---------------------------------------------------------------------------
  // Heads: assert n_embd % n_head == 0; view(B, T, n_head, C // n_head).transpose(1, 2)
  // ---------------------------------------------------------------------------

  /** The head width C // n_head when construction's assertion passes; None when it fails
      (n_head == 0 raises a division error, which is a failed construction as well). */
  function HeadWidth(nEmbd: nat, nHead: nat): (w: Option<nat>)
    ensures w.Some? <==> nHead > 0 && nEmbd % nHead == 0
    ensures w.Some? ==> w.value * nHead == nEmbd
  {
    if nHead > 0 && nEmbd % nHead == 0 then Some(nEmbd / nHead) else None
  }

  lemma MulStep(n: nat, w: nat)
    requires n > 0
    ensures n * w == (n - 1) * w + w && (n - 1) * w >= 0
  {
  }

  /** One position's C channels cut into n consecutive heads of width w. */
  function Chunks<R>(x: seq<R>, n: nat, w: nat): (r: seq<seq<R>>)
    requires |x| == n * w
    ensures |r| == n && forall h | 0 <= h < n :: |r[h]| == w
  {
    if n == 0 then []
    else
      MulStep(n, w);
      Chunks(x[..|x| - w], n - 1, w) + [x[|x| - w..]]
  }

  /** The heads of one position laid side by side. */
  function Concat<R>(ss: seq<seq<R>>): seq<R>
  {
    if ss == [] then [] else Concat(ss[..|ss| - 1]) + ss[|ss| - 1]
  }

  lemma {:induction false} ConcatLength<R>(ss: seq<seq<R>>, w: nat)
    requires forall h | 0 <= h < |ss| :: |ss[h]| == w
    ensures |Concat(ss)| == |ss| * w
  {
    if ss != [] {
      ConcatLength(ss[..|ss| - 1], w);
      MulStep(|ss|, w);
    }
  }

  /** Reassembling the chunks of a vector gives back the vector. */
  lemma {:induction false} ConcatChunks<R>(x: seq<R>, n: nat, w: nat)
    requires |x| == n * w
    ensures Concat(Chunks(x, n, w)) == x
  {
    if n > 0 {
      MulStep(n, w);
      var c := Chunks(x, n, w);
      assert c[..n - 1] == Chunks(x[..|x| - w], n - 1, w);
      ConcatChunks(x[..|x| - w], n - 1, w);
      assert x == x[..|x| - w] + x[|x| - w..];
    }
  }

  /** Chunking a reassembly of pieces of width w gives back the pieces. */
  lemma {:induction false} ChunksConcat<R>(ss: seq<seq<R>>, w: nat)
    requires forall h | 0 <= h < |ss| :: |ss[h]| == w
    ensures |Concat(ss)| == |ss| * w
    ensures Chunks(Concat(ss), |ss|, w) == ss
  {
    ConcatLength(ss, w);
    if ss != [] {
      var m := |ss| - 1;
      var init := ss[..m];
      var x := Concat(ss);
      ConcatLength(init, w);
      ChunksConcat(init, w);
      assert x == Concat(init) + ss[m];
      assert x[..|x| - w] == Concat(init);
      assert x[|x| - w..] == ss[m];
      assert ss == init + [ss[m]];
    }
  }

  /** (T, C) to (n_head, T, C // n_head): view into heads, then transpose(1, 2), for one example. */
  function SplitHeads<R>(x: seq<seq<R>>, nHead: nat, w: nat): (y: seq<seq<seq<R>>>)
    requires forall p | 0 <= p < |x| :: |x[p]| == nHead * w
    ensures |y| == nHead && forall h | 0 <= h < nHead :: |y[h]| == |x| && forall p | 0 <= p < |x| :: |y[h][p]| == w
  {
    seq(nHead, h requires 0 <= h < nHead => seq(|x|, p requires 0 <= p < |x| => Chunks(x[p], nHead, w)[h]))
  }

  /** (n_head, T, w) back to (T, n_head * w): transpose(1, 2).contiguous().view(B, T, C), for one example. */
  function MergeHeads<R>(y: seq<seq<seq<R>>>, t: nat): seq<seq<R>>
    requires forall h | 0 <= h < |y| :: |y[h]| == t
  {
    seq(t, p requires 0 <= p < t => Concat(seq(|y|, h requires 0 <= h < |y| => y[h][p])))
  }

  /** Splitting into heads and reassembling gives back the input, so n_head heads of width
      C // n_head exactly cover the C channels. */
  lemma MergeSplit<R>(x: seq<seq<R>>, nHead: nat, w: nat)
    requires forall p | 0 <= p < |x| :: |x[p]| == nHead * w
    ensures MergeHeads(SplitHeads(x, nHead, w), |x|) == x
  {
    var y := SplitHeads(x, nHead, w);
    forall p | 0 <= p < |x| ensures MergeHeads(y, |x|)[p] == x[p] {
      assert seq(|y|, h requires 0 <= h < |y| => y[h][p]) == Chunks(x[p], nHead, w);
      ConcatChunks(x[p], nHead, w);
    }
  }

  /** Reassembling heads and splitting again gives back the heads. */
  lemma SplitMerge<R>(y: seq<seq<seq<R>>>, t: nat, w: nat)
    requires forall h | 0 <= h < |y| :: |y[h]| == t && forall p | 0 <= p < t :: |y[h][p]| == w
    ensures forall p | 0 <= p < t :: |MergeHeads(y, t)[p]| == |y| * w
    ensures SplitHeads(MergeHeads(y, t), |y|, w) == y
  {
    var x := MergeHeads(y, t);
    forall p | 0 <= p < t ensures |x[p]| == |y| * w && Chunks(x[p], |y|, w) == seq(|y|, h requires 0 <= h < |y| => y[h][p]) {
      ChunksConcat(seq(|y|, h requires 0 <= h < |y| => y[h][p]), w);
    }
    var z := SplitHeads(x, |y|, w);
    forall h | 0 <= h < |y| ensures z[h] == y[h] {
      forall p | 0 <= p < t ensures z[h][p] == y[h][p] {
        assert Chunks(x[p], |y|, w)[h] == y[h][p];
      }
    }
  }

  // ---------------------------------------------------------------------------
  // Encoder input: torch.cat((user embedding, item-sequence embeddings), dim=1)
  // ---------------------------------------------------------------------------

  /** nn.Embedding lookup: fails (IndexError) on an id outside the table. */
  function Lookup<V>(table: seq<V>, ids: seq<int>): Option<seq<V>>
  {
    if forall p | 0 <= p < |ids| :: 0 <= ids[p] < |table|
    then Some(seq(|ids|, p requires 0 <= p < |ids| => table[ids[p]]))
    else None
  }

  /** The item table has num_item + 1 rows, the last for the padding sentinel `num_item`. */
  function ItemTableRows(numItem: nat): nat
  {
    numItem + 1
  }

  /** One example's encoder input: the user embedding at position 0, then the item embeddings. */
  function EncoderInput<V>(users: seq<V>, items: seq<V>, uid: int, itemSeq: seq<int>): Option<seq<V>>
  {
    if 0 <= uid < |users| then
      match Lookup(items, itemSeq)
      case None => None
      case Some(es) => Some([users[uid]] + es)
    else None
  }

  /** `for block in self.blocks: input_bert = block.forward(input_bert, attention_masks)`: the
      blocks applied in order, each an opaque map from one sequence of positions to the next. */
  function RunBlocks<V>(blocks: seq<seq<V> -> seq<V>>, x: seq<V>): seq<V>
    decreases |blocks|
  {
    if blocks == [] then x else RunBlocks(blocks[1..], blocks[0](x))
  }

  /** Every block maps a sequence of positions to one of the same length, as a residual
      transformer block does. */
  ghost predicate KeepsPositions<V(!new)>(blocks: seq<seq<V> -> seq<V>>)
  {
    forall i, y | 0 <= i < |blocks| :: |blocks[i](y)| == |y|
  }

  /** The block stack keeps the number of positions, so the mask width T that every block
      expands is the width of the encoder input. */
  lemma {:induction false} RunBlocksLength<V(!new)>(blocks: seq<seq<V> -> seq<V>>, x: seq<V>)
    requires KeepsPositions(blocks)
    ensures |RunBlocks(blocks, x)| == |x|
    decreases |blocks|
  {
    if blocks != [] {
      assert KeepsPositions(blocks[1..]) by {
        forall i, y | 0 <= i < |blocks| - 1 ensures |blocks[1..][i](y)| == |y| {
          assert blocks[1..][i] == blocks[i + 1];
        }
      }
      RunBlocksLength(blocks[1..], blocks[0](x));
    }
  }

  /** user_representation = input_bert[:, 0, :], read after the block stack. */
  function UserRepresentation<V(!new)>(blocks: seq<seq<V> -> seq<V>>, x: seq<V>): V
    requires KeepsPositions(blocks) && |x| > 0
  {
    RunBlocksLength(blocks, x);
    RunBlocks(blocks, x)[0]
  }

  /** With tables of num_user and num_item + 1 rows, a valid user id and item ids in [0, num_item]
      (the sentinel included) always embed. The concatenation has length 1 + L, with the user at
      position 0 and item p at position p + 1. The block stack's output keeps 1 + L positions,
      and the user representation is read at the user token's position; it is the raw user
      embedding when there are no blocks. */
  lemma EncoderInputLayout<V(!new)>(users: seq<V>, items: seq<V>, numUser: nat, numItem: nat, uid: int, itemSeq: seq<int>,
                              blocks: seq<seq<V> -> seq<V>>)
    requires |users| == numUser && |items| == ItemTableRows(numItem)
    requires 0 <= uid < numUser && forall p | 0 <= p < |itemSeq| :: 0 <= itemSeq[p] <= numItem
    requires KeepsPositions(blocks)
    ensures EncoderInput(users, items, uid, itemSeq).Some?
    ensures var x := EncoderInput(users, items, uid, itemSeq).value;
            |x| == 1 + |itemSeq| && x[0] == users[uid]
            && (forall p | 0 <= p < |itemSeq| :: x[p + 1] == items[itemSeq[p]])
            && |RunBlocks(blocks, x)| == 1 + |itemSeq|
            && (blocks == [] ==> UserRepresentation(blocks, x) == users[uid])
  {
    RunBlocksLength(blocks, EncoderInput(users, items, uid, itemSeq).value);
  }

  /** An id outside the table makes the embedding fail. */
  lemma LookupFailsOutside<V>(table: seq<V>, ids: seq<int>, p: nat)
    requires p < |ids| && !(0 <= ids[p] < |table|)
    ensures Lookup(table, ids).None?
  {
  }

  /** The attention mask expands at the width T of the encoder input (x.size() in the attention
      layer) exactly when every example's validity vector has length 1 + L: one entry for the user
      token, one per item. */
  lemma MaskMatchesLayout<V>(mask: Mask, users: seq<V>, items: seq<V>, uid: int, itemSeq: seq<int>)
    requires EncoderInput(users, items, uid, itemSeq).Some?
    ensures var t := |EncoderInput(users, items, uid, itemSeq).value|;
            t == 1 + |itemSeq|
            && (ExpandMask(mask, t).Some? <==> forall b | 0 <= b < |mask| :: |mask[b]| == 1 + |itemSeq|)
  {
    var t := |EncoderInput(users, items, uid, itemSeq).value|;
    ExpandMaskSpec(mask, t);
  }
}
