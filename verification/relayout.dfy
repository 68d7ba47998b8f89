/**
 * Index re-layouts that `_load_weight_attention` applies to checkpoint tensors
 * of the DeepSeek-V2 attention block before they are committed:
 *  - `__update_pe`: in every head, turns the interleaved rotary rows into the
 *    even rows followed by the odd rows, in place;
 *  - `__load_kcvc`: cuts the combined `kv_b_proj` weight into the per-head
 *    `kc` blocks and the transposed per-head `vc` blocks;
 *  - `__dequant_weight`: multiplies every element of a block-quantised weight
 *    by the scale of its block.
 * Rows are of an abstract type where only their positions matter.
 */
module Relayout {
  import opened Wrappers
  import opened Arith
  import opened Tensors

  // ---------------------------------------------------------------------
  // Rotary rows: `__update_pe`

  /**
   * The shapes `__update_pe` accepts: the rows split into whole heads of
   * `headDim` rows, and the rotary tail of a head (the rows from `peOffset`
   * on) splits into pairs.
   */
  predicate PeShape(rows: nat, headDim: nat, peOffset: nat) {
    headDim >= 1 && peOffset <= headDim && (headDim - peOffset) % 2 == 0 && rows % headDim == 0
  }

  /**
   * One head: the tail is viewed as `(-1, 2)` pairs, the pair axes are
   * swapped and the result is flattened again; the first `peOffset` rows stay.
   */
  function DeinterleaveHead<T>(x: seq<T>, peOffset: nat): (r: seq<T>)
    requires peOffset <= |x| && (|x| - peOffset) % 2 == 0
  {
    var tail := x[peOffset..];
    var pairs := Unflatten(tail, 2);
    x[..peOffset] + Flatten(Transpose(pairs, |tail| / 2, 2))
  }

  /** The inverse of `DeinterleaveHead`: the tail is viewed as two halves and zipped back into pairs. */
  function InterleaveHead<T>(x: seq<T>, peOffset: nat): (r: seq<T>)
    requires peOffset <= |x| && (|x| - peOffset) % 2 == 0
  {
    var tail := x[peOffset..];
    var half := |tail| / 2;
    if half == 0 then x
    else
      var halves := Unflatten(tail, half);
      x[..peOffset] + Flatten(Transpose(halves, 2, half))
  }

  /**
   * What `__update_pe` does to one head: the first `peOffset` rows are
   * unchanged, tail row `j` is old tail row `2j` and tail row `half + j` is
   * old tail row `2j + 1`.
   */
  lemma DeinterleaveHeadRows<T>(x: seq<T>, peOffset: nat)
    requires peOffset <= |x| && (|x| - peOffset) % 2 == 0
    ensures var r, half := DeinterleaveHead(x, peOffset), (|x| - peOffset) / 2;
      |r| == |x| && r[..peOffset] == x[..peOffset] &&
      (forall j | 0 <= j < half :: r[peOffset + j] == x[peOffset + 2 * j]) &&
      (forall j | 0 <= j < half :: r[peOffset + half + j] == x[peOffset + 2 * j + 1])
  {
    var tail := x[peOffset..];
    var half := |tail| / 2;
    var pairs := Unflatten(tail, 2);
    var cols := Transpose(pairs, half, 2);
    FlattenLength(cols, half);
    FlattenUnflatten(tail, 2);
    forall j | 0 <= j < half
      ensures Flatten(cols)[j] == tail[2 * j] && Flatten(cols)[half + j] == tail[2 * j + 1]
    {
      SplitPairAt(pairs, cols, tail, half, j);
    }
  }

  /** Column position `j` and `half + j` of the swapped pairs hold pair `j`'s two rows. */
  lemma SplitPairAt<T>(pairs: seq<seq<T>>, cols: seq<seq<T>>, tail: seq<T>, half: nat, j: nat)
    requires IsMatrix(pairs, half, 2) && Flatten(pairs) == tail && j < half
    requires IsMatrix(cols, 2, half) && forall c, i | 0 <= c < 2 && 0 <= i < half :: cols[c][i] == pairs[i][c]
    ensures half + j < |Flatten(cols)| && 2 * j + 1 < |tail|
    ensures Flatten(cols)[j] == tail[2 * j] && Flatten(cols)[half + j] == tail[2 * j + 1]
  {
    FlattenIndex(cols, half, 0, j);
    FlattenIndex(cols, half, 1, j);
    FlattenIndex(pairs, 2, j, 0);
    FlattenIndex(pairs, 2, j, 1);
    assert j * 2 == 2 * j;
  }

  /** On the tail alone: zipping the two halves back undoes splitting the pairs. */
  lemma ZipUnzip<T>(tail: seq<T>, half: nat)
    requires half >= 1 && |tail| % 2 == 0 && |tail| / 2 == half && |tail| % half == 0
    ensures |Flatten(Transpose(Unflatten(tail, 2), half, 2))| == |tail|
    ensures Flatten(Transpose(Unflatten(Flatten(Transpose(Unflatten(tail, 2), half, 2)), half), 2, half)) == tail
  {
    var pairs := Unflatten(tail, 2);
    var cols := Transpose(pairs, half, 2);
    FlattenLength(cols, half);
    UnflattenFlatten(cols, half);
    TransposeTwice(pairs, half, 2);
    FlattenUnflatten(tail, 2);
  }

  /** Interleaving undoes the re-layout of a head. */
  lemma InterleaveDeinterleaveHead<T>(x: seq<T>, peOffset: nat)
    requires peOffset <= |x| && (|x| - peOffset) % 2 == 0
    ensures |DeinterleaveHead(x, peOffset)| == |x|
    ensures InterleaveHead(DeinterleaveHead(x, peOffset), peOffset) == x
  {
    var tail := x[peOffset..];
    var half := |tail| / 2;
    var cols := Transpose(Unflatten(tail, 2), half, 2);
    FlattenLength(cols, half);
    var d := x[..peOffset] + Flatten(cols);
    assert d == DeinterleaveHead(x, peOffset);
    assert d[..peOffset] == x[..peOffset] && d[peOffset..] == Flatten(cols);
    assert x == x[..peOffset] + tail;
    Halves(|tail|);
    if half > 0 {
      BlockIndex(2, half, 0);
      ZipUnzip(tail, half);
    } else {
      FlattenPair(cols);
    }
  }

  /** On the tail alone: splitting the pairs undoes zipping the two halves. */
  lemma UnzipZip<T>(tail: seq<T>, half: nat)
    requires half >= 1 && |tail| % 2 == 0 && |tail| / 2 == half && |tail| % half == 0 && |tail| / half == 2
    ensures |Flatten(Transpose(Unflatten(tail, half), 2, half))| == |tail|
    ensures Flatten(Transpose(Unflatten(Flatten(Transpose(Unflatten(tail, half), 2, half)), 2), half, 2)) == tail
  {
    var halves := Unflatten(tail, half);
    var pairs := Transpose(halves, 2, half);
    FlattenLength(pairs, 2);
    UnflattenFlatten(pairs, 2);
    TransposeTwice(halves, 2, half);
    FlattenUnflatten(tail, half);
  }

  /** And the re-layout undoes interleaving: the two are inverse permutations of a head's rows. */
  lemma DeinterleaveInterleaveHead<T>(x: seq<T>, peOffset: nat)
    requires peOffset <= |x| && (|x| - peOffset) % 2 == 0
    ensures |InterleaveHead(x, peOffset)| == |x|
    ensures DeinterleaveHead(InterleaveHead(x, peOffset), peOffset) == x
  {
    var tail := x[peOffset..];
    var half := |tail| / 2;
    assert x == x[..peOffset] + tail;
    Halves(|tail|);
    if half > 0 {
      BlockIndex(2, half, 0);
      UnzipZip(tail, half);
      var i := x[..peOffset] + Flatten(Transpose(Unflatten(tail, half), 2, half));
      assert i == InterleaveHead(x, peOffset);
      assert i[..peOffset] == x[..peOffset] && i[peOffset..] == Flatten(Transpose(Unflatten(tail, half), 2, half));
    } else {
      assert tail == [] && Unflatten(tail, 2) == [];
      FlattenPair(Transpose(Unflatten(tail, 2), 0, 2));
      assert x == x[..peOffset];
    }
  }

  /** The two columns of a matrix of pairs hold the same elements as its rows. */
  lemma {:induction false} PairColumnsMultiset<T>(pairs: seq<seq<T>>)
    requires Uniform(pairs, 2)
    ensures multiset(Flatten(Transpose(pairs, |pairs|, 2))) == multiset(Flatten(pairs))
  {
    var t := Transpose(pairs, |pairs|, 2);
    FlattenPair(t);
    if pairs != [] {
      var rest := pairs[1..];
      assert Uniform(rest, 2);
      PairColumnsMultiset(rest);
      var t' := Transpose(rest, |rest|, 2);
      FlattenPair(t');
      PairColumnsCons(pairs);
      var p := pairs[0];
      assert p == [p[0], p[1]];
      MultisetOfTwoConses(p[0], p[1], t'[0], t'[1]);
      assert Flatten(pairs) == p + Flatten(rest);
    }
  }

  lemma MultisetOfTwoConses<T>(a: T, b: T, x: seq<T>, y: seq<T>)
    ensures multiset(([a] + x) + ([b] + y)) == multiset([a, b]) + multiset(x + y)
  {
    calc {
      multiset(([a] + x) + ([b] + y));
      multiset([a]) + multiset(x) + multiset([b]) + multiset(y);
      multiset([a, b]) + multiset(x + y);
    }
  }

  /** The columns of a matrix of pairs start with the two halves of its first pair. */
  lemma PairColumnsCons<T>(pairs: seq<seq<T>>)
    requires Uniform(pairs, 2) && pairs != []
    ensures Uniform(pairs[1..], 2)
    ensures var t, t' := Transpose(pairs, |pairs|, 2), Transpose(pairs[1..], |pairs| - 1, 2);
      t[0] == [pairs[0][0]] + t'[0] && t[1] == [pairs[0][1]] + t'[1]
  {
    assert Uniform(pairs[1..], 2);
    var t, t' := Transpose(pairs, |pairs|, 2), Transpose(pairs[1..], |pairs| - 1, 2);
    assert t[0] == [pairs[0][0]] + t'[0];
    assert t[1] == [pairs[0][1]] + t'[1];
  }

  /** The re-layout of a head is a permutation of its rows. */
  lemma DeinterleaveHeadPermutes<T>(x: seq<T>, peOffset: nat)
    requires peOffset <= |x| && (|x| - peOffset) % 2 == 0
    ensures multiset(DeinterleaveHead(x, peOffset)) == multiset(x)
  {
    var tail := x[peOffset..];
    var pairs := Unflatten(tail, 2);
    PairColumnsMultiset(pairs);
    FlattenUnflatten(tail, 2);
    assert x == x[..peOffset] + tail;
  }

  /** The weight after `__update_pe`: every head re-laid out, the heads flattened back. */
  function DeinterleavePe<T>(w: seq<T>, headDim: nat, peOffset: nat): (r: seq<T>)
    requires PeShape(|w|, headDim, peOffset)
  {
    var heads := Unflatten(w, headDim);
    Flatten(seq(|heads|, h requires 0 <= h < |heads| => DeinterleaveHead(heads[h], peOffset)))
  }

  /** Re-laying out one more head appends its re-laid-out rows. */
  lemma DeinterleavePeSnoc<T>(u: seq<T>, x: seq<T>, headDim: nat, peOffset: nat)
    requires PeShape(|u|, headDim, peOffset) && |x| == headDim
    ensures PeShape(|u + x|, headDim, peOffset)
    ensures DeinterleavePe(u + x, headDim, peOffset) == DeinterleavePe(u, headDim, peOffset) + DeinterleaveHead(x, peOffset)
  {
    UnflattenSnoc(u, x, headDim);
    var hs := Unflatten(u, headDim);
    var hs' := Unflatten(u + x, headDim);
    var f := seq(|hs|, h requires 0 <= h < |hs| => DeinterleaveHead(hs[h], peOffset));
    var f' := seq(|hs'|, h requires 0 <= h < |hs'| => DeinterleaveHead(hs'[h], peOffset));
    assert f' == f + [DeinterleaveHead(x, peOffset)];
    FlattenSnoc(f, DeinterleaveHead(x, peOffset));
  }

  /** The inverse re-layout of a whole weight. */
  function InterleavePe<T>(w: seq<T>, headDim: nat, peOffset: nat): (r: seq<T>)
    requires PeShape(|w|, headDim, peOffset)
  {
    var heads := Unflatten(w, headDim);
    Flatten(seq(|heads|, h requires 0 <= h < |heads| => InterleaveHead(heads[h], peOffset)))
  }

  /**
   * `__update_pe` works head by head: it keeps the row count, and the rows
   * `b .. b + headDim` of head `h` (`b = h * headDim`) become the re-laid-out
   * rows of that head of the checkpoint weight (see `DeinterleaveHeadRows`).
   */
  lemma DeinterleavePeHeads<T>(w: seq<T>, headDim: nat, peOffset: nat, h: nat)
    requires PeShape(|w|, headDim, peOffset) && h < |w| / headDim
    ensures var r, b := DeinterleavePe(w, headDim, peOffset), h * headDim;
      |r| == |w| && b + headDim <= |w| &&
      r[b..b + headDim] == DeinterleaveHead(w[b..b + headDim], peOffset)
  {
    var heads := Unflatten(w, headDim);
    var news := seq(|heads|, g requires 0 <= g < |heads| => DeinterleaveHead(heads[g], peOffset));
    assert Uniform(news, headDim) by {
      forall g | 0 <= g < |heads| ensures |news[g]| == headDim { DeinterleaveHeadRows(heads[g], peOffset); }
    }
    FlattenLength(news, headDim);
    FlattenUnflatten(w, headDim);
    var r := Flatten(news);
    var b := h * headDim;
    FlattenSlice(news, headDim, h);
    FlattenSlice(heads, headDim, h);
  }

  /** Interleaving undoes `__update_pe` on a whole weight. */
  lemma InterleaveAfterDeinterleave<T>(w: seq<T>, headDim: nat, peOffset: nat)
    requires PeShape(|w|, headDim, peOffset)
    ensures |DeinterleavePe(w, headDim, peOffset)| == |w|
    ensures InterleavePe(DeinterleavePe(w, headDim, peOffset), headDim, peOffset) == w
  {
    var heads := Unflatten(w, headDim);
    var d := DeinterleavePe(w, headDim, peOffset);
    DeinterleavePeBlocks(w, headDim, peOffset);
    var news := Unflatten(d, headDim);
    var back := seq(|news|, g requires 0 <= g < |news| => InterleaveHead(news[g], peOffset));
    assert back == heads by {
      forall g | 0 <= g < |heads| ensures back[g] == heads[g] { InterleaveDeinterleaveHead(heads[g], peOffset); }
    }
    FlattenUnflatten(w, headDim);
  }

  /** The heads of the re-laid-out weight are the re-laid-out heads. */
  lemma DeinterleavePeBlocks<T>(w: seq<T>, headDim: nat, peOffset: nat)
    requires PeShape(|w|, headDim, peOffset)
    ensures var d := DeinterleavePe(w, headDim, peOffset);
      |d| == |w| && PeShape(|d|, headDim, peOffset) && |Unflatten(d, headDim)| == |Unflatten(w, headDim)| &&
      forall g | 0 <= g < |Unflatten(w, headDim)| ::
        Unflatten(d, headDim)[g] == DeinterleaveHead(Unflatten(w, headDim)[g], peOffset)
  {
    var heads := Unflatten(w, headDim);
    var news := seq(|heads|, g requires 0 <= g < |heads| => DeinterleaveHead(heads[g], peOffset));
    assert Uniform(news, headDim) by {
      forall g | 0 <= g < |heads| ensures |news[g]| == headDim { DeinterleaveHeadRows(heads[g], peOffset); }
    }
    FlattenLength(news, headDim);
    UnflattenFlatten(news, headDim);
  }

  /** `__update_pe` undoes interleaving on a whole weight: the two are inverse permutations. */
  lemma DeinterleaveAfterInterleave<T>(w: seq<T>, headDim: nat, peOffset: nat)
    requires PeShape(|w|, headDim, peOffset)
    ensures |InterleavePe(w, headDim, peOffset)| == |w|
    ensures DeinterleavePe(InterleavePe(w, headDim, peOffset), headDim, peOffset) == w
  {
    var heads := Unflatten(w, headDim);
    var i := InterleavePe(w, headDim, peOffset);
    InterleavePeBlocks(w, headDim, peOffset);
    var news := Unflatten(i, headDim);
    var back := seq(|news|, g requires 0 <= g < |news| => DeinterleaveHead(news[g], peOffset));
    assert back == heads by {
      forall g | 0 <= g < |heads| ensures back[g] == heads[g] { DeinterleaveInterleaveHead(heads[g], peOffset); }
    }
    FlattenUnflatten(w, headDim);
  }

  /** The heads of the interleaved weight are the interleaved heads. */
  lemma InterleavePeBlocks<T>(w: seq<T>, headDim: nat, peOffset: nat)
    requires PeShape(|w|, headDim, peOffset)
    ensures var i := InterleavePe(w, headDim, peOffset);
      |i| == |w| && PeShape(|i|, headDim, peOffset) && |Unflatten(i, headDim)| == |Unflatten(w, headDim)| &&
      forall g | 0 <= g < |Unflatten(w, headDim)| ::
        Unflatten(i, headDim)[g] == InterleaveHead(Unflatten(w, headDim)[g], peOffset)
  {
    var heads := Unflatten(w, headDim);
    var news := seq(|heads|, g requires 0 <= g < |heads| => InterleaveHead(heads[g], peOffset));
    assert Uniform(news, headDim) by {
      forall g | 0 <= g < |heads| ensures |news[g]| == headDim { DeinterleaveInterleaveHead(heads[g], peOffset); }
    }
    FlattenLength(news, headDim);
    UnflattenFlatten(news, headDim);
  }

  /** `__update_pe` permutes the rows of the weight: every row is kept, none is duplicated. */
  lemma DeinterleavePePermutes<T>(w: seq<T>, headDim: nat, peOffset: nat)
    requires PeShape(|w|, headDim, peOffset)
    ensures multiset(DeinterleavePe(w, headDim, peOffset)) == multiset(w)
  {
    var heads := Unflatten(w, headDim);
    var news := seq(|heads|, g requires 0 <= g < |heads| => DeinterleaveHead(heads[g], peOffset));
    forall g | 0 <= g < |heads| ensures multiset(news[g]) == multiset(heads[g]) {
      DeinterleaveHeadPermutes(heads[g], peOffset);
    }
    FlattenMultiset(news, heads);
    FlattenUnflatten(w, headDim);
  }

  /**
   * `__update_pe` in place on the rows of a weight: head by head, the even
   * tail rows are written first and the odd tail rows after them, each read
   * from a snapshot of the checkpoint rows (torch materialises the permuted
   * view before assigning the slice); the first `peOffset` rows of each head
   * are never written.
   */
  method UpdatePe<T>(w: array<T>, headDim: nat, peOffset: nat)
    requires PeShape(w.Length, headDim, peOffset)
    modifies w
    ensures w[..] == DeinterleavePe(old(w[..]), headDim, peOffset)
  {
    var src := w[..];
    var b := 0;
    DeinterleavePeEmpty(src, headDim, peOffset);
    while b < w.Length
      invariant 0 <= b <= w.Length && b % headDim == 0 && (w.Length - b) % headDim == 0
      invariant w[..b] == DeinterleavePe(src[..b], headDim, peOffset)
      invariant w[b..] == src[b..]
      decreases w.Length - b
    {
      ModStep(w.Length - b, headDim);
      ModAddStep(b, headDim);
      ghost var pre := w[..];
      DeinterleaveHeadAt(w, b, headDim, peOffset);
      UpdatePeStep(src, pre, w[..], b, headDim, peOffset);
      b := b + headDim;
    }
    assert src[..b] == src;
    assert w[..] == w[..b];
  }

  /**
   * The loop invariant of `UpdatePe` survives re-laying out the head at `b`:
   * `pre` and `post` are the whole buffer before and after that head.
   */
  lemma UpdatePeStep<T>(src: seq<T>, pre: seq<T>, post: seq<T>, b: nat, headDim: nat, peOffset: nat)
    requires PeShape(b, headDim, peOffset) && PeShape(b + headDim, headDim, peOffset)
    requires b + headDim <= |src| == |pre| == |post|
    requires pre[..b] == DeinterleavePe(src[..b], headDim, peOffset) && pre[b..] == src[b..]
    requires post[b..b + headDim] == DeinterleaveHead(pre[b..b + headDim], peOffset)
    requires post[..b] == pre[..b] && post[b + headDim..] == pre[b + headDim..]
    ensures post[..b + headDim] == DeinterleavePe(src[..b + headDim], headDim, peOffset)
    ensures post[b + headDim..] == src[b + headDim..]
  {
    SliceOfSuffix(pre, src, b, headDim);
    DeinterleavePeStep(src, b, headDim, peOffset);
    assert post[..b + headDim] == post[..b] + post[b..b + headDim];
  }

  lemma SliceOfSuffix<T>(pre: seq<T>, src: seq<T>, b: nat, k: nat)
    requires b + k <= |pre| == |src| && pre[b..] == src[b..]
    ensures pre[b..b + k] == src[b..b + k] && pre[b + k..] == src[b + k..]
  {
    assert pre[b..b + k] == pre[b..][..k];
    assert src[b..b + k] == src[b..][..k];
    assert pre[b + k..] == pre[b..][k..];
    assert src[b + k..] == src[b..][k..];
  }

  /** Nothing re-laid out yet. */
  lemma DeinterleavePeEmpty<T>(src: seq<T>, headDim: nat, peOffset: nat)
    requires PeShape(0, headDim, peOffset)
    ensures DeinterleavePe(src[..0], headDim, peOffset) == []
  {
    assert Unflatten(src[..0], headDim) == [];
  }

  /** One iteration of the head loop extends the re-laid-out prefix by one head. */
  lemma DeinterleavePeStep<T>(src: seq<T>, b: nat, headDim: nat, peOffset: nat)
    requires PeShape(b, headDim, peOffset) && b + headDim <= |src|
    ensures PeShape(b + headDim, headDim, peOffset)
    ensures DeinterleavePe(src[..b + headDim], headDim, peOffset)
      == DeinterleavePe(src[..b], headDim, peOffset) + DeinterleaveHead(src[b..b + headDim], peOffset)
  {
    assert src[..b + headDim] == src[..b] + src[b..b + headDim];
    DeinterleavePeSnoc(src[..b], src[b..b + headDim], headDim, peOffset);
  }

  /**
   * The body of the `__update_pe` loop for the head occupying rows
   * `b .. b + headDim`: the first `peOffset` rows stay and the tail is
   * re-laid out by `SplitPairs`; nothing outside the head changes.
   */
  method DeinterleaveHeadAt<T>(w: array<T>, b: nat, headDim: nat, peOffset: nat)
    requires peOffset <= headDim && (headDim - peOffset) % 2 == 0 && b + headDim <= w.Length
    modifies w
    ensures w[b..b + headDim] == DeinterleaveHead(old(w[b..b + headDim]), peOffset)
    ensures w[..b] == old(w[..b]) && w[b + headDim..] == old(w[b + headDim..])
  {
    ghost var before := w[..];
    var half := (headDim - peOffset) / 2;
    SplitPairs(w, b + peOffset, half);
    HeadOfSplitPairs(before, w[..], b, headDim, peOffset);
  }

  /** `SplitPairs` on the tail of the head at `b` re-lays out that head and nothing else. */
  lemma HeadOfSplitPairs<T>(before: seq<T>, after: seq<T>, b: nat, headDim: nat, peOffset: nat)
    requires peOffset <= headDim && (headDim - peOffset) % 2 == 0 && b + headDim <= |before| == |after|
    requires var pe, half := b + peOffset, (headDim - peOffset) / 2;
      after[..pe] == before[..pe] && after[pe + 2 * half..] == before[pe + 2 * half..] &&
      forall i | 0 <= i < half :: after[pe + i] == before[pe + 2 * i] && after[pe + half + i] == before[pe + 2 * i + 1]
    ensures after[b..b + headDim] == DeinterleaveHead(before[b..b + headDim], peOffset)
    ensures after[..b] == before[..b] && after[b + headDim..] == before[b + headDim..]
  {
    var half := (headDim - peOffset) / 2;
    var pe := b + peOffset;
    Halves(headDim - peOffset);
    var x, y := before[b..b + headDim], after[b..b + headDim];
    assert y[..peOffset] == x[..peOffset] by {
      assert y[..peOffset] == after[..pe][b..];
      assert x[..peOffset] == before[..pe][b..];
    }
    assert after[..b] == after[..pe][..b];
    assert before[..b] == before[..pe][..b];
    assert after[b + headDim..] == after[pe + 2 * half..];
    assert before[b + headDim..] == before[pe + 2 * half..];
    DeinterleaveHeadByPairs(x, y, peOffset);
  }

  /**
   * The slice assignment of `__update_pe` on one head's tail of `2 * half`
   * rows starting at `pe`: a copy of the tail is taken first (the permuted
   * view is materialised before it is assigned), then row `2i` of the copy
   * goes to row `i` and row `2i + 1` to row `half + i`.
   */
  method SplitPairs<T>(w: array<T>, pe: nat, half: nat)
    requires pe + 2 * half <= w.Length
    modifies w
    ensures w[..pe] == old(w[..pe]) && w[pe + 2 * half..] == old(w[pe + 2 * half..])
    ensures forall i | 0 <= i < half :: w[pe + i] == old(w[pe + 2 * i]) && w[pe + half + i] == old(w[pe + 2 * i + 1])
  {
    var tail := w[pe..pe + 2 * half];
    var j := 0;
    while j < half
      invariant 0 <= j <= half
      invariant w[..pe] == old(w[..pe]) && w[pe + 2 * half..] == old(w[pe + 2 * half..])
      invariant forall i | 0 <= i < j :: w[pe + i] == tail[2 * i] && w[pe + half + i] == tail[2 * i + 1]
    {
      w[pe + j] := tail[2 * j];
      w[pe + half + j] := tail[2 * j + 1];
      j := j + 1;
    }
  }

  /** A head is the re-laid-out `x` exactly when its prefix is `x`'s and pair `j` went to rows `j` and `half + j`. */
  lemma DeinterleaveHeadByPairs<T>(x: seq<T>, y: seq<T>, peOffset: nat)
    requires peOffset <= |x| && (|x| - peOffset) % 2 == 0 && |y| == |x|
    requires y[..peOffset] == x[..peOffset]
    requires forall i | 0 <= i < (|x| - peOffset) / 2 ::
      y[peOffset + i] == x[peOffset + 2 * i] && y[peOffset + (|x| - peOffset) / 2 + i] == x[peOffset + 2 * i + 1]
    ensures y == DeinterleaveHead(x, peOffset)
  {
    var half := (|x| - peOffset) / 2;
    DeinterleaveHeadRows(x, peOffset);
    var r := DeinterleaveHead(x, peOffset);
    forall k | 0 <= k < |x| ensures y[k] == r[k] {
      if k < peOffset {
        assert r[..peOffset][k] == x[..peOffset][k];
        assert y[..peOffset][k] == x[..peOffset][k];
      } else if k < peOffset + half {
        assert r[peOffset + (k - peOffset)] == x[peOffset + 2 * (k - peOffset)];
      } else {
        var i := k - peOffset - half;
        assert r[peOffset + half + i] == x[peOffset + 2 * i + 1];
      }
    }
  }

  // ---------------------------------------------------------------------
  // Key/value split: `__load_kcvc`

  /** The rows of `kv_b_proj` split into whole heads of `nope + v` rows. */
  predicate KvShape(rows: nat, nope: nat, v: nat) {
    nope + v >= 1 && rows % (nope + v) == 0
  }

  /**
   * `__load_kcvc` on the tensor itself: `kv_b_proj` (rows by `cols`) is viewed
   * as heads of `nope + v` rows; per head, the first `nope` rows are `kc`
   * (`nope` by `cols`) and the other `v` rows, transposed, are `vc`
   * (`cols` by `v`).
   */
  function SplitKcVc<T>(w: seq<seq<T>>, cols: nat, nope: nat, v: nat): (r: (seq<seq<seq<T>>>, seq<seq<seq<T>>>))
    requires KvShape(|w|, nope, v) && IsMatrix(w, |w|, cols)
    ensures |r.0| == |r.1| == |w| / (nope + v)
    ensures forall h | 0 <= h < |r.0| :: IsMatrix(r.0[h], nope, cols) && IsMatrix(r.1[h], cols, v)
  {
    var blocks := Unflatten(w, nope + v);
    UnflattenRows(w, nope + v, cols);
    (seq(|blocks|, h requires 0 <= h < |blocks| => blocks[h][..nope]),
     seq(|blocks|, h requires 0 <= h < |blocks| => Transpose(blocks[h][nope..], v, cols)))
  }

  /**
   * Where the parts of head `h` come from: with `b = h * (nope + v)`, `kc[h]`
   * is rows `b .. b + nope` of `kv_b_proj` and `vc[h]` is rows
   * `b + nope .. b + nope + v`, transposed.
   */
  lemma SplitKcVcHeads<T>(w: seq<seq<T>>, cols: nat, nope: nat, v: nat, h: nat)
    requires KvShape(|w|, nope, v) && IsMatrix(w, |w|, cols) && h < |w| / (nope + v)
    ensures var (kc, vc), b := SplitKcVc(w, cols, nope, v), h * (nope + v);
      b + nope + v <= |w| && kc[h] == w[b..b + nope] && vc[h] == Transpose(w[b + nope..b + nope + v], v, cols)
  {
    var k, b := nope + v, h * (nope + v);
    UnflattenRows(w, k, cols);
    var x := Unflatten(w, k)[h];
    assert IsMatrix(x, k, cols);
    UnflattenBlock(w, k, h);
    HeadParts(w, b, nope, v, x);
    assert IsMatrix(x[nope..], v, cols);
    var r := SplitKcVc(w, cols, nope, v);
    assert r.0[h] == x[..nope];
    assert r.1[h] == Transpose(x[nope..], v, cols);
  }

  /** The two parts of the block of `nope + v` rows starting at row `b`. */
  lemma HeadParts<T>(w: seq<T>, b: nat, nope: nat, v: nat, x: seq<T>)
    requires b + nope + v <= |w| && w[b..b + nope + v] == x
    ensures x[..nope] == w[b..b + nope] && x[nope..] == w[b + nope..b + nope + v]
  {
  }

  /** Reassembles `kv_b_proj` from its `kc` and `vc` heads. */
  function JoinKcVc<T>(kc: seq<seq<seq<T>>>, vc: seq<seq<seq<T>>>, cols: nat, nope: nat, v: nat): (w: seq<seq<T>>)
    requires |kc| == |vc|
    requires forall h | 0 <= h < |kc| :: IsMatrix(kc[h], nope, cols) && IsMatrix(vc[h], cols, v)
  {
    Flatten(seq(|kc|, h requires 0 <= h < |kc| => kc[h] + Transpose(vc[h], cols, v)))
  }

  /** Splitting `kv_b_proj` and joining the parts back gives the checkpoint tensor. */
  lemma JoinAfterSplit<T>(w: seq<seq<T>>, cols: nat, nope: nat, v: nat)
    requires KvShape(|w|, nope, v) && IsMatrix(w, |w|, cols)
    ensures var (kc, vc) := SplitKcVc(w, cols, nope, v); JoinKcVc(kc, vc, cols, nope, v) == w
  {
    var blocks := Unflatten(w, nope + v);
    UnflattenRows(w, nope + v, cols);
    var (kc, vc) := SplitKcVc(w, cols, nope, v);
    var joined := seq(|kc|, h requires 0 <= h < |kc| => kc[h] + Transpose(vc[h], cols, v));
    assert joined == blocks by {
      forall h | 0 <= h < |kc| ensures joined[h] == blocks[h] {
        TransposeTwice(blocks[h][nope..], v, cols);
        assert blocks[h] == blocks[h][..nope] + blocks[h][nope..];
      }
    }
    FlattenUnflatten(w, nope + v);
  }

  /** Joining well-shaped `kc` and `vc` heads and splitting again gives the heads back. */
  lemma SplitAfterJoin<T>(kc: seq<seq<seq<T>>>, vc: seq<seq<seq<T>>>, cols: nat, nope: nat, v: nat)
    requires nope + v >= 1 && |kc| == |vc|
    requires forall h | 0 <= h < |kc| :: IsMatrix(kc[h], nope, cols) && IsMatrix(vc[h], cols, v)
    ensures var w := JoinKcVc(kc, vc, cols, nope, v);
      KvShape(|w|, nope, v) && IsMatrix(w, |w|, cols) && SplitKcVc(w, cols, nope, v) == (kc, vc)
  {
    var joined := seq(|kc|, h requires 0 <= h < |kc| => kc[h] + Transpose(vc[h], cols, v));
    forall h | 0 <= h < |kc| ensures IsMatrix(joined[h], nope + v, cols) {
      JoinedHead(kc[h], vc[h], cols, nope, v);
    }
    FlattenBlocks(joined, nope + v, cols);
    var (kc', vc') := SplitKcVc(Flatten(joined), cols, nope, v);
    assert |kc'| == |kc|;
    forall h | 0 <= h < |kc| ensures kc'[h] == kc[h] && vc'[h] == vc[h] {
      JoinedHead(kc[h], vc[h], cols, nope, v);
    }
    assert kc' == kc && vc' == vc;
  }

  /** One head of the joined tensor: `kc` rows over transposed `vc`, which the split takes apart again. */
  lemma JoinedHead<T>(kch: seq<seq<T>>, vch: seq<seq<T>>, cols: nat, nope: nat, v: nat)
    requires IsMatrix(kch, nope, cols) && IsMatrix(vch, cols, v)
    ensures var x := kch + Transpose(vch, cols, v);
      IsMatrix(x, nope + v, cols) && x[..nope] == kch && IsMatrix(x[nope..], v, cols) && Transpose(x[nope..], v, cols) == vch
  {
    var x := kch + Transpose(vch, cols, v);
    assert x[nope..] == Transpose(vch, cols, v);
    TransposeTwice(vch, cols, v);
  }

  // ---------------------------------------------------------------------
  // Block dequantisation: `__dequant_weight`

  /** The exceptions `__dequant_weight` can raise. */
  datatype DequantError =
    | ZeroDivisionError   // a scale dimension is zero (`%` by zero)
    | AssertionError      // a weight dimension is not a multiple of the scale's

  /** Block `c` of `g1` elements multiplied by `srow[c]`. */
  function ScaleBlocks<T>(blocks: seq<seq<T>>, srow: seq<T>, g1: nat, mul: (T, T) -> T): (r: seq<seq<T>>)
    requires |blocks| == |srow| && Uniform(blocks, g1)
    ensures Uniform(r, g1) && |r| == |blocks|
  {
    seq(|blocks|, c requires 0 <= c < |blocks| => seq(g1, d requires 0 <= d < g1 => mul(blocks[c][d], srow[c])))
  }

  /**
   * One row of one block row: the row is viewed as blocks of `g1` elements
   * and block `c` is multiplied by `srow[c]`.
   */
  function ScaleRow<T>(row: seq<T>, srow: seq<T>, g1: nat, mul: (T, T) -> T): (r: seq<T>)
    requires |row| == |srow| * g1
    ensures |r| == |row|
    ensures forall j | 0 <= j < |row| :: j / g1 < |srow| && r[j] == mul(row[j], srow[j / g1])
  {
    if g1 == 0 then []
    else
      ScaleRowElements(row, srow, g1, mul);
      Flatten(ScaleBlocks(Unflatten(row, g1), srow, g1, mul))
  }

  /** Element `j` of the scaled row is element `j` of the row times the scale of its block. */
  lemma ScaleRowElements<T>(row: seq<T>, srow: seq<T>, g1: nat, mul: (T, T) -> T)
    requires g1 >= 1 && |row| == |srow| * g1
    ensures |row| % g1 == 0 && |row| / g1 == |srow|
    ensures var r := Flatten(ScaleBlocks(Unflatten(row, g1), srow, g1, mul));
      |r| == |row| && forall j | 0 <= j < |row| :: j / g1 < |srow| && r[j] == mul(row[j], srow[j / g1])
  {
    BlockIndex(|srow|, g1, 0);
    var scaled := ScaleBlocks(Unflatten(row, g1), srow, g1, mul);
    FlattenLength(scaled, g1);
    forall j | 0 <= j < |row| ensures j / g1 < |srow| && Flatten(scaled)[j] == mul(row[j], srow[j / g1]) {
      UnflattenIndex(row, g1, j);
      FlattenAt(scaled, g1, j);
    }
  }

  /** The block rows of a weight, each of its `g0` rows scaled by the scale row of its block row. */
  function ScaleRowBlocks<T>(rowBlocks: seq<seq<seq<T>>>, scale: seq<seq<T>>, g0: nat, g1: nat, mul: (T, T) -> T)
    : (r: seq<seq<seq<T>>>)
    requires |rowBlocks| == |scale| && Uniform(rowBlocks, g0)
    requires forall a, b | 0 <= a < |rowBlocks| && 0 <= b < g0 :: |rowBlocks[a][b]| == |scale[a]| * g1
    ensures Uniform(r, g0) && |r| == |rowBlocks|
    ensures forall a, b | 0 <= a < |rowBlocks| && 0 <= b < g0 ::
      r[a][b] == ScaleRow(rowBlocks[a][b], scale[a], g1, mul)
  {
    seq(|rowBlocks|, a requires 0 <= a < |rowBlocks| =>
      seq(g0, b requires 0 <= b < g0 => ScaleRow(rowBlocks[a][b], scale[a], g1, mul)))
  }

  /**
   * `__dequant_weight`: the weight (`w0` by `w1`) is viewed as `s0` by `s1`
   * blocks of `g0 = w0 / s0` by `g1 = w1 / s1` elements, each block is
   * multiplied by its entry of the scale, and the blocks are flattened back.
   * The divisibility assertions run in source order, rows first. The
   * element product (`weight.to(scale.dtype) * scale`) is the parameter
   * `mul`. Row `i` of the result is row `i` scaled, in blocks of `g1`, by
   * scale row `i / g0`; `ScaleRow` states what that does to each element.
   */
  function DequantWeight<T>(w: seq<seq<T>>, w0: nat, w1: nat, scale: seq<seq<T>>, s0: nat, s1: nat, mul: (T, T) -> T)
    : (r: Result<seq<seq<T>>, DequantError>)
    requires IsMatrix(w, w0, w1) && IsMatrix(scale, s0, s1)
    ensures r.Err? <==> s0 == 0 || s1 == 0 || w0 % s0 != 0 || w1 % s1 != 0
    ensures r == Err(ZeroDivisionError) <==> s0 == 0 || (w0 % s0 == 0 && s1 == 0)
    ensures r.Ok? ==> s0 >= 1 && s1 >= 1 && IsMatrix(r.value, w0, w1) && w1 == s1 * (w1 / s1)
    ensures r.Ok? ==> forall i | 0 <= i < w0 ::
      i / (w0 / s0) < s0 && r.value[i] == ScaleRow(w[i], scale[i / (w0 / s0)], w1 / s1, mul)
  {
    if s0 == 0 then Err(ZeroDivisionError)
    else if w0 % s0 != 0 then Err(AssertionError)
    else if s1 == 0 then Err(ZeroDivisionError)
    else if w1 % s1 != 0 then Err(AssertionError)
    else if w0 == 0 then Ok(w)
    else
      var g0, g1 := w0 / s0, w1 / s1;
      DivPositive(w0, s0);
      assert w0 == s0 * g0 && w1 == s1 * g1;
      DequantRows(w, scale, s0, g0, s1, g1, mul);
      Ok(Flatten(ScaleRowBlocks(Unflatten(w, g0), scale, g0, g1, mul)))
  }

  /** Row `i` of the dequantised weight is row `i` of the weight scaled by block row `i / g0` of the scale. */
  lemma DequantRows<T>(w: seq<seq<T>>, scale: seq<seq<T>>, s0: nat, g0: nat, s1: nat, g1: nat, mul: (T, T) -> T)
    requires g0 >= 1 && IsMatrix(w, s0 * g0, s1 * g1) && IsMatrix(scale, s0, s1)
    ensures |w| % g0 == 0 && |Unflatten(w, g0)| == |scale| && Uniform(Unflatten(w, g0), g0)
    ensures forall a, b | 0 <= a < |Unflatten(w, g0)| && 0 <= b < g0 :: |Unflatten(w, g0)[a][b]| == |scale[a]| * g1
    ensures var r := Flatten(ScaleRowBlocks(Unflatten(w, g0), scale, g0, g1, mul));
      |r| == |w| && forall i | 0 <= i < |w| :: i / g0 < s0 && r[i] == ScaleRow(w[i], scale[i / g0], g1, mul)
  {
    BlockIndex(s0, g0, 0);
    var rowBlocks := Unflatten(w, g0);
    UnflattenRows(w, g0, s1 * g1);
    forall a, b | 0 <= a < |rowBlocks| && 0 <= b < g0 ensures |rowBlocks[a][b]| == |scale[a]| * g1 {
      assert IsMatrix(rowBlocks[a], g0, s1 * g1);
    }
    var scaled := ScaleRowBlocks(rowBlocks, scale, g0, g1, mul);
    FlattenLength(scaled, g0);
    forall i | 0 <= i < |w| ensures i / g0 < s0 && Flatten(scaled)[i] == ScaleRow(w[i], scale[i / g0], g1, mul) {
      UnflattenIndex(w, g0, i);
      FlattenAt(scaled, g0, i);
    }
  }
}
