/**
 * The tensor views the DeepSeek-V2 weight loader uses, on sequences: a tensor
 * is a sequence along its first dimension; `unflatten(0, (-1, k))` groups it
 * into blocks of `k`, `flatten` concatenates the blocks back, and `transpose`
 * swaps the two axes of a matrix.
 */
module Tensors {
  import opened Arith

  /** Every block has `k` elements. */
  predicate Uniform<T>(hs: seq<seq<T>>, k: nat) {
    forall h | 0 <= h < |hs| :: |hs[h]| == k
  }

  /** `m` has `rows` rows of `cols` elements each. */
  predicate IsMatrix<T>(m: seq<seq<T>>, rows: nat, cols: nat) {
    |m| == rows && Uniform(m, cols)
  }

  /** `flatten`: the blocks one after the other. */
  function Flatten<T>(hs: seq<seq<T>>): (r: seq<T>)
  {
    if hs == [] then [] else hs[0] + Flatten(hs[1..])
  }

  /** `|hs|` blocks of `k` flatten to `|hs| * k` elements. */
  lemma {:induction false} FlattenLength<T>(hs: seq<seq<T>>, k: nat)
    requires Uniform(hs, k)
    ensures |Flatten(hs)| == |hs| * k
  {
    if hs != [] {
      assert Uniform(hs[1..], k);
      FlattenLength(hs[1..], k);
    }
  }

  /** `unflatten(0, (-1, k))`: consecutive blocks of `k` elements. */
  function Unflatten<T>(w: seq<T>, k: nat): (r: seq<seq<T>>)
    requires k >= 1 && |w| % k == 0
    ensures Uniform(r, k) && |r| * k == |w| && |r| == |w| / k
    decreases |w|
  {
    if |w| == 0 then []
    else
      ModStep(|w|, k);
      [w[..k]] + Unflatten(w[k..], k)
  }

  /** A non-empty tensor's blocks are its first `k` elements followed by the blocks of the rest. */
  lemma UnflattenCons<T>(w: seq<T>, k: nat)
    requires k >= 1 && |w| % k == 0 && |w| > 0
    ensures k <= |w| && |w[k..]| % k == 0 && Unflatten(w, k) == [w[..k]] + Unflatten(w[k..], k)
  {
    ModStep(|w|, k);
  }

  /** Appending one block of `k` elements appends that block to the blocks. */
  lemma {:induction false} UnflattenSnoc<T>(u: seq<T>, x: seq<T>, k: nat)
    requires k >= 1 && |u| % k == 0 && |x| == k
    ensures |u + x| % k == 0 && Unflatten(u + x, k) == Unflatten(u, k) + [x]
    decreases |u|
  {
    ModAddStep(|u|, k);
    UnflattenCons(u + x, k);
    if |u| == 0 {
      assert (u + x)[..k] == x && (u + x)[k..] == [];
      assert Unflatten((u + x)[k..], k) == [] && Unflatten(u, k) == [];
    } else {
      UnflattenCons(u, k);
      assert (u + x)[..k] == u[..k];
      assert (u + x)[k..] == u[k..] + x;
      UnflattenSnoc(u[k..], x, k);
      assert Unflatten(u + x, k) == [u[..k]] + (Unflatten(u[k..], k) + [x]);
    }
  }

  /** Flattening the blocks gives the tensor back. */
  lemma {:induction false} FlattenUnflatten<T>(w: seq<T>, k: nat)
    requires k >= 1 && |w| % k == 0
    ensures Flatten(Unflatten(w, k)) == w
    decreases |w|
  {
    if |w| > 0 {
      ModStep(|w|, k);
      FlattenUnflatten(w[k..], k);
      assert Unflatten(w, k)[1..] == Unflatten(w[k..], k);
      assert w == w[..k] + w[k..];
    }
  }

  /** Blocking a flattened tensor of uniform blocks gives the blocks back. */
  lemma {:induction false} UnflattenFlatten<T>(hs: seq<seq<T>>, k: nat)
    requires k >= 1 && Uniform(hs, k)
    ensures |Flatten(hs)| % k == 0 && Unflatten(Flatten(hs), k) == hs
  {
    var w := Flatten(hs);
    FlattenLength(hs, k);
    BlockIndex(|hs|, k, 0);
    if hs != [] {
      assert Uniform(hs[1..], k);
      UnflattenFlatten(hs[1..], k);
      assert w[..k] == hs[0] && w[k..] == Flatten(hs[1..]);
    }
  }

  /** Element `j` of block `h` sits at position `h * k + j` of the flattened tensor. */
  lemma {:induction false} FlattenIndex<T>(hs: seq<seq<T>>, k: nat, h: nat, j: nat)
    requires Uniform(hs, k) && h < |hs| && j < k
    ensures h * k + j < |Flatten(hs)| && Flatten(hs)[h * k + j] == hs[h][j]
  {
    MulMono(h + 1, |hs|, k);
    MulSucc(h, k);
    FlattenLength(hs, k);
    var rest := hs[1..];
    assert Flatten(hs) == hs[0] + Flatten(rest);
    if h > 0 {
      assert Uniform(rest, k);
      FlattenIndex(rest, k, h - 1, j);
      MulSucc(h - 1, k);
    }
  }

  /** Block `h` occupies positions `h * k .. h * k + k` of the flattened tensor. */
  lemma FlattenSlice<T>(hs: seq<seq<T>>, k: nat, h: nat)
    requires Uniform(hs, k) && h < |hs|
    ensures h * k + k <= |Flatten(hs)| && Flatten(hs)[h * k..h * k + k] == hs[h]
  {
    MulMono(h + 1, |hs|, k);
    FlattenLength(hs, k);
    forall j | 0 <= j < k ensures Flatten(hs)[h * k + j] == hs[h][j] {
      FlattenIndex(hs, k, h, j);
    }
  }

  /** Appending a block appends its elements. */
  lemma {:induction false} FlattenSnoc<T>(hs: seq<seq<T>>, x: seq<T>)
    ensures Flatten(hs + [x]) == Flatten(hs) + x
  {
    if hs == [] {
      assert [x][1..] == [];
      assert Flatten([x]) == x + Flatten([x][1..]);
    } else {
      assert (hs + [x])[1..] == hs[1..] + [x];
      FlattenSnoc(hs[1..], x);
    }
  }

  /** The blocks of a matrix's rows are matrices with the same rows. */
  lemma {:induction false} UnflattenRows<T>(w: seq<seq<T>>, k: nat, cols: nat)
    requires k >= 1 && |w| % k == 0 && Uniform(w, cols)
    ensures forall h | 0 <= h < |Unflatten(w, k)| :: IsMatrix(Unflatten(w, k)[h], k, cols)
    decreases |w|
  {
    if |w| > 0 {
      ModStep(|w|, k);
      assert Uniform(w[k..], cols);
      UnflattenRows(w[k..], k, cols);
      assert Unflatten(w, k)[1..] == Unflatten(w[k..], k);
    }
  }

  /** Two blocks flatten to their concatenation. */
  lemma FlattenPair<T>(t: seq<seq<T>>)
    requires |t| == 2
    ensures Flatten(t) == t[0] + t[1]
  {
    assert t[1..][1..] == [];
    assert Flatten(t[1..]) == t[1] + Flatten(t[1..][1..]);
  }

  /** Block `h` of a tensor viewed as blocks of `k` is its slice `h * k .. h * k + k`. */
  lemma UnflattenBlock<T>(w: seq<T>, k: nat, h: nat)
    requires k >= 1 && |w| % k == 0 && h < |w| / k
    ensures h * k + k <= |w| && Unflatten(w, k)[h] == w[h * k..h * k + k]
  {
    FlattenUnflatten(w, k);
    FlattenSlice(Unflatten(w, k), k, h);
  }

  /** Position `i` of a tensor is element `i % k` of block `i / k`. */
  lemma UnflattenIndex<T>(w: seq<T>, k: nat, i: nat)
    requires k >= 1 && |w| % k == 0 && i < |w|
    ensures i / k < |Unflatten(w, k)| && Unflatten(w, k)[i / k][i % k] == w[i]
  {
    var hs := Unflatten(w, k);
    BlockBound(i, |hs|, k);
    FlattenIndex(hs, k, i / k, i % k);
    FlattenUnflatten(w, k);
  }

  /** Position `i` of a flattened tensor is element `i % k` of block `i / k`. */
  lemma FlattenAt<T>(hs: seq<seq<T>>, k: nat, i: nat)
    requires k >= 1 && Uniform(hs, k) && i < |Flatten(hs)|
    ensures i / k < |hs| && Flatten(hs)[i] == hs[i / k][i % k]
  {
    FlattenLength(hs, k);
    BlockBound(i, |hs|, k);
    FlattenIndex(hs, k, i / k, i % k);
  }

  /** Stacking blocks of `k` rows of `cols` elements gives a matrix that splits back into those blocks. */
  lemma FlattenBlocks<T>(hs: seq<seq<seq<T>>>, k: nat, cols: nat)
    requires k >= 1 && forall h | 0 <= h < |hs| :: IsMatrix(hs[h], k, cols)
    ensures var w := Flatten(hs);
      |w| == |hs| * k && |w| % k == 0 && IsMatrix(w, |w|, cols) && Unflatten(w, k) == hs
  {
    assert Uniform(hs, k);
    FlattenLength(hs, k);
    UnflattenFlatten(hs, k);
    var w := Flatten(hs);
    forall i | 0 <= i < |w| ensures |w[i]| == cols {
      FlattenAt(hs, k, i);
      var h, j := i / k, i % k;
      assert 0 <= j < k && IsMatrix(hs[h], k, cols);
      assert |hs[h][j]| == cols;
    }
  }

  /** Flattening keeps every element, counted with multiplicity. */
  lemma {:induction false} FlattenMultiset<T>(hs: seq<seq<T>>, gs: seq<seq<T>>)
    requires |hs| == |gs| && forall h | 0 <= h < |hs| :: multiset(hs[h]) == multiset(gs[h])
    ensures multiset(Flatten(hs)) == multiset(Flatten(gs))
  {
    if hs != [] {
      FlattenMultiset(hs[1..], gs[1..]);
    }
  }

  /** Swaps the two axes of a matrix. */
  function Transpose<T>(m: seq<seq<T>>, rows: nat, cols: nat): (r: seq<seq<T>>)
    requires IsMatrix(m, rows, cols)
    ensures IsMatrix(r, cols, rows)
    ensures forall c, i | 0 <= c < cols && 0 <= i < rows :: r[c][i] == m[i][c]
  {
    seq(cols, c requires 0 <= c < cols => seq(rows, i requires 0 <= i < rows => m[i][c]))
  }

  /** Transposing twice gives the matrix back. */
  lemma TransposeTwice<T>(m: seq<seq<T>>, rows: nat, cols: nat)
    requires IsMatrix(m, rows, cols)
    ensures Transpose(Transpose(m, rows, cols), cols, rows) == m
  {
    var t := Transpose(Transpose(m, rows, cols), cols, rows);
    assert forall i | 0 <= i < rows :: t[i] == m[i];
  }
}
