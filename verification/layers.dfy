/**
 * Integer rules of the DeepSeek-V2 model definition: which decoder layers get
 * a mixture-of-experts feed-forward block, and how the batched matmul module
 * (`DeepseekV2BMM`) shares its batch dimension among tensor-parallel ranks.
 */
module Layers {
  import opened Wrappers
  import opened Arith

  /** The configuration fields the layer rule reads. */
  datatype LayerConfig = LayerConfig(
    nRoutedExperts: Option<nat>,   // `None` when the config has no routed experts
    firstKDenseReplace: int,
    moeLayerFreq: int,
    numHiddenLayers: nat)

  /** The feed-forward block a decoder layer is built with. */
  datatype Mlp = MoE | Dense

  /** Python's `ZeroDivisionError`, raised by `layer_idx % 0`. */
  datatype LayerError = ZeroDivisionError

  /**
   * The feed-forward block of decoder layer `layerIdx`. Python evaluates the
   * `and` chain left to right, so `layer_idx % moe_layer_freq` only runs (and
   * only fails for a zero frequency) once the first two tests have passed.
   */
  function MlpKind(cfg: LayerConfig, layerIdx: nat): (r: Result<Mlp, LayerError>)
    ensures r.Err? ==> cfg.moeLayerFreq == 0
    ensures layerIdx < cfg.firstKDenseReplace ==> r == Ok(Dense)
  {
    if cfg.nRoutedExperts.None? || layerIdx < cfg.firstKDenseReplace then Ok(Dense)
    else if cfg.moeLayerFreq == 0 then Err(ZeroDivisionError)
    else if layerIdx % cfg.moeLayerFreq == 0 then Ok(MoE)
    else Ok(Dense)
  }

  function Abs(x: int): nat { if x < 0 then -x else x }

  /** `d` divides `x`; the test `x % d == 0` means this in Python and in Dafny alike. */
  predicate Divides(d: int, x: nat) {
    d != 0 && exists q | 0 <= q <= x :: q * Abs(d) == x
  }

  /**
   * A layer is a mixture-of-experts layer exactly when the model has routed
   * experts, the layer is at or past `first_k_dense_replace` and its index is a
   * multiple of `moe_layer_freq`; it fails only for a zero frequency.
   */
  lemma MlpKindRule(cfg: LayerConfig, layerIdx: nat)
    ensures MlpKind(cfg, layerIdx) == Ok(MoE) <==>
      cfg.nRoutedExperts.Some? && layerIdx >= cfg.firstKDenseReplace && Divides(cfg.moeLayerFreq, layerIdx)
    ensures MlpKind(cfg, layerIdx).Err? <==>
      cfg.nRoutedExperts.Some? && layerIdx >= cfg.firstKDenseReplace && cfg.moeLayerFreq == 0
  {
    var f := cfg.moeLayerFreq;
    if f != 0 {
      ModIsDivisibility(layerIdx, f);
    }
  }

  /** Euclidean remainder zero is divisibility, whatever the sign of `d`. */
  lemma ModIsDivisibility(x: nat, d: int)
    requires d != 0
    ensures x % d == 0 <==> Divides(d, x)
  {
    var a := Abs(d);
    var q0, r := x / d, x % d;
    var q := if d < 0 then -q0 else q0;
    SignedQuotient(x, d, q0, r, q);
    if r == 0 {
      NonNegativeQuotient(x, a, q);
    }
    if Divides(d, x) {
      var m :| 0 <= m <= x && m * a == x;
      RemainderOfMultiple(x, a, q, m, r);
    }
  }

  /** Euclidean division by `d` is division by `|d|` with the quotient's sign flipped for negative `d`. */
  lemma SignedQuotient(x: nat, d: int, q0: int, r: int, q: int)
    requires d != 0 && q0 == x / d && r == x % d && q == (if d < 0 then -q0 else q0)
    ensures x == q * Abs(d) + r && 0 <= r < Abs(d)
  {
    assert x == d * q0 + r;
    if d < 0 {
      assert d * q0 == (-q0) * (-d);
    }
  }

  /** A whole multiple of a positive `a` equal to `x` uses a factor between 0 and `x`. */
  lemma NonNegativeQuotient(x: nat, a: nat, q: int)
    requires a >= 1 && x == q * a
    ensures 0 <= q <= x
  {
    if q < 0 { NegTimesPos(q, a); }
    MulGe(q, a);
  }

  /** `x` written both as `q * a + r` and as `m * a` leaves no remainder. */
  lemma RemainderOfMultiple(x: nat, a: nat, q: int, m: int, r: int)
    requires a >= 1 && x == q * a + r && 0 <= r < a && m * a == x
    ensures r == 0
  {
    assert (m - q) * a == r;
    MultipleBelow(m - q, a);
  }

  lemma NegTimesPos(m: int, a: nat)
    requires m < 0 && a >= 1
    ensures m * a < 0
  {
    assert m * a == -((-m) * a);
  }

  lemma MulGe(m: nat, a: nat)
    requires a >= 1
    ensures m * a >= m
  {
    assert m * a == m + m * (a - 1);
  }

  /** The only multiple of `a` in `[0, a)` is zero. */
  lemma MultipleBelow(m: int, a: nat)
    requires a >= 1 && 0 <= m * a < a
    ensures m == 0
  {
    if m < 0 { NegTimesPos(m, a); }
  }

  /**
   * The feed-forward blocks of all decoder layers, in order, as the model's
   * `ModuleList` builds them: the first layer whose rule fails aborts the build.
   */
  function LayerPlan(cfg: LayerConfig): (r: Result<seq<Mlp>, LayerError>)
  {
    PlanUpTo(cfg, cfg.numHiddenLayers)
  }

  function PlanUpTo(cfg: LayerConfig, n: nat): (r: Result<seq<Mlp>, LayerError>)
    ensures r.Ok? ==> |r.value| == n
    ensures r.Ok? ==> forall i | 0 <= i < n :: MlpKind(cfg, i) == Ok(r.value[i])
    ensures r.Err? <==> exists i | 0 <= i < n :: MlpKind(cfg, i).Err?
  {
    if n == 0 then Ok([])
    else
      match PlanUpTo(cfg, n - 1)
      case Err(e) => Err(e)
      case Ok(prefix) =>
        match MlpKind(cfg, n - 1)
        case Err(e) => Err(e)
        case Ok(k) => Ok(prefix + [k])
  }

  /** Layers before `first_k_dense_replace` are always dense, and so is every layer of a model without routed experts. */
  lemma DenseLayers(cfg: LayerConfig, i: nat)
    requires LayerPlan(cfg).Ok? && i < cfg.numHiddenLayers
    requires i < cfg.firstKDenseReplace || cfg.nRoutedExperts.None?
    ensures LayerPlan(cfg).value[i] == Dense
  {
  }

  /** With `moe_layer_freq == 1` every layer from `first_k_dense_replace` on uses experts. */
  lemma EveryLaterLayerIsMoE(cfg: LayerConfig, i: nat)
    requires cfg.nRoutedExperts.Some? && cfg.moeLayerFreq == 1
    requires i < cfg.numHiddenLayers && i >= cfg.firstKDenseReplace
    ensures LayerPlan(cfg).Ok? && LayerPlan(cfg).value[i] == MoE
  {
  }

  // ---------------------------------------------------------------------
  // DeepseekV2BMM: the batch (head) dimension is split among ranks.

  /**
   * `DeepseekV2BMM._update_batch`: each rank keeps `batch // world_size`
   * heads (Python floor division; the world size is positive).
   */
  function PerRankBatch(batch: nat, worldSize: nat): (r: nat)
    requires worldSize >= 1
    ensures r * worldSize <= batch < (r + 1) * worldSize
  {
    batch / worldSize
  }

  /**
   * `t.chunk(chunks, 0)[idx]` on the rows of `t`: chunks of `ceil(n / chunks)`
   * rows, the last one possibly shorter; there may be fewer chunks than asked
   * for, in which case the index fails (`None`). An empty tensor splits into
   * `chunks` empty chunks.
   */
  function Chunk<T>(rows: seq<T>, chunks: nat, idx: nat): (r: Option<seq<T>>)
    requires chunks >= 1
    ensures r.Some? ==> |r.value| <= (|rows| + chunks - 1) / chunks
  {
    var n := |rows|;
    var size := (n + chunks - 1) / chunks;
    if n == 0 then (if idx < chunks then Some([]) else None)
    else
      var count := (n + size - 1) / size;
      if idx < count then
        var lo := idx * size;
        var hi := if lo + size < n then lo + size else n;
        assert lo < n by { ChunkStartInRange(n, size, idx); }
        Some(rows[lo..hi])
      else None
  }

  /**
   * Chunk `idx` of a non-empty tensor exists exactly when it would start
   * inside the tensor, at row `idx * size` with `size = ceil(n / chunks)`,
   * and it is the next `size` rows, cut short by the end of the tensor.
   */
  lemma ChunkRows<T>(rows: seq<T>, chunks: nat, idx: nat)
    requires chunks >= 1
    ensures var size := (|rows| + chunks - 1) / chunks;
      Chunk(rows, chunks, idx).Some? <==> if |rows| == 0 then idx < chunks else idx * size < |rows|
    ensures var size, r := (|rows| + chunks - 1) / chunks, Chunk(rows, chunks, idx);
      r.Some? && |rows| > 0 ==>
        idx * size < |rows| && r.value == rows[idx * size..if idx * size + size < |rows| then idx * size + size else |rows|]
  {
    if |rows| > 0 {
      ChunkExists(|rows|, chunks, idx);
    }
  }

  /** A non-empty tensor has a chunk at `idx` exactly when the chunk would start inside it. */
  lemma ChunkExists(n: nat, chunks: nat, idx: nat)
    requires n >= 1 && chunks >= 1
    ensures var size := (n + chunks - 1) / chunks;
      size >= 1 && (idx < (n + size - 1) / size <==> idx * size < n)
  {
    var size := (n + chunks - 1) / chunks;
    assert size >= 1 by { MulMono(1, 1, chunks); DivUnique(chunks, chunks, 1); }
    var m := n + size - 1;
    if idx < m / size {
      ChunkStartInRange(n, size, idx);
    }
    if idx * size < n {
      assert (idx + 1) * size <= m;
      DivLower(m, size, idx + 1);
    }
  }

  /** The start of an existing chunk lies inside the tensor. */
  lemma ChunkStartInRange(n: nat, size: nat, idx: nat)
    requires n >= 1 && size >= 1 && idx < (n + size - 1) / size
    ensures idx * size < n
  {
    var count := (n + size - 1) / size;
    assert count * size <= n + size - 1;
    assert (idx + 1) * size <= count * size by { MulMono(idx + 1, count, size); }
  }

  /** Possible failures of `DeepseekV2BMM.weight_loader`. */
  datatype BmmError =
    | IndexError    // the rank has no chunk
    | ShapeError    // `copy_` of a chunk whose row count differs from the parameter's

  /**
   * `DeepseekV2BMM.weight_loader`: rank `rank` copies its chunk of the
   * checkpoint tensor into its parameter of `paramRows` rows; `copy_`
   * broadcasts a one-row chunk over every row.
   */
  function WeightLoader<T>(paramRows: nat, weight: seq<T>, worldSize: nat, rank: nat): (r: Result<seq<T>, BmmError>)
    requires worldSize >= 1
    ensures r.Ok? ==> |r.value| == paramRows
    ensures match Chunk(weight, worldSize, rank)
      case None => r == Err(IndexError)
      case Some(c) =>
        (r.Ok? <==> |c| == paramRows || |c| == 1) &&
        (r.Ok? ==> forall i | 0 <= i < paramRows :: r.value[i] == c[if |c| == paramRows then i else 0])
  {
    match Chunk(weight, worldSize, rank)
    case None => Err(IndexError)
    case Some(c) =>
      if |c| == paramRows then Ok(c)
      else if |c| == 1 then Ok(seq(paramRows, _ => c[0]))
      else Err(ShapeError)
  }

  /**
   * When the world size divides the head count, every rank loads exactly the
   * `batch // world_size` consecutive heads that belong to it, which is the
   * size `_update_batch` gave its parameter.
   */
  lemma {:induction false} WeightLoaderEven<T>(weight: seq<T>, worldSize: nat, rank: nat)
    requires worldSize >= 1 && rank < worldSize && |weight| % worldSize == 0
    ensures var b := PerRankBatch(|weight|, worldSize);
      (rank + 1) * b <= |weight| &&
      WeightLoader(b, weight, worldSize, rank) == Ok(weight[rank * b..(rank + 1) * b])
  {
    var n, k := |weight|, worldSize;
    var b := n / k;
    assert n == b * k;
    MulMono(rank + 1, k, b);
    if n > 0 {
      DivUnique(n + k - 1, k, b);
      assert b >= 1;
      DivUnique(n + b - 1, b, k);
    } else {
      assert b == 0;
    }
  }

  /**
   * Splitting by rank loses and duplicates nothing: with an even split, row
   * `i` of the checkpoint tensor is row `i % b` of rank `i / b`'s chunk.
   */
  lemma RowOwner<T>(weight: seq<T>, worldSize: nat, i: nat)
    requires worldSize >= 1 && |weight| % worldSize == 0 && i < |weight|
    ensures var b := PerRankBatch(|weight|, worldSize);
      b >= 1 && i / b < worldSize &&
      WeightLoader(b, weight, worldSize, i / b).Ok? &&
      WeightLoader(b, weight, worldSize, i / b).value[i % b] == weight[i]
  {
    var b := PerRankBatch(|weight|, worldSize);
    EvenSplitIndex(|weight|, worldSize, b, i);
    var r, c := i / b, i % b;
    WeightLoaderEven(weight, worldSize, r);
    RowOfChunk(weight, r * b, (r + 1) * b, c);
  }

  /** Row `i` of `n == k * b` rows sits at offset `i % b` of block `i / b`, one of the `k` blocks. */
  lemma EvenSplitIndex(n: nat, k: nat, b: nat, i: nat)
    requires k >= 1 && n % k == 0 && b == n / k && i < n
    ensures b >= 1 && i / b < k && 0 <= i % b < b && (i / b) * b + i % b == i && (i / b + 1) * b == (i / b) * b + b
  {
    assert n == k * b;
    BlockBound(i, k, b);
  }

  lemma RowOfChunk<T>(weight: seq<T>, lo: nat, hi: nat, c: nat)
    requires lo + c < hi <= |weight|
    ensures weight[lo..hi][c] == weight[lo + c]
  {
  }
}
