/**
 * `MoEGate`: the router of a DeepSeek-V2 mixture-of-experts layer. For one
 * token it turns the router logits (one per routed expert) into `top_k`
 * expert indices and their weights. Scores are reals; the scoring functions
 * (softmax, sigmoid) and `SoftmaxTopK` are not interpreted: their outputs are
 * parameters.
 */
module Gate {
  import opened Wrappers
  import opened Arith
  import opened Tensors

  /** The configuration fields `MoEGate.__init__` reads. */
  datatype GateConfig = GateConfig(
    topK: nat,                  // num_experts_per_tok
    nRoutedExperts: nat,
    routedScalingFactor: real,
    scoringFunc: string,
    topkMethod: string,
    nGroup: nat,
    topkGroup: nat,
    normTopkProb: bool)

  /** `self.renormalize`: the chosen weights are renormalised only when more than one expert is chosen and `norm_topk_prob` asks for it. */
  predicate Renormalize(cfg: GateConfig) {
    cfg.topK > 1 && cfg.normTopkProb
  }

  /** The weights are multiplied by `routed_scaling_factor` when they were not renormalised, and always under `noaux_tc`. */
  predicate ScalesWeights(cfg: GateConfig) {
    !Renormalize(cfg) || cfg.topkMethod == "noaux_tc"
  }

  /**
   * The two finishing steps are not exclusive: every configuration takes at
   * least one of them, and only a renormalising `noaux_tc` gate takes both.
   */
  lemma FinishingSteps(cfg: GateConfig)
    ensures Renormalize(cfg) || ScalesWeights(cfg)
    ensures Renormalize(cfg) && ScalesWeights(cfg) <==>
      cfg.topK > 1 && cfg.normTopkProb && cfg.topkMethod == "noaux_tc"
    ensures !Renormalize(cfg) ==> ScalesWeights(cfg)
  {
  }

  /** The exceptions the gate raises before touching any tensor. */
  datatype GateError =
    | RuntimeError(topkMethod: string)          // unsupported `topk_method`
    | NotImplementedError(scoringFunc: string)  // unsupported `scoring_func`

  const Methods: set<string> := {"greedy", "group_limited_greedy", "noaux_tc"}
  const ScoringFuncs: set<string> := {"softmax", "sigmoid"}

  /**
   * `_compute_scores`: dispatch on `scoring_func`; `softmaxScores` and
   * `sigmoidScores` are what the two torch functions return for the logits.
   */
  function ComputeScores(cfg: GateConfig, softmaxScores: seq<real>, sigmoidScores: seq<real>)
    : (r: Result<seq<real>, GateError>)
    ensures r.Err? <==> cfg.scoringFunc !in ScoringFuncs
    ensures r.Err? ==> r.error == NotImplementedError(cfg.scoringFunc)
    ensures cfg.scoringFunc == "softmax" ==> r == Ok(softmaxScores)
    ensures cfg.scoringFunc == "sigmoid" ==> r == Ok(sigmoidScores)
  {
    if cfg.scoringFunc == "softmax" then Ok(softmaxScores)
    else if cfg.scoringFunc == "sigmoid" then Ok(sigmoidScores)
    else Err(NotImplementedError(cfg.scoringFunc))
  }

  // ---------------------------------------------------------------------
  // torch.topk

  /** No index occurs twice. */
  predicate Distinct(idx: seq<nat>) {
    forall a, b | 0 <= a < b < |idx| :: idx[a] != idx[b]
  }

  /**
   * What `torch.topk(x, k, sorted=False)[1]` returns: `k` distinct positions
   * of `x`, none of whose values is below a value left out. The order, and
   * the choice among equal values, are not fixed.
   */
  predicate IsTopK(x: seq<real>, k: nat, idx: seq<nat>) {
    |idx| == k && Distinct(idx) && (forall a | 0 <= a < k :: idx[a] < |x|) &&
    (forall a, j | 0 <= a < k && 0 <= j < |x| && j !in idx :: x[j] <= x[idx[a]])
  }

  /** `0, 1, …, n - 1`. */
  function Range(n: nat): (r: seq<nat>)
    ensures |r| == n && forall i | 0 <= i < n :: r[i] == i
  {
    seq(n, i requires 0 <= i < n => i)
  }

  /** The positions of `x`, each once. */
  predicate IsPermutation(perm: seq<nat>, n: nat) {
    |perm| == n && Distinct(perm) && (forall m | 0 <= m < n :: perm[m] < n) &&
    forall j | 0 <= j < n :: j in perm
  }

  /** Swapping two entries keeps a permutation a permutation. */
  lemma SwapPermutation(perm: seq<nat>, n: nat, a: nat, b: nat)
    requires IsPermutation(perm, n) && a < n && b < n
    ensures IsPermutation(perm[a := perm[b]][b := perm[a]], n)
  {
    var q := perm[a := perm[b]][b := perm[a]];
    forall j | 0 <= j < n ensures j in q {
      assert j in perm;
      var m :| 0 <= m < n && perm[m] == j;
      if m == a { assert q[b] == j; }
      else if m == b { assert q[a] == j; }
      else { assert q[m] == j; }
    }
  }

  /** The position, among `perm[t..]`, of a largest value of `x`. */
  method MaxFrom(x: seq<real>, perm: seq<nat>, t: nat) returns (best: nat)
    requires t < |perm| && forall m | 0 <= m < |perm| :: perm[m] < |x|
    ensures t <= best < |perm|
    ensures forall p | t <= p < |perm| :: x[perm[p]] <= x[perm[best]]
  {
    best := t;
    var m := t + 1;
    while m < |perm|
      invariant t <= best < |perm| && t + 1 <= m <= |perm|
      invariant forall p | t <= p < m :: x[perm[p]] <= x[perm[best]]
    {
      if x[perm[m]] > x[perm[best]] {
        best := m;
      }
      m := m + 1;
    }
  }

  /**
   * `torch.topk(x, k)`: partial selection sort of the positions of `x`; the
   * `k` positions selected first are the result.
   */
  method TopK(x: seq<real>, k: nat) returns (idx: seq<nat>)
    requires k <= |x|
    ensures IsTopK(x, k, idx)
  {
    var perm: seq<nat> := Range(|x|);
    assert IsPermutation(perm, |x|) by {
      forall j | 0 <= j < |x| ensures j in perm { assert perm[j] == j; }
    }
    var t := 0;
    while t < k
      invariant 0 <= t <= k && IsPermutation(perm, |x|)
      invariant forall a, m | 0 <= a < t <= m < |perm| :: x[perm[m]] <= x[perm[a]]
    {
      var best := MaxFrom(x, perm, t);
      SwapPermutation(perm, |x|, t, best);
      perm := perm[t := perm[best]][best := perm[t]];
      t := t + 1;
    }
    idx := perm[..k];
    forall a, j | 0 <= a < k && 0 <= j < |x| && j !in idx ensures x[j] <= x[idx[a]] {
      assert j in perm;
      var m :| 0 <= m < |perm| && perm[m] == j;
    }
  }

  // ---------------------------------------------------------------------
  // Group scores

  /** The largest value: present in `v` and no smaller than any entry. */
  function Max(v: seq<real>): (r: real)
    requires |v| >= 1
    ensures r in v && forall i | 0 <= i < |v| :: v[i] <= r
  {
    if |v| == 1 then v[0]
    else
      var m := Max(v[1..]);
      assert forall i | 1 <= i < |v| :: v[i] == v[1..][i - 1];
      if v[0] >= m then v[0] else m
  }

  /** `grouped_logits.max(-1).values`: the score of a group is its largest entry. */
  function GroupMax(groups: seq<seq<real>>): (r: seq<real>)
    requires forall g | 0 <= g < |groups| :: |groups[g]| >= 1
    ensures |r| == |groups|
    ensures forall g | 0 <= g < |groups| :: r[g] in groups[g] && forall i | 0 <= i < |groups[g]| :: groups[g][i] <= r[g]
  {
    seq(|groups|, g requires 0 <= g < |groups| => Max(groups[g]))
  }

  /** `s` is the largest sum of two entries of `v` at different positions. */
  predicate IsTopTwoSum(v: seq<real>, s: real) {
    (exists p, q | 0 <= p < q < |v| :: s == v[p] + v[q]) &&
    (forall p, q | 0 <= p < q < |v| :: v[p] + v[q] <= s)
  }

  /** The two entries `topk(2)` chooses have the largest pair sum. */
  lemma TopTwoSumOfTopK(v: seq<real>, idx: seq<nat>)
    requires IsTopK(v, 2, idx)
    ensures IsTopTwoSum(v, v[idx[0]] + v[idx[1]])
  {
    var i, j := idx[0], idx[1];
    var s := v[i] + v[j];
    if i < j {
      assert s == v[i] + v[j];
    } else {
      assert s == v[j] + v[i];
    }
    forall p, q | 0 <= p < q < |v| ensures v[p] + v[q] <= s {
      if p != i && p != j {
        assert p !in idx;
        assert v[p] <= v[i] && v[p] <= v[j];
      }
      if q != i && q != j {
        assert q !in idx;
        assert v[q] <= v[i] && v[q] <= v[j];
      }
    }
  }

  /**
   * `scores_for_choice.view(n, n_group, -1).topk(2, dim=-1)[0].sum(dim=-1)`:
   * the score of a group is the sum of its two largest entries.
   */
  method GroupTopTwoSums(groups: seq<seq<real>>) returns (r: seq<real>)
    requires forall g | 0 <= g < |groups| :: |groups[g]| >= 2
    ensures |r| == |groups|
    ensures forall g | 0 <= g < |groups| :: IsTopTwoSum(groups[g], r[g])
  {
    r := [];
    var g := 0;
    while g < |groups|
      invariant 0 <= g <= |groups| && |r| == g
      invariant forall h | 0 <= h < g :: IsTopTwoSum(groups[h], r[h])
    {
      var idx := TopK(groups[g], 2);
      TopTwoSumOfTopK(groups[g], idx);
      r := r + [groups[g][idx[0]] + groups[g][idx[1]]];
      g := g + 1;
    }
  }

  // ---------------------------------------------------------------------
  // Group masking

  /**
   * `group_mask = zeros_like(group_scores); group_mask.scatter_(1, group_idx, 1)`:
   * a fresh mask with a one at every chosen group.
   */
  method ScatterGroupMask(nGroup: nat, groupIdx: seq<nat>) returns (mask: array<bool>)
    requires forall a | 0 <= a < |groupIdx| :: groupIdx[a] < nGroup
    ensures fresh(mask) && mask.Length == nGroup
    ensures forall g | 0 <= g < nGroup :: mask[g] <==> g in groupIdx
    ensures mask[..] == MaskOf(nGroup, groupIdx)
  {
    mask := new bool[nGroup](_ => false);
    var a := 0;
    while a < |groupIdx|
      invariant 0 <= a <= |groupIdx|
      invariant forall g | 0 <= g < nGroup :: mask[g] <==> g in groupIdx[..a]
    {
      mask[groupIdx[a]] := true;
      assert groupIdx[..a + 1] == groupIdx[..a] + [groupIdx[a]];
      a := a + 1;
    }
    assert groupIdx[..a] == groupIdx;
  }

  /** The mask with a one exactly at the listed groups. */
  function MaskOf(nGroup: nat, groupIdx: seq<nat>): (r: seq<bool>)
    ensures |r| == nGroup && forall g | 0 <= g < nGroup :: r[g] <==> g in groupIdx
  {
    seq(nGroup, g requires 0 <= g < nGroup => g in groupIdx)
  }

  /** The groups a mask keeps. */
  function Kept(mask: seq<bool>): set<nat> {
    set g: nat | g < |mask| && mask[g]
  }

  /** The indices an index list names. */
  function Elems(idx: seq<nat>): set<nat> {
    set a | a in idx
  }

  /** Distinct entries: as many elements as positions. */
  lemma {:induction false} DistinctCard(idx: seq<nat>)
    requires Distinct(idx)
    ensures |Elems(idx)| == |idx|
  {
    if idx != [] {
      var last := idx[|idx| - 1];
      var init := idx[..|idx| - 1];
      assert idx == init + [last];
      assert Distinct(init);
      DistinctCard(init);
      assert Elems(idx) == Elems(init) + {last};
      assert last !in Elems(init) by {
        forall a | 0 <= a < |init| ensures init[a] != last {
          assert init[a] == idx[a];
        }
      }
    }
  }

  /** A mask scattered from `topk_group` distinct groups keeps exactly `topk_group` groups. */
  lemma KeptGroupCount(mask: seq<bool>, groupIdx: seq<nat>)
    requires Distinct(groupIdx) && forall a | 0 <= a < |groupIdx| :: groupIdx[a] < |mask|
    requires forall g | 0 <= g < |mask| :: mask[g] <==> g in groupIdx
    ensures |Kept(mask)| == |groupIdx|
  {
    assert Kept(mask) == Elems(groupIdx);
    DistinctCard(groupIdx);
  }

  /** `n` zeros. */
  function Zeros(n: nat): (r: seq<real>)
    ensures |r| == n && forall i | 0 <= i < n :: r[i] == 0.0
  {
    seq(n, _ => 0.0)
  }

  /**
   * `masked_fill(~mask, 0.0)` over groups of `gsize` consecutive experts:
   * the entries of a kept group stay, the others become 0.0.
   */
  function MaskGroups(x: seq<real>, gsize: nat, mask: seq<bool>): (r: seq<real>)
    requires gsize >= 1 && |x| % gsize == 0 && |mask| == |x| / gsize
    ensures |r| == |x|
  {
    var groups := Unflatten(x, gsize);
    var filled := seq(|groups|, g requires 0 <= g < |groups| => if mask[g] then groups[g] else Zeros(gsize));
    FlattenLength(filled, gsize);
    Flatten(filled)
  }

  /** Entry `i` of the masked scores is kept exactly when its group `i / gsize` is. */
  lemma MaskGroupsElements(x: seq<real>, gsize: nat, mask: seq<bool>)
    requires gsize >= 1 && |x| % gsize == 0 && |mask| == |x| / gsize
    ensures var r := MaskGroups(x, gsize, mask);
      |r| == |x| && forall i | 0 <= i < |x| :: i / gsize < |mask| && r[i] == (if mask[i / gsize] then x[i] else 0.0)
  {
    var groups := Unflatten(x, gsize);
    var filled := seq(|groups|, g requires 0 <= g < |groups| => if mask[g] then groups[g] else Zeros(gsize));
    assert Uniform(filled, gsize);
    FlattenLength(filled, gsize);
    forall i | 0 <= i < |x| ensures i / gsize < |mask| && Flatten(filled)[i] == (if mask[i / gsize] then x[i] else 0.0) {
      UnflattenIndex(x, gsize, i);
      FlattenAt(filled, gsize, i);
    }
  }

  lemma MaskGroupsAt(x: seq<real>, gsize: nat, mask: seq<bool>, i: nat)
    requires gsize >= 1 && |x| % gsize == 0 && |mask| == |x| / gsize && i < |x|
    ensures i / gsize < |mask| && MaskGroups(x, gsize, mask)[i] == if mask[i / gsize] then x[i] else 0.0
  {
    MaskGroupsElements(x, gsize, mask);
  }

  // ---------------------------------------------------------------------
  // Renormalisation and scaling

  function Sum(w: seq<real>): real {
    if w == [] then 0.0 else w[0] + Sum(w[1..])
  }

  /** The `1e-20` added to the denominator. */
  const Eps: real := 0.00000000000000000001

  predicate NonNegative(w: seq<real>) {
    forall i | 0 <= i < |w| :: w[i] >= 0.0
  }

  lemma {:induction false} SumNonNegative(w: seq<real>)
    requires NonNegative(w)
    ensures Sum(w) >= 0.0
    ensures forall i | 0 <= i < |w| :: w[i] <= Sum(w)
  {
    if w != [] {
      SumNonNegative(w[1..]);
      assert forall i | 1 <= i < |w| :: w[i] == w[1..][i - 1];
    }
  }

  /** Every entry divided by `d`. */
  function DivideAll(w: seq<real>, d: real): (r: seq<real>)
    requires d != 0.0
    ensures |r| == |w| && forall i | 0 <= i < |w| :: r[i] * d == w[i]
  {
    if w == [] then [] else [w[0] / d] + DivideAll(w[1..], d)
  }

  /** Dividing every entry by `d` divides the sum by `d`. */
  lemma {:induction false} SumDivideAll(w: seq<real>, d: real)
    requires d != 0.0
    ensures Sum(DivideAll(w, d)) * d == Sum(w)
  {
    if w != [] {
      SumDivideAll(w[1..], d);
      var r := DivideAll(w, d);
      assert r[1..] == DivideAll(w[1..], d);
      assert Sum(r) * d == r[0] * d + Sum(r[1..]) * d;
    }
  }

  /** Every entry multiplied by `f`. */
  function ScaleAll(w: seq<real>, f: real): (r: seq<real>)
    ensures |r| == |w|
  {
    if w == [] then [] else [w[0] * f] + ScaleAll(w[1..], f)
  }

  /** Scaling every entry by `f` scales each entry and the sum by `f`. */
  lemma {:induction false} ScaleAllEffect(w: seq<real>, f: real)
    ensures forall i | 0 <= i < |w| :: ScaleAll(w, f)[i] == w[i] * f
    ensures Sum(ScaleAll(w, f)) == Sum(w) * f
  {
    ScaleAllAt(w, f);
    ScaleAllSum(w, f);
  }

  lemma {:induction false} ScaleAllAt(w: seq<real>, f: real)
    ensures forall i | 0 <= i < |w| :: ScaleAll(w, f)[i] == w[i] * f
  {
    if w != [] {
      ScaleAllAt(w[1..], f);
      var r := ScaleAll(w, f);
      assert r[1..] == ScaleAll(w[1..], f);
      assert forall i | 1 <= i < |w| :: r[i] == r[1..][i - 1] && w[i] == w[1..][i - 1];
    }
  }

  lemma {:induction false} ScaleAllSum(w: seq<real>, f: real)
    ensures Sum(ScaleAll(w, f)) == Sum(w) * f
  {
    if w != [] {
      ScaleAllSum(w[1..], f);
      var r := ScaleAll(w, f);
      assert r[1..] == ScaleAll(w[1..], f);
      assert Sum(r) == w[0] * f + Sum(w[1..]) * f;
      assert (w[0] + Sum(w[1..])) * f == w[0] * f + Sum(w[1..]) * f;
    }
  }

  /**
   * The tail of `forward` on the chosen weights: renormalise by the row sum
   * plus `1e-20` when `renormalize` holds, then scale by
   * `routed_scaling_factor` when `ScalesWeights` holds. The weights are
   * non-negative (they are softmax or sigmoid outputs).
   */
  function Finish(cfg: GateConfig, w: seq<real>): (r: seq<real>)
    requires NonNegative(w)
    ensures |r| == |w|
  {
    SumNonNegative(w);
    var v := if Renormalize(cfg) then DivideAll(w, Sum(w) + Eps) else w;
    if ScalesWeights(cfg) then ScaleAll(v, cfg.routedScalingFactor) else v
  }

  /**
   * Renormalisation: with `d` the row sum plus `1e-20`, every weight becomes
   * its share `w[i] / d` of the total (`DivideAll`), a number in `[0, 1)`,
   * and the new total `Sum(w) / d` (`SumDivideAll`) is also in `[0, 1)`.
   */
  lemma Renormalized(w: seq<real>)
    requires NonNegative(w)
    ensures Sum(w) + Eps > 0.0
    ensures var r := DivideAll(w, Sum(w) + Eps);
      (0.0 <= Sum(r) < 1.0) && forall i | 0 <= i < |w| :: 0.0 <= r[i] < 1.0
  {
    SumNonNegative(w);
    var d := Sum(w) + Eps;
    SharesBelowOne(w, d);
    TotalBelowOne(w, d);
  }

  /** The renormalised total times the denominator `sum + 1e-20` is the old total. */
  lemma RenormalizedTotal(w: seq<real>)
    requires NonNegative(w)
    ensures var d := Sum(w) + Eps; d > 0.0 && Sum(DivideAll(w, d)) * d == Sum(w)
  {
    SumNonNegative(w);
    SumDivideAll(w, Sum(w) + Eps);
  }

  lemma TotalBelowOne(w: seq<real>, d: real)
    requires 0.0 <= Sum(w) < d
    ensures 0.0 <= Sum(DivideAll(w, d)) < 1.0
  {
    SumDivideAll(w, d);
    BelowOne(Sum(DivideAll(w, d)), d, Sum(w), Sum(w));
  }

  lemma SharesBelowOne(w: seq<real>, d: real)
    requires NonNegative(w) && 0.0 <= Sum(w) < d
    ensures forall i | 0 <= i < |w| :: 0.0 <= DivideAll(w, d)[i] < 1.0
  {
    forall i | 0 <= i < |w| ensures 0.0 <= DivideAll(w, d)[i] < 1.0 {
      ShareBelowOne(w, d, i);
    }
  }

  lemma ShareBelowOne(w: seq<real>, d: real, i: nat)
    requires NonNegative(w) && 0.0 <= Sum(w) < d && i < |w|
    ensures 0.0 <= DivideAll(w, d)[i] < 1.0
  {
    SumNonNegative(w);
    BelowOne(DivideAll(w, d)[i], d, w[i], Sum(w));
  }

  /** A gate that does not renormalise only scales: weight `i` becomes `w[i] * routed_scaling_factor`. */
  lemma FinishScalesOnly(cfg: GateConfig, w: seq<real>)
    requires NonNegative(w) && !Renormalize(cfg)
    ensures var r := Finish(cfg, w);
      (forall i | 0 <= i < |w| :: r[i] == w[i] * cfg.routedScalingFactor) &&
      Sum(r) == Sum(w) * cfg.routedScalingFactor
  {
    ScaleAllEffect(w, cfg.routedScalingFactor);
  }

  /** A renormalising gate other than `noaux_tc` only renormalises. */
  lemma FinishRenormalizesOnly(cfg: GateConfig, w: seq<real>)
    requires NonNegative(w) && Renormalize(cfg) && cfg.topkMethod != "noaux_tc"
    ensures Sum(w) + Eps > 0.0
    ensures Finish(cfg, w) == DivideAll(w, Sum(w) + Eps)
  {
    SumNonNegative(w);
  }

  /**
   * A renormalising `noaux_tc` gate does both: the renormalised weights are
   * then multiplied by `routed_scaling_factor`.
   */
  lemma FinishBoth(cfg: GateConfig, w: seq<real>)
    requires NonNegative(w) && Renormalize(cfg) && cfg.topkMethod == "noaux_tc"
    ensures Sum(w) + Eps > 0.0
    ensures Finish(cfg, w) == ScaleAll(DivideAll(w, Sum(w) + Eps), cfg.routedScalingFactor)
  {
    SumNonNegative(w);
  }

  /** A non-negative share `x` of a total below `d` is below one. */
  lemma BelowOne(v: real, d: real, x: real, total: real)
    requires d > 0.0 && v * d == x && 0.0 <= x <= total < d
    ensures 0.0 <= v < 1.0
  {
  }

  // ---------------------------------------------------------------------
  // Routing one token

  /** The weights at the chosen positions (`scores.gather(1, topk_idx)`). */
  function Gather(scores: seq<real>, idx: seq<nat>): (r: seq<real>)
    requires forall a | 0 <= a < |idx| :: idx[a] < |scores|
    ensures |r| == |idx| && forall a | 0 <= a < |idx| :: r[a] == scores[idx[a]]
  {
    seq(|idx|, a requires 0 <= a < |idx| => scores[idx[a]])
  }

  /** Gathering non-negative scores gives non-negative weights. */
  lemma GatherNonNegative(scores: seq<real>, idx: seq<nat>)
    requires NonNegative(scores) && forall a | 0 <= a < |idx| :: idx[a] < |scores|
    ensures NonNegative(Gather(scores, idx))
  {
  }

  /** A scoring function (softmax, sigmoid): one non-negative score per logit. */
  ghost predicate IsScorer(f: seq<real> -> seq<real>) {
    forall v :: |f(v)| == |v| && NonNegative(f(v))
  }

  /** `e_score_correction_bias` added to every score. */
  function AddBias(scores: seq<real>, bias: seq<real>): (r: seq<real>)
    requires |bias| == |scores|
    ensures |r| == |scores| && forall i | 0 <= i < |scores| :: r[i] == scores[i] + bias[i]
  {
    seq(|scores|, i requires 0 <= i < |scores| => scores[i] + bias[i])
  }

  /**
   * `SoftmaxTopK(top_k)`: softmax over the experts, then the `k` largest
   * probabilities and their positions.
   */
  method SoftmaxTopK(softmax: seq<real> -> seq<real>, x: seq<real>, k: nat) returns (w: seq<real>, idx: seq<nat>)
    requires IsScorer(softmax) && k <= |x|
    ensures IsTopK(softmax(x), k, idx) && w == Gather(softmax(x), idx)
    ensures NonNegative(w)
  {
    var probs := softmax(x);
    idx := TopK(probs, k);
    w := Gather(probs, idx);
  }

  /** The shape `unflatten(-1, (n_group, -1))` needs: groups of `gsize >= minSize` experts. */
  predicate GroupShape(cfg: GateConfig, n: nat, minSize: nat) {
    cfg.nGroup >= 1 && n % cfg.nGroup == 0 && n / cfg.nGroup >= minSize &&
    cfg.topkGroup <= cfg.nGroup && cfg.topK <= n
  }

  /** `n_routed_experts // n_group`: the experts per group. */
  function GroupSize(cfg: GateConfig, n: nat): (gsize: nat)
    requires GroupShape(cfg, n, 1)
    ensures gsize >= 1 && n % gsize == 0 && n / gsize == cfg.nGroup
  {
    GroupCount(n, cfg.nGroup);
    n / cfg.nGroup
  }

  /**
   * `group_limited_greedy`: a group scores its largest logit; the
   * `topk_group` best groups are kept, the logits of the other groups are set
   * to 0.0, and `SoftmaxTopK` picks among the result.
   */
  method GroupLimitedGreedy(cfg: GateConfig, logits: seq<real>, softmax: seq<real> -> seq<real>)
    returns (w: seq<real>, idx: seq<nat>, ghost groupIdx: seq<nat>)
    requires IsScorer(softmax) && GroupShape(cfg, |logits|, 1)
    ensures var gsize := GroupSize(cfg, |logits|);
      IsTopK(GroupMax(Unflatten(logits, gsize)), cfg.topkGroup, groupIdx) &&
      var masked := MaskGroups(logits, gsize, MaskOf(cfg.nGroup, groupIdx));
      IsTopK(softmax(masked), cfg.topK, idx) && w == Gather(softmax(masked), idx)
    ensures NonNegative(w)
  {
    var gsize := GroupSize(cfg, |logits|);
    var groups := Unflatten(logits, gsize);
    var groupScores := GroupMax(groups);
    var gi := TopK(groupScores, cfg.topkGroup);
    groupIdx := gi;
    var mask := ScatterGroupMask(cfg.nGroup, gi);
    var masked := MaskGroups(logits, gsize, mask[..]);
    MaskGroupsElements(logits, gsize, mask[..]);
    w, idx := SoftmaxTopK(softmax, masked, cfg.topK);
  }

  /**
   * `noaux_tc`: the scores plus the correction bias choose; a group scores
   * the sum of its two largest corrected scores; the `topk_group` best groups
   * are kept, the others' corrected scores are set to 0.0, the `top_k` largest
   * of the result are chosen, and their weights are the uncorrected scores.
   */
  method NoauxTc(cfg: GateConfig, scores: seq<real>, bias: seq<real>)
    returns (w: seq<real>, idx: seq<nat>, ghost groupScores: seq<real>, ghost groupIdx: seq<nat>)
    requires |bias| == |scores| && GroupShape(cfg, |scores|, 2)
    ensures |idx| == cfg.topK && Distinct(idx) && forall a | 0 <= a < |idx| :: idx[a] < |scores|
    ensures w == Gather(scores, idx)
    ensures var gsize := GroupSize(cfg, |scores|);
      var groups := Unflatten(AddBias(scores, bias), gsize);
      |groupScores| == cfg.nGroup &&
      (forall g | 0 <= g < cfg.nGroup :: IsTopTwoSum(groups[g], groupScores[g])) &&
      IsTopK(groupScores, cfg.topkGroup, groupIdx) &&
      IsTopK(MaskGroups(AddBias(scores, bias), gsize, MaskOf(cfg.nGroup, groupIdx)), cfg.topK, idx) &&
      w == Gather(scores, idx)
  {
    var gsize := GroupSize(cfg, |scores|);
    var choice := AddBias(scores, bias);
    var groups := Unflatten(choice, gsize);
    var gs := GroupTopTwoSums(groups);
    groupScores := gs;
    var gi := TopK(gs, cfg.topkGroup);
    groupIdx := gi;
    var mask := ScatterGroupMask(cfg.nGroup, gi);
    var tmp := MaskGroups(choice, gsize, mask[..]);
    MaskGroupsElements(choice, gsize, mask[..]);
    idx := TopK(tmp, cfg.topK);
    w := Gather(scores, idx);
  }

  /** The routing of one token: the chosen experts and their weights. */
  datatype Routing = Routing(weights: seq<real>, experts: seq<nat>)

  /**
   * The shapes `forward` needs: one logit per routed expert, `top_k` of
   * them at most, and for the group methods `n_group` groups of equal size
   * (at least two experts each for `topk(2)` under `noaux_tc`).
   */
  predicate ForwardShape(cfg: GateConfig, logits: seq<real>, bias: seq<real>) {
    |logits| == cfg.nRoutedExperts && cfg.topK <= |logits| &&
    (cfg.topkMethod == "group_limited_greedy" ==> GroupShape(cfg, |logits|, 1)) &&
    (cfg.topkMethod == "noaux_tc" ==> |bias| == |logits| && GroupShape(cfg, |logits|, 2))
  }

  /**
   * `MoEGate.forward` for one token with router logits `logits`. The ghost
   * outputs are the group scores and the kept groups of the group methods.
   */
  method Forward(cfg: GateConfig, logits: seq<real>, bias: seq<real>,
                 softmax: seq<real> -> seq<real>, sigmoid: seq<real> -> seq<real>)
    returns (r: Result<Routing, GateError>, ghost groupScores: seq<real>, ghost groupIdx: seq<nat>)
    requires IsScorer(softmax) && IsScorer(sigmoid) && ForwardShape(cfg, logits, bias)
    ensures r.Err? <==> cfg.topkMethod !in Methods || (cfg.topkMethod == "noaux_tc" && cfg.scoringFunc !in ScoringFuncs)
    ensures cfg.topkMethod !in Methods ==> r == Err(RuntimeError(cfg.topkMethod))
    ensures cfg.topkMethod == "noaux_tc" && cfg.scoringFunc !in ScoringFuncs ==>
      r == Err(NotImplementedError(cfg.scoringFunc))
    ensures r.Ok? ==>
      |r.value.experts| == cfg.topK && |r.value.weights| == cfg.topK && Distinct(r.value.experts) &&
      forall a | 0 <= a < cfg.topK :: r.value.experts[a] < cfg.nRoutedExperts
    ensures cfg.topkMethod == "greedy" ==> (
      r.Ok? && IsTopK(softmax(logits), cfg.topK, r.value.experts) &&
      r.value.weights == Finish(cfg, Gather(softmax(logits), r.value.experts)))
    ensures cfg.topkMethod == "group_limited_greedy" ==> (
      r.Ok? &&
      var gsize := GroupSize(cfg, |logits|);
      groupScores == GroupMax(Unflatten(logits, gsize)) &&
      IsTopK(groupScores, cfg.topkGroup, groupIdx) &&
      var probs := softmax(MaskGroups(logits, gsize, MaskOf(cfg.nGroup, groupIdx)));
      IsTopK(probs, cfg.topK, r.value.experts) &&
      r.value.weights == Finish(cfg, Gather(probs, r.value.experts)))
    ensures cfg.topkMethod == "noaux_tc" && r.Ok? ==>
      var gsize := GroupSize(cfg, |logits|);
      var scores := if cfg.scoringFunc == "softmax" then softmax(logits) else sigmoid(logits);
      var choice := AddBias(scores, bias);
      |groupScores| == cfg.nGroup &&
      (forall g | 0 <= g < cfg.nGroup :: IsTopTwoSum(Unflatten(choice, gsize)[g], groupScores[g])) &&
      IsTopK(groupScores, cfg.topkGroup, groupIdx) &&
      IsTopK(MaskGroups(choice, gsize, MaskOf(cfg.nGroup, groupIdx)), cfg.topK, r.value.experts) &&
      r.value.weights == Finish(cfg, Gather(scores, r.value.experts))
  {
    groupScores, groupIdx := [], [];
    var w: seq<real>, idx: seq<nat>;
    if cfg.topkMethod == "greedy" {
      w, idx := SoftmaxTopK(softmax, logits, cfg.topK);
    } else if cfg.topkMethod == "group_limited_greedy" {
      var gsize := GroupSize(cfg, |logits|);
      groupScores := GroupMax(Unflatten(logits, gsize));
      w, idx, groupIdx := GroupLimitedGreedy(cfg, logits, softmax);
    } else if cfg.topkMethod == "noaux_tc" {
      var scores := ComputeScores(cfg, softmax(logits), sigmoid(logits));
      if scores.Err? {
        return Err(scores.error), groupScores, groupIdx;
      }
      w, idx, groupScores, groupIdx := NoauxTc(cfg, scores.value, bias);
    } else {
      return Err(RuntimeError(cfg.topkMethod)), groupScores, groupIdx;
    }
    r := Ok(Routing(Finish(cfg, w), idx));
  }

  /** A set is no larger than a set containing it. */
  lemma SubsetCard<T>(a: set<T>, b: set<T>)
    requires a <= b
    ensures |a| <= |b|
  {
    assert b == a + (b - a);
    assert a * (b - a) == {};
  }

  /** The experts of kept groups whose score is positive. */
  function PositiveKept(x: seq<real>, gsize: nat, mask: seq<bool>): set<nat>
    requires gsize >= 1
  {
    set i: nat | i < |x| && i / gsize < |mask| && mask[i / gsize] && x[i] > 0.0
  }

  /**
   * Masking by setting dropped groups to 0.0 keeps the choice inside the
   * kept groups when those hold at least `k` positive scores: then every
   * chosen expert belongs to a kept group and has a positive score.
   */
  lemma ChosenInKeptGroups(x: seq<real>, gsize: nat, mask: seq<bool>, k: nat, idx: seq<nat>)
    requires gsize >= 1 && |x| % gsize == 0 && |mask| == |x| / gsize
    requires IsTopK(MaskGroups(x, gsize, mask), k, idx)
    requires |PositiveKept(x, gsize, mask)| >= k
    ensures forall a | 0 <= a < k :: idx[a] / gsize < |mask| && mask[idx[a] / gsize] && x[idx[a]] > 0.0
  {
    forall a | 0 <= a < k ensures idx[a] / gsize < |mask| && mask[idx[a] / gsize] && x[idx[a]] > 0.0 {
      MaskGroupsAt(x, gsize, mask, idx[a]);
      if !(mask[idx[a] / gsize] && x[idx[a]] > 0.0) {
        NonPositiveChoice(x, gsize, mask, k, idx, a);
      }
    }
  }

  /** If a chosen expert's masked score is not positive, every positive kept expert was chosen too, so there are fewer than `k` of them. */
  lemma NonPositiveChoice(x: seq<real>, gsize: nat, mask: seq<bool>, k: nat, idx: seq<nat>, a: nat)
    requires gsize >= 1 && |x| % gsize == 0 && |mask| == |x| / gsize
    requires IsTopK(MaskGroups(x, gsize, mask), k, idx) && a < k
    requires MaskGroups(x, gsize, mask)[idx[a]] <= 0.0
    ensures |PositiveKept(x, gsize, mask)| < k
  {
    var m := MaskGroups(x, gsize, mask);
    var c := idx[a];
    var pk := PositiveKept(x, gsize, mask);
    var rest := Elems(idx) - {c};
    forall j | j in pk ensures j in rest {
      MaskGroupsAt(x, gsize, mask, j);
      assert m[j] == x[j] > 0.0 >= m[c];
    }
    SubsetCard(pk, rest);
    DistinctCard(idx);
    assert c in Elems(idx);
  }

  /** `f` keeps the strict order of its input's entries (softmax does). */
  ghost predicate OrderPreserving(f: seq<real> -> seq<real>) {
    forall v, i, j | 0 <= i < |v| && 0 <= j < |v| && i < |f(v)| && j < |f(v)| && v[i] < v[j] :: f(v)[i] < f(v)[j]
  }

  /**
   * `group_limited_greedy` masks logits, not probabilities, with 0.0: with
   * logits `[-1, -2, 5, -3]` in two groups, top-1 group and top-2 experts,
   * group 1 is the only one kept, yet one chosen expert is from group 0,
   * because 0.0 beats the kept logit -3.
   */
  lemma GroupLimitedChoosesDroppedGroup(softmax: seq<real> -> seq<real>, groupIdx: seq<nat>, idx: seq<nat>)
    requires IsScorer(softmax) && OrderPreserving(softmax)
    requires IsTopK(GroupMax(Unflatten([-1.0, -2.0, 5.0, -3.0], 2)), 1, groupIdx)
    requires IsTopK(softmax(MaskGroups([-1.0, -2.0, 5.0, -3.0], 2, MaskOf(2, groupIdx))), 2, idx)
    ensures groupIdx == [1]
    ensures idx[0] / 2 == 0 || idx[1] / 2 == 0
  {
    var m := [0.0, 0.0, 5.0, -3.0];
    ExampleGroupStage(groupIdx);
    var p := softmax(m);
    assert |p| == 4;
    assert p[0] < p[2] && p[1] < p[2] && p[3] < p[2] && p[3] < p[0];
    ExampleExpertStage(p, idx);
  }

  /** The group stage of the example: group 1 wins and group 0 is zeroed. */
  lemma ExampleGroupStage(groupIdx: seq<nat>)
    requires IsTopK(GroupMax(Unflatten([-1.0, -2.0, 5.0, -3.0], 2)), 1, groupIdx)
    ensures groupIdx == [1]
    ensures MaskGroups([-1.0, -2.0, 5.0, -3.0], 2, MaskOf(2, groupIdx)) == [0.0, 0.0, 5.0, -3.0]
  {
    var x := [-1.0, -2.0, 5.0, -3.0];
    UnflattenCons(x, 2);
    assert x[..2] == [-1.0, -2.0] && x[2..] == [5.0, -3.0];
    UnflattenCons(x[2..], 2);
    assert x[2..][..2] == [5.0, -3.0] && x[2..][2..] == [];
    assert Unflatten(x, 2) == [[-1.0, -2.0], [5.0, -3.0]];
    var gs := GroupMax(Unflatten(x, 2));
    assert gs[0] == -1.0 && gs[1] == 5.0;
    assert groupIdx[0] == 1;
    var mask := MaskOf(2, groupIdx);
    assert mask == [false, true];
    MaskGroupsElements(x, 2, mask);
  }

  /** The expert stage of the example: the top two of such scores include expert 0 or 1. */
  lemma ExampleExpertStage(p: seq<real>, idx: seq<nat>)
    requires |p| == 4 && p[0] < p[2] && p[1] < p[2] && p[3] < p[2] && p[3] < p[0]
    requires IsTopK(p, 2, idx)
    ensures idx[0] / 2 == 0 || idx[1] / 2 == 0
  {
    assert idx[0] == 2 || p[idx[0]] < p[2];
    assert 2 in idx;
  }
}
