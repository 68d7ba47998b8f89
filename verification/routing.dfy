/**
 * Checkpoint-name routing of `DeepseekV2ForCausalLM.load_weights`: which
 * names are skipped, how `.weight_scale_inv` is renamed, the mapping tables
 * (stacked shards, per-expert shards, rotary re-layouts) and the decision,
 * for one checkpoint name, of what the loader does with its tensor.
 */
module Routing {
  import opened Wrappers
  import opened Names

  /** The configuration fields the loader reads. */
  datatype LoadConfig = LoadConfig(
    useMla: bool,                  // `getattr(config, 'use_mla', True)`
    numHiddenLayers: nat,
    numNextnPredictLayers: nat,    // `getattr(config, 'num_nextn_predict_layers', 1)`
    nRoutedExperts: Option<nat>,   // `n_routed_experts`; `None` makes `range(num_experts)` raise `TypeError`
    tieWordEmbeddings: bool,
    qkNopeHeadDim: nat,
    qkRopeHeadDim: nat,
    kvLoraRank: nat,
    vHeadDim: nat,
    quantMethod: Option<string>)   // `quantization_config.get('quant_method')`, `None` without a quantization config

  // ---------------------------------------------------------------------
  // Mapping tables

  /** A shard id of `stacked_params_mapping`: `0`/`1` for gate/up, `'q'`/`'k'`/`'v'` for the fused attention projection. */
  datatype ShardId = ShardIndex(index: nat) | ShardName(letter: string)

  /** `(param_name, shard_name, shard_id)`. */
  datatype StackedEntry = StackedEntry(param: string, shard: string, id: ShardId)

  /** `stacked_params_mapping`: gate/up always, q/k/v only without MLA. */
  function StackedMapping(cfg: LoadConfig): (m: seq<StackedEntry>)
    ensures |m| == if cfg.useMla then 2 else 5
    ensures m[0] == StackedEntry(".gate_up_proj", ".gate_proj", ShardIndex(0))
    ensures m[1] == StackedEntry(".gate_up_proj", ".up_proj", ShardIndex(1))
  {
    var base := [StackedEntry(".gate_up_proj", ".gate_proj", ShardIndex(0)),
                 StackedEntry(".gate_up_proj", ".up_proj", ShardIndex(1))];
    if cfg.useMla then base
    else base + [StackedEntry(".qkv_proj", ".q_proj", ShardName("q")),
                 StackedEntry(".qkv_proj", ".k_proj", ShardName("k")),
                 StackedEntry(".qkv_proj", ".v_proj", ShardName("v"))]
  }

  /** `(mod_name, head_dim, pe_dim_offset)` of `update_pe_mapping`. */
  datatype PeEntry = PeEntry(modName: string, headDim: nat, peOffset: nat)

  /** `update_pe_mapping`: the projections whose rotary rows are re-laid out; empty without MLA. */
  function UpdatePeMapping(cfg: LoadConfig): (m: seq<PeEntry>)
    ensures !cfg.useMla ==> m == []
    ensures cfg.useMla ==> |m| == 3 && forall j | 0 <= j < 3 :: m[j].peOffset <= m[j].headDim
    ensures cfg.useMla ==> forall j | 0 <= j < 3 ::
      m[j].headDim - m[j].peOffset == cfg.qkRopeHeadDim
    ensures cfg.useMla ==>
      m[0].modName == "q_proj" && m[1].modName == "q_b_proj" && m[2].modName == "kv_a_proj_with_mqa" &&
      m[0].peOffset == cfg.qkNopeHeadDim && m[1].peOffset == cfg.qkNopeHeadDim && m[2].peOffset == cfg.kvLoraRank
  {
    if !cfg.useMla then []
    else
      var qHeadDim := cfg.qkNopeHeadDim + cfg.qkRopeHeadDim;
      var kvDim := cfg.kvLoraRank + cfg.qkRopeHeadDim;
      [PeEntry("q_proj", qHeadDim, cfg.qkNopeHeadDim),
       PeEntry("q_b_proj", qHeadDim, cfg.qkNopeHeadDim),
       PeEntry("kv_a_proj_with_mqa", kvDim, cfg.kvLoraRank)]
  }

  /** `(param_name, weight_name, expert_id, shard_id)` of `expert_params_mapping`. */
  datatype ExpertEntry = ExpertEntry(param: string, weight: string, expertId: nat, shard: string)

  /** The three entries of expert `e`: gate, up, down. */
  function ExpertEntries(e: nat): seq<ExpertEntry> {
    var id := NatToString(e);
    [ExpertEntry(".experts.gate_up", ".experts." + id + ".gate_proj", e, "gate"),
     ExpertEntry(".experts.gate_up", ".experts." + id + ".up_proj", e, "up"),
     ExpertEntry(".experts.down", ".experts." + id + ".down_proj", e, "down")]
  }

  /** `expert_params_mapping` for `n` experts. */
  function ExpertMapping(n: nat): (m: seq<ExpertEntry>)
    ensures |m| == 3 * n && forall j | 0 <= j < |m| :: m[j].expertId == j / 3
  {
    if n == 0 then [] else ExpertMapping(n - 1) + ExpertEntries(n - 1)
  }

  /**
   * The table holds three entries per expert, in expert order: entry
   * `3 * e + s` is shard `s` (gate, up, down) of expert `e`.
   */
  lemma {:induction false} ExpertMappingLayout(n: nat)
    ensures |ExpertMapping(n)| == 3 * n
    ensures forall e, s | 0 <= e < n && 0 <= s < 3 :: ExpertMapping(n)[3 * e + s] == ExpertEntries(e)[s]
  {
    if n > 0 {
      ExpertMappingLayout(n - 1);
      var m := ExpertMapping(n);
      assert m == ExpertMapping(n - 1) + ExpertEntries(n - 1);
      forall e, s | 0 <= e < n && 0 <= s < 3 ensures m[3 * e + s] == ExpertEntries(e)[s] {
        if e < n - 1 {
          assert m[3 * e + s] == ExpertMapping(n - 1)[3 * e + s];
        } else {
          assert m[3 * e + s] == ExpertEntries(n - 1)[s];
        }
      }
    }
  }

  /** The loop of `load_weights` that builds `expert_params_mapping` with `+=`. */
  method BuildExpertMapping(n: nat) returns (m: seq<ExpertEntry>)
    ensures m == ExpertMapping(n)
  {
    m := [];
    var e := 0;
    while e < n
      invariant 0 <= e <= n && m == ExpertMapping(e)
    {
      var id := NatToString(e);
      var gate := ExpertEntry(".experts.gate_up", ".experts." + id + ".gate_proj", e, "gate");
      var up := ExpertEntry(".experts.gate_up", ".experts." + id + ".up_proj", e, "up");
      var down := ExpertEntry(".experts.down", ".experts." + id + ".down_proj", e, "down");
      m := m + [gate, up, down];
      e := e + 1;
    }
  }

  // ---------------------------------------------------------------------
  // Skipped names

  /** `nextn_keys`: `.layers.{num_hidden_layers + i}` for every multi-token-prediction layer `i`. */
  function NextnKeys(cfg: LoadConfig): (keys: seq<string>)
    ensures |keys| == cfg.numNextnPredictLayers
  {
    seq(cfg.numNextnPredictLayers, i requires 0 <= i < cfg.numNextnPredictLayers =>
      ".layers." + NatToString(cfg.numHiddenLayers + i))
  }

  /** `__skip_nextn`: the name contains one of the keys. */
  predicate SkipNextn(name: string, keys: seq<string>) {
    exists i | 0 <= i < |keys| :: Contains(name, keys[i])
  }

  /** The names `load_weights` drops before looking at them further. */
  predicate Skipped(cfg: LoadConfig, name: string) {
    Contains(name, "rotary_emb.inv_freq") ||
    Contains(name, "rotary_emb.cos_cached") || Contains(name, "rotary_emb.sin_cached") ||
    (Contains(name, ".layers") && SkipNextn(name, NextnKeys(cfg))) ||
    (cfg.tieWordEmbeddings && Contains(name, "lm_head.weight"))
  }

  /** Every weight of a multi-token-prediction layer is skipped. */
  lemma NextnLayerSkipped(cfg: LoadConfig, p: string, i: nat, rest: string)
    requires i < cfg.numNextnPredictLayers
    ensures Skipped(cfg, p + ".layers." + NatToString(cfg.numHiddenLayers + i) + rest)
  {
    var key := ".layers." + NatToString(cfg.numHiddenLayers + i);
    var name := p + ".layers." + NatToString(cfg.numHiddenLayers + i) + rest;
    assert name == p + key + rest;
    assert name[|p|..|p| + |key|] == key;
    assert OccursAt(name, NextnKeys(cfg)[i], |p|);
    assert Contains(name, NextnKeys(cfg)[i]);
    assert name[|p|..|p| + 7] == ".layers";
    assert OccursAt(name, ".layers", |p|);
    assert Contains(name, ".layers");
  }

  /**
   * The weights of a regular layer are never taken for a multi-token
   * prediction layer: in `p + '.layers.' + str(l) + '.' + rest`, with `l`
   * below `num_hidden_layers`, no key occurs, as long as `p` has no dot and
   * the rest holds no further `.layers.`.
   */
  lemma RegularLayerNotNextn(cfg: LoadConfig, p: string, l: nat, rest: string)
    requires l < cfg.numHiddenLayers && '.' !in p && !Contains("." + rest, ".layers.")
    ensures !SkipNextn(p + ".layers." + NatToString(l) + "." + rest, NextnKeys(cfg))
  {
    var name := p + ".layers." + NatToString(l) + "." + rest;
    forall i | 0 <= i < cfg.numNextnPredictLayers ensures !Contains(name, NextnKeys(cfg)[i]) {
      forall q | 0 <= q <= |name| - |NextnKeys(cfg)[i]| ensures !OccursAt(name, NextnKeys(cfg)[i], q) {
        NoKeyAt(cfg, p, l, rest, i, q);
      }
    }
  }

  lemma NoKeyAt(cfg: LoadConfig, p: string, l: nat, rest: string, i: nat, q: nat)
    requires l < cfg.numHiddenLayers && '.' !in p && !Contains("." + rest, ".layers.")
    requires i < cfg.numNextnPredictLayers
    ensures !OccursAt(p + ".layers." + NatToString(l) + "." + rest, NextnKeys(cfg)[i], q)
  {
    var d, k := NatToString(l), NatToString(cfg.numHiddenLayers + i);
    var key := ".layers." + k;
    var name := p + ".layers." + d + "." + rest;
    assert NextnKeys(cfg)[i] == key;
    if q < |p| + 8 {
      if q == |p| && |k| <= |d| && d[..|k|] == k {
        DecimalPrefixLe(cfg.numHiddenLayers + i, l);
      }
      NoKeyBeforeDigits(p, d, rest, name, k, q);
    } else if q < |p| + 8 + |d| {
      Mismatch(name, key, q, 0);
    } else if q == |p| + 8 + |d| {
      if q + |key| <= |name| {
        assert name[q + 1] == rest[0] && name[q + 2] == rest[1];
      }
      NoKeyInRest(p, d, rest, name, key, q);
    } else {
      NoKeyInRest(p, d, rest, name, key, q);
    }
  }

  /** `key` does not occur at `q` when one of its characters differs. */
  lemma Mismatch(name: string, key: string, q: nat, j: nat)
    requires j < |key| && (q + |key| <= |name| ==> name[q + j] != key[j])
    ensures !OccursAt(name, key, q)
  {
    if q + |key| <= |name| {
      assert name[q..q + |key|][j] != key[j];
    }
  }

  /** No key starts in `p` or in `.layers.`, except where the layer number itself is compared. */
  lemma NoKeyBeforeDigits(p: string, d: string, rest: string, name: string, k: string, q: nat)
    requires '.' !in p && IsDigits(d) && |d| >= 1 && IsDigits(k) && |k| >= 1 && q < |p| + 8
    requires name == p + ".layers." + d + "." + rest
    requires q == |p| ==> |k| > |d| || d[..|k|] != k
    ensures !OccursAt(name, ".layers." + k, q)
  {
    var key := ".layers." + k;
    if q < |p| {
      assert name[q] == p[q];
      Mismatch(name, key, q, 0);
    } else if q == |p| {
      if OccursAt(name, key, q) {
        KeyPrefixOfLayer(d, k, rest, name[q..]);
      }
    } else if q < |p| + 7 {
      assert name[q] == ".layers."[q - |p|];
      Mismatch(name, key, q, 0);
    } else {
      assert name[q + 1] == d[0];
      Mismatch(name, key, q, 1);
    }
  }

  /** No key starts past the layer number: there the name is `'.' + rest`. */
  lemma NoKeyInRest(p: string, d: string, rest: string, name: string, key: string, q: nat)
    requires name == p + ".layers." + d + "." + rest && |p| + 8 + |d| <= q
    requires !Contains("." + rest, ".layers.") && |key| >= 8 && key[..8] == ".layers."
    ensures !OccursAt(name, key, q)
  {
    var t := "." + rest;
    var o := q - (|p| + 8 + |d|);
    assert name[|p| + 8 + |d|..] == t;
    if q + |key| <= |name| {
      assert name[q..q + |key|][..8] == name[q..q + 8];
      assert name[q..q + 8] == name[|p| + 8 + |d|..][o..o + 8];
      assert !OccursAt(t, ".layers.", o);
      assert name[q..q + |key|][..8] != key[..8];
    }
  }

  /** If `key` starts `d + '.' + rest`, where `d` and `k` are digit strings, then `k` starts `d`. */
  lemma KeyPrefixOfLayer(d: string, k: string, rest: string, tail: string)
    requires IsDigits(d) && IsDigits(k) && |k| >= 1
    requires tail == ".layers." + d + "." + rest && |".layers." + k| <= |tail|
    requires tail[..|".layers." + k|] == ".layers." + k
    ensures |k| <= |d| && d[..|k|] == k
  {
    SeparatorAt(d, k, rest, tail);
    forall j | 0 <= j < |k| ensures d[j] == k[j] {
      assert tail[8 + j] == (".layers." + k)[8 + j];
    }
  }

  /** Past the digits of `d` comes the dot: `k` would have it at position `|d|`. */
  lemma SeparatorAt(d: string, k: string, rest: string, tail: string)
    requires tail == ".layers." + d + "." + rest && |".layers." + k| <= |tail|
    requires tail[..|".layers." + k|] == ".layers." + k
    ensures |k| > |d| ==> k[|d|] == '.'
  {
    if |k| > |d| {
      assert tail[8 + |d|] == (".layers." + k)[8 + |d|];
    }
  }

  // ---------------------------------------------------------------------
  // Renaming and first matches

  const ScaleSuffix := ".weight_scale_inv"

  /** A name ending in `.weight_scale_inv` gets `.scale` in its place. */
  function RenameScale(name: string): (r: string)
    ensures EndsWith(name, ScaleSuffix) ==> EndsWith(r, ".scale") && r[..|r| - 6] == name[..|name| - |ScaleSuffix|]
    ensures !EndsWith(name, ScaleSuffix) ==> r == name
  {
    if EndsWith(name, ScaleSuffix) then name[..|name| - |ScaleSuffix|] + ".scale" else name
  }

  /** Renaming twice renames once: a `.scale` name does not end in `.weight_scale_inv`. */
  lemma RenameScaleIdempotent(name: string)
    ensures RenameScale(RenameScale(name)) == RenameScale(name)
  {
    var r := RenameScale(name);
    if EndsWith(name, ScaleSuffix) {
      assert r[|r| - 1] == 'e';
      assert ScaleSuffix[16] == 'v';
      assert !EndsWith(r, ScaleSuffix);
    }
  }

  /**
   * The first pattern contained in `name` (the `for … if … not in name:
   * continue … break … else` loops): its index, and no earlier pattern
   * occurs; `None` when no pattern occurs.
   */
  function FirstMatch(pats: seq<string>, name: string): (r: Option<nat>)
    ensures r.Some? ==> (r.value < |pats| && Contains(name, pats[r.value]) &&
      forall j | 0 <= j < r.value :: !Contains(name, pats[j]))
    ensures r.None? ==> forall j | 0 <= j < |pats| :: !Contains(name, pats[j])
  {
    if pats == [] then None
    else if Contains(name, pats[0]) then Some(0)
    else
      match FirstMatch(pats[1..], name)
      case None => None
      case Some(j) => Some(j + 1)
  }

  function ExpertWeights(m: seq<ExpertEntry>): (r: seq<string>)
    ensures |r| == |m| && forall j | 0 <= j < |m| :: r[j] == m[j].weight
  {
    seq(|m|, j requires 0 <= j < |m| => m[j].weight)
  }

  function StackedShards(m: seq<StackedEntry>): (r: seq<string>)
    ensures |r| == |m| && forall j | 0 <= j < |m| :: r[j] == m[j].shard
  {
    seq(|m|, j requires 0 <= j < |m| => m[j].shard)
  }

  function PeModules(m: seq<PeEntry>): (r: seq<string>)
    ensures |r| == |m| && forall j | 0 <= j < |m| :: r[j] == m[j].modName
  {
    seq(|m|, j requires 0 <= j < |m| => m[j].modName)
  }

  // ---------------------------------------------------------------------
  // The decision for one checkpoint name

  /** What the loader does with one checkpoint tensor; every parameter name is looked up in `params_dict`. */
  datatype Action =
    | Skip
    | LoadPlain(param: string)                              // `load_weight(param, w)`
    | LoadShard(param: string, shard: ShardId)              // a stacked shard
    | LoadExpert(param: string, expertId: nat, expertShard: string)
    | LoadPe(param: string, headDim: nat, peOffset: nat)    // `__update_pe`, then load
    | LoadKcVc(source: string)                              // `__load_kcvc(name, w)`
    | BufferFp8(name: string)                               // `__load_kcvc_blocked_fp8(name, w)`

  /** `.kv_b_proj` renamed to `.kc` / `.vc`: the targets of `__load_kcvc`. */
  function KcName(name: string): string { ReplaceAll(name, ".kv_b_proj", ".kc") }
  function VcName(name: string): string { ReplaceAll(name, ".kv_b_proj", ".vc") }

  /** `_load_weight_attention` for a (renamed) name of a self-attention weight. */
  function AttentionAction(cfg: LoadConfig, name: string): (a: Action)
    ensures a.LoadPlain? || a.LoadPe? || a.LoadKcVc? || a.BufferFp8?
    ensures a.LoadPlain? ==> a.param == name
    ensures var pe := UpdatePeMapping(cfg);
      a.LoadPe? <==> !EndsWith(name, ".scale") && exists j | 0 <= j < |pe| :: Contains(name, pe[j].modName)
    ensures var pe := UpdatePeMapping(cfg);
      a.LoadPe? ==> exists j | 0 <= j < |pe| ::
        Contains(name, pe[j].modName) && (forall k | 0 <= k < j :: !Contains(name, pe[k].modName)) &&
        a == LoadPe(name, pe[j].headDim, pe[j].peOffset)
    ensures var pe := UpdatePeMapping(cfg);
      a.LoadKcVc? || a.BufferFp8? <==>
        Contains(name, ".kv_b_proj") && forall j | 0 <= j < |pe| :: !Contains(name, pe[j].modName)
    ensures a.LoadKcVc? ==> a.source == name && cfg.quantMethod != Some("fp8")
    ensures a.BufferFp8? ==> a.name == name && cfg.quantMethod == Some("fp8")
  {
    var pe := UpdatePeMapping(cfg);
    match FirstMatch(PeModules(pe), name)
    case Some(j) =>
      if EndsWith(name, ".scale") then LoadPlain(name) else LoadPe(name, pe[j].headDim, pe[j].peOffset)
    case None =>
      if Contains(name, ".kv_b_proj") then
        if cfg.quantMethod == Some("fp8") then BufferFp8(name) else LoadKcVc(name)
      else LoadPlain(name)
  }

  /** `_load_weight_experts`: the first expert entry whose weight name occurs rewrites the name. */
  function ExpertAction(cfg: LoadConfig, name: string): (a: Action)
    requires cfg.nRoutedExperts.Some?
    ensures a.LoadExpert? ==> a.expertId < cfg.nRoutedExperts.value
  {
    var m := ExpertMapping(cfg.nRoutedExperts.value);
    ExpertMappingLayout(cfg.nRoutedExperts.value);
    match FirstMatch(ExpertWeights(m), name)
    case Some(j) =>
      assert m[3 * (j / 3) + j % 3] == ExpertEntries(j / 3)[j % 3];
      LoadExpert(ReplaceAll(name, m[j].weight, m[j].param), m[j].expertId, m[j].shard)
    case None => LoadPlain(name)
  }

  /** The last branch of `load_weights`: the first stacked shard whose name occurs. */
  function OtherAction(cfg: LoadConfig, name: string): (a: Action)
    ensures a.LoadPlain? <==> forall j | 0 <= j < |StackedMapping(cfg)| :: !Contains(name, StackedMapping(cfg)[j].shard)
    ensures a.LoadPlain? ==> a.param == name
    ensures a.LoadShard? || a.LoadPlain?
  {
    var m := StackedMapping(cfg);
    match FirstMatch(StackedShards(m), name)
    case Some(j) => LoadShard(ReplaceAll(name, m[j].shard, m[j].param), m[j].id)
    case None => LoadPlain(name)
  }

  /**
   * The body of the `load_weights` loop for one checkpoint name: skip
   * rules first, then the `.weight_scale_inv` rename, then experts,
   * attention (with MLA) or the stacked mapping.
   */
  function Route(cfg: LoadConfig, name: string): (a: Action)
    requires cfg.nRoutedExperts.Some?
    ensures a.Skip? <==> Skipped(cfg, name)
  {
    if Skipped(cfg, name) then Skip
    else
      var n := RenameScale(name);
      if Contains(n, ".experts") then ExpertAction(cfg, n)
      else if Contains(n, ".self_attn") && cfg.useMla then AttentionAction(cfg, n)
      else OtherAction(cfg, n)
  }

  /** `t` occurs in `x + t + y`. */
  lemma ContainsInfix(x: string, t: string, y: string)
    ensures Contains(x + t + y, t)
  {
    assert (x + t + y)[|x|..|x| + |t|] == t;
    assert OccursAt(x + t + y, t, |x|);
  }

  /**
   * `__load_kcvc` targets: for a name with one `.kv_b_proj`, `kc` and `vc`
   * are the same name with `.kc` and `.vc` in its place.
   */
  lemma KcVcNames(x: string, y: string)
    requires !Contains(x, ".kv_b_proj") && !Contains(y, ".kv_b_proj")
    ensures KcName(x + ".kv_b_proj" + y) == x + ".kc" + y
    ensures VcName(x + ".kv_b_proj" + y) == x + ".vc" + y
  {
    DotLeadsOnce();
    ReplaceInfix(x, ".kv_b_proj", y, ".kc");
    ReplaceInfix(x, ".kv_b_proj", y, ".vc");
  }

  /** The first pattern wins when it occurs. */
  lemma FirstMatchFirst(pats: seq<string>, name: string)
    requires |pats| >= 1 && Contains(name, pats[0])
    ensures FirstMatch(pats, name) == Some(0)
  {
  }

  /** The second pattern wins when it occurs and the first does not. */
  lemma FirstMatchSecond(pats: seq<string>, name: string)
    requires |pats| >= 2 && !Contains(name, pats[0]) && Contains(name, pats[1])
    ensures FirstMatch(pats, name) == Some(1)
  {
    FirstMatchFirst(pats[1..], name);
  }

  /** The stacked entry that matches first decides the shard. */
  lemma OtherActionAt(cfg: LoadConfig, name: string, j: nat)
    requires j < |StackedMapping(cfg)| && FirstMatch(StackedShards(StackedMapping(cfg)), name) == Some(j)
    ensures OtherAction(cfg, name)
         == LoadShard(ReplaceAll(name, StackedMapping(cfg)[j].shard, StackedMapping(cfg)[j].param), StackedMapping(cfg)[j].id)
  {
  }

  /** The dot that starts each renamed pattern does not recur in it. */
  lemma DotLeadsOnce()
    ensures ".gate_proj"[0] !in ".gate_proj"[1..] && ".up_proj"[0] !in ".up_proj"[1..]
    ensures ".kv_b_proj"[0] !in ".kv_b_proj"[1..]
    ensures ".weight"[0] !in ".weight"[1..] && ".scale"[0] !in ".scale"[1..]
  {
  }

  /** A `.gate_proj` weight outside experts and attention is shard 0 of `.gate_up_proj`. */
  lemma GateProjShard(cfg: LoadConfig, x: string, y: string)
    requires !Contains(x, ".gate_proj") && !Contains(y, ".gate_proj")
    ensures OtherAction(cfg, x + ".gate_proj" + y) == LoadShard(x + ".gate_up_proj" + y, ShardIndex(0))
  {
    ContainsInfix(x, ".gate_proj", y);
    assert StackedShards(StackedMapping(cfg))[0] == ".gate_proj";
    FirstMatchFirst(StackedShards(StackedMapping(cfg)), x + ".gate_proj" + y);
    OtherActionAt(cfg, x + ".gate_proj" + y, 0);
    DotLeadsOnce();
    ReplaceInfix(x, ".gate_proj", y, ".gate_up_proj");
  }

  /** An `.up_proj` weight (with no `.gate_proj` in its name) is shard 1 of `.gate_up_proj`. */
  lemma UpProjShard(cfg: LoadConfig, x: string, y: string)
    requires !Contains(x + ".up_proj" + y, ".gate_proj")
    requires !Contains(x, ".up_proj") && !Contains(y, ".up_proj")
    ensures OtherAction(cfg, x + ".up_proj" + y) == LoadShard(x + ".gate_up_proj" + y, ShardIndex(1))
  {
    ContainsInfix(x, ".up_proj", y);
    assert StackedShards(StackedMapping(cfg))[1] == ".up_proj";
    FirstMatchSecond(StackedShards(StackedMapping(cfg)), x + ".up_proj" + y);
    OtherActionAt(cfg, x + ".up_proj" + y, 1);
    DotLeadsOnce();
    ReplaceInfix(x, ".up_proj", y, ".gate_up_proj");
  }

  /**
   * In an MLA model, a (renamed) self-attention weight whose name holds
   * `q_proj` is re-laid out with the query head size and offset
   * `qk_nope_head_dim`; its scale is loaded unchanged.
   */
  lemma QueryProjRoute(cfg: LoadConfig, name: string)
    requires cfg.useMla && cfg.nRoutedExperts.Some? && !Skipped(cfg, name)
    requires var n := RenameScale(name); !Contains(n, ".experts") && Contains(n, ".self_attn") && Contains(n, "q_proj")
    ensures var n := RenameScale(name);
      Route(cfg, name) == if EndsWith(n, ".scale") then LoadPlain(n)
        else LoadPe(n, cfg.qkNopeHeadDim + cfg.qkRopeHeadDim, cfg.qkNopeHeadDim)
  {
    var n := RenameScale(name);
    var pe := UpdatePeMapping(cfg);
    assert PeModules(pe)[0] == "q_proj";
    FirstMatchFirst(PeModules(pe), n);
  }

  /**
   * In an MLA model, a (renamed) self-attention `.kv_b_proj` weight that
   * names no rotary projection is split by `__load_kcvc`, or buffered for
   * its partner when the checkpoint is block-quantised fp8.
   */
  lemma KvBProjRoute(cfg: LoadConfig, name: string)
    requires cfg.useMla && cfg.nRoutedExperts.Some? && !Skipped(cfg, name)
    requires var n := RenameScale(name);
      !Contains(n, ".experts") && Contains(n, ".self_attn") && Contains(n, ".kv_b_proj") &&
      !Contains(n, "q_proj") && !Contains(n, "q_b_proj") && !Contains(n, "kv_a_proj_with_mqa")
    ensures var n := RenameScale(name);
      Route(cfg, name) == if cfg.quantMethod == Some("fp8") then BufferFp8(n) else LoadKcVc(n)
  {
    var n := RenameScale(name);
    var pe := UpdatePeMapping(cfg);
    assert PeModules(pe) == ["q_proj", "q_b_proj", "kv_a_proj_with_mqa"];
  }

  /**
   * In an MLA model, a (renamed) self-attention `q_b_proj` weight whose name
   * holds no `q_proj` is de-interleaved like the query projection, with
   * heads of `qk_nope_head_dim + qk_rope_head_dim` rows; its `.scale` is
   * loaded plain.
   */
  lemma QBProjRoute(cfg: LoadConfig, name: string)
    requires cfg.useMla && cfg.nRoutedExperts.Some? && !Skipped(cfg, name)
    requires var n := RenameScale(name);
      !Contains(n, ".experts") && Contains(n, ".self_attn") && !Contains(n, "q_proj") && Contains(n, "q_b_proj")
    ensures var n := RenameScale(name);
      Route(cfg, name) == if EndsWith(n, ".scale") then LoadPlain(n)
        else LoadPe(n, cfg.qkNopeHeadDim + cfg.qkRopeHeadDim, cfg.qkNopeHeadDim)
  {
    var n := RenameScale(name);
    var pe := UpdatePeMapping(cfg);
    assert PeModules(pe)[0] == "q_proj" && PeModules(pe)[1] == "q_b_proj";
    FirstMatchSecond(PeModules(pe), n);
  }

  /**
   * In an MLA model, a (renamed) self-attention `kv_a_proj_with_mqa` weight
   * that names no query projection keeps its `kv_lora_rank` latent rows and
   * de-interleaves the `qk_rope_head_dim` rotary rows after them; its
   * `.scale` is loaded plain.
   */
  lemma KvAProjRoute(cfg: LoadConfig, name: string)
    requires cfg.useMla && cfg.nRoutedExperts.Some? && !Skipped(cfg, name)
    requires var n := RenameScale(name);
      !Contains(n, ".experts") && Contains(n, ".self_attn") &&
      !Contains(n, "q_proj") && !Contains(n, "q_b_proj") && Contains(n, "kv_a_proj_with_mqa")
    ensures var n := RenameScale(name);
      Route(cfg, name) == if EndsWith(n, ".scale") then LoadPlain(n)
        else LoadPe(n, cfg.kvLoraRank + cfg.qkRopeHeadDim, cfg.kvLoraRank)
  {
    var n := RenameScale(name);
    var pe := UpdatePeMapping(cfg);
    assert PeModules(pe) == ["q_proj", "q_b_proj", "kv_a_proj_with_mqa"];
  }

  /**
   * In an MLA model, a (renamed) self-attention weight that names no rotary
   * projection and no `.kv_b_proj` (the output projection, the layer norms)
   * is loaded plain under its own name.
   */
  lemma AttentionPlainRoute(cfg: LoadConfig, name: string)
    requires cfg.useMla && cfg.nRoutedExperts.Some? && !Skipped(cfg, name)
    requires var n := RenameScale(name);
      !Contains(n, ".experts") && Contains(n, ".self_attn") && !Contains(n, ".kv_b_proj") &&
      !Contains(n, "q_proj") && !Contains(n, "q_b_proj") && !Contains(n, "kv_a_proj_with_mqa")
    ensures Route(cfg, name) == LoadPlain(RenameScale(name))
  {
    var pe := UpdatePeMapping(cfg);
    assert PeModules(pe) == ["q_proj", "q_b_proj", "kv_a_proj_with_mqa"];
  }

  /** A kept name whose renamed form holds `.experts` goes to `_load_weight_experts`. */
  lemma ExpertRoute(cfg: LoadConfig, name: string)
    requires cfg.nRoutedExperts.Some? && !Skipped(cfg, name) && Contains(RenameScale(name), ".experts")
    ensures Route(cfg, name) == ExpertAction(cfg, RenameScale(name))
  {
  }

  /**
   * A kept name that is neither an expert weight nor, in an MLA model, a
   * self-attention weight goes to `_load_weight_other`.
   */
  lemma OtherRoute(cfg: LoadConfig, name: string)
    requires cfg.nRoutedExperts.Some? && !Skipped(cfg, name)
    requires var n := RenameScale(name); !Contains(n, ".experts") && (!Contains(n, ".self_attn") || !cfg.useMla)
    ensures Route(cfg, name) == OtherAction(cfg, RenameScale(name))
  {
  }

  /**
   * When the first expert weight name found in `name` is entry `3 * e + s`,
   * the tensor goes to expert `e`: the gate and up projections into the
   * stacked `.experts.gate_up` parameter, the down projection into
   * `.experts.down`, tagged with the shard name.
   */
  lemma ExpertActionAt(cfg: LoadConfig, name: string, e: nat, s: nat)
    requires cfg.nRoutedExperts.Some? && e < cfg.nRoutedExperts.value && s < 3
    requires FirstMatch(ExpertWeights(ExpertMapping(cfg.nRoutedExperts.value)), name) == Some(3 * e + s)
    ensures ExpertAction(cfg, name) ==
      LoadExpert(ReplaceAll(name, ".experts." + NatToString(e) + [".gate_proj", ".up_proj", ".down_proj"][s],
                            if s < 2 then ".experts.gate_up" else ".experts.down"),
                 e, ["gate", "up", "down"][s])
  {
    var m := ExpertMapping(cfg.nRoutedExperts.value);
    ExpertMappingLayout(cfg.nRoutedExperts.value);
    var j := 3 * e + s;
    assert j / 3 == e && j % 3 == s;
    assert m[j] == ExpertEntries(e)[s];
  }
}
