# DeepSeek-V2 model definition: weight loading, expert gating and layer rules

This project is a Dafny model of the parts of lmdeploy's PyTorch DeepSeek-V2
model definition (`lmdeploy/pytorch/models/deepseek_v2.py`) that are exact
and sequential. It also proves properties of that model. The parts are:

- **Layers** (`layers.dfy`): which decoder layers get a mixture-of-experts
  (MoE) block and which get a dense MLP. It also covers how `DeepseekV2BMM`
  shares its head dimension among tensor-parallel ranks (`_update_batch`,
  `weight_loader`).
- **Gate** (`gate.dfy`): the expert selection rule of `MoEGate`:
  - the scoring-function dispatch;
  - the `greedy`, `group_limited_greedy` and `noaux_tc` top-k methods;
  - group scores and the group mask filled by `scatter_`;
  - renormalisation and `routed_scaling_factor`;
  - the fail-fast errors.

  Scores are reals. Softmax and sigmoid are function parameters.
- **Relayout** (`relayout.dfy`): the index re-layouts applied at load time,
  over an abstract element type:
  - `__update_pe` de-interleaves the rotary rows of every head, in place on an array;
  - `__load_kcvc` splits `kv_b_proj` into `kc` and transposed `vc` heads;
  - `__dequant_weight` multiplies every element by its block's scale.
- **Routing** (`routing.dfy`): what `load_weights` decides for one
  checkpoint name:
  - the skip rules, including the multi-token-prediction ("nextn") layers;
  - the `.weight_scale_inv` → `.scale` rename;
  - the stacked, rotary and per-expert mapping tables, where the first
    substring match rewrites the name;
  - the choice between expert, attention and other weights.
- **Loader** (`loader.dfy`): the loader state and the loading loop.
  - The `_load_buffers` dictionary pairs fp8 weights with their scales.
    `load_weight` becomes a record appended to a log.
  - The class `DeepseekV2ForCausalLM` updates both fields in place. Each of
    its methods is proved equal to a specification function on a
    `LoaderState` value.
  - Lemmas over those functions prove two things for names whose stem holds
    neither `.weight` nor `.scale`. The fp8 buffer never keeps both halves
    of a pair, and pairing does not depend on arrival order. Every load also
    targets a known parameter.
  - A configuration without `n_routed_experts` makes `load_weights` raise
    `TypeError` before the first tensor.
- `names.dfy`, `tensors.dfy`, `arith.dfy` and `wrappers.dfy` are the
  supporting theories:
  - Python's `in`, `endswith` and `str.replace` (every non-overlapping
    occurrence, left to right) and decimal formatting;
  - flatten, unflatten and transpose of nested sequences;
  - quotient and remainder facts;
  - `Option` and `Result`.

Python exceptions are error values: a `Result` for the pure rules, and an
`Option<LoadError>` next to the new state for the loader. The loop stops at
the first error, as the exception would stop it.

Renormalisation and scaling are not exclusive. Under `noaux_tc` with
`renormalize`, the weights are divided by `sum + 1e-20` and then multiplied
by `routed_scaling_factor`, because the scaling test is
`not renormalize or topk_method == 'noaux_tc'` (`Gate.FinishingSteps`,
`Gate.FinishBoth`).

The fp8 weight/scale pairing relies on `str.replace`, which rewrites every
`.weight` of a name and not only its suffix. For a stem that itself contains
`.weight`, the scale and the weight name different partners. Whether the pair
is released then depends on which arrives first
(`Loader.ArrivalOrderMattersForDirtyStem`).

Nothing checks `_load_buffers` once the stream ends. A half whose partner
never arrives stays in `_load_buffers`, and nothing reports it:
`load_weights` returns normally (`Loader.LoneHalfLeftOver`,
`Loader.LoneHalfAlone`).

The model also shows that `group_limited_greedy` masks dropped groups with
`0.0` before the softmax. A dropped group's expert can therefore be chosen
over a negative logit of a kept group (`Gate.GroupLimitedChoosesDroppedGroup`).

## Model

| member | source | states |
|---|---|---|
| Layers.MlpKind | lmdeploy/pytorch/models/deepseek_v2.py:475-477 | The layer rule fails only for a zero `moe_layer_freq`, and the first `first_k_dense_replace` layers are dense; the full rule is `Layers.MlpKindRule` |
| Layers.MlpKindRule | lmdeploy/pytorch/models/deepseek_v2.py:475-477 | A layer gets the MoE block iff routed experts are configured, `layer_idx >= first_k_dense_replace` and `moe_layer_freq` divides `layer_idx` (Python's `%` test, negative values included); the build fails with `ZeroDivisionError` exactly when the first two hold and the frequency is 0 |
| Layers.PlanUpTo | lmdeploy/pytorch/models/deepseek_v2.py:533-536 | The layer list has one entry per layer index, each the block the layer rule gives that index; building it fails iff the rule fails for some index |
| Layers.DenseLayers | lmdeploy/pytorch/models/deepseek_v2.py:475-477 | Layers before `first_k_dense_replace`, and all layers of a model without routed experts, are dense |
| Layers.EveryLaterLayerIsMoE | lmdeploy/pytorch/models/deepseek_v2.py:475-477 | With frequency 1 every layer from `first_k_dense_replace` on is MoE and the build succeeds |
| Layers.PerRankBatch | lmdeploy/pytorch/models/deepseek_v2.py:46-50 | Each rank's head count `b` is floor division: `b * world_size <= batch < (b + 1) * world_size` |
| Layers.Chunk | lmdeploy/pytorch/models/deepseek_v2.py:59 | A chunk of `tensor.chunk(world_size, 0)` has at most `ceil(n / world_size)` rows; which chunks exist and what they hold is `Layers.ChunkRows` |
| Layers.ChunkRows | lmdeploy/pytorch/models/deepseek_v2.py:59 | With `size = ceil(n / world_size)`, chunk `idx` of a non-empty tensor exists iff `idx * size < n`, and it is rows `idx * size .. min(n, (idx + 1) * size)`; an empty tensor has exactly `world_size` chunks, all empty |
| Layers.WeightLoader | lmdeploy/pytorch/models/deepseek_v2.py:56-60 | A rank with no chunk raises `IndexError`; `copy_` succeeds iff the chunk has the parameter's row count or one row (broadcast), and the parameter then holds the chunk's rows (or that one row repeated) |
| Layers.WeightLoaderEven | lmdeploy/pytorch/models/deepseek_v2.py:46-60 | When the world size divides the head count, rank `r` loads exactly heads `r * b .. (r + 1) * b`, with `b` the size `_update_batch` gives its parameter |
| Layers.RowOwner | lmdeploy/pytorch/models/deepseek_v2.py:46-60 | In that case every head `i` is loaded by exactly rank `i / b`, at position `i % b` |
| Gate.FinishingSteps | lmdeploy/pytorch/models/deepseek_v2.py:329-336 | With `renormalize` being `top_k > 1 and norm_topk_prob`, at least one of renormalisation and scaling applies; both apply iff `top_k > 1`, `norm_topk_prob` and the method is `noaux_tc` |
| Gate.ComputeScores | lmdeploy/pytorch/models/deepseek_v2.py:283-292 | `softmax` and `sigmoid` select the matching scores; any other scoring function, and only such, raises `NotImplementedError` naming it |
| Gate.TopK | lmdeploy/pytorch/models/deepseek_v2.py:305 | The selection returns `k` distinct in-range positions, none valued below a position left out (`torch.topk` with `sorted=False`) |
| Gate.GroupMax | lmdeploy/pytorch/models/deepseek_v2.py:302-303 | The `group_limited_greedy` score of each group is an element of the group no smaller than any other |
| Gate.TopTwoSumOfTopK | lmdeploy/pytorch/models/deepseek_v2.py:315-316 | The two entries `topk(2)` picks have the largest sum of any two distinct entries |
| Gate.GroupTopTwoSums | lmdeploy/pytorch/models/deepseek_v2.py:314-316 | The `noaux_tc` score of each group is the largest sum of two of its entries |
| Gate.ScatterGroupMask | lmdeploy/pytorch/models/deepseek_v2.py:306-307 | The fresh mask has one flag per group, set iff the group is among the selected group indices |
| Gate.KeptGroupCount | lmdeploy/pytorch/models/deepseek_v2.py:305-307 | Distinct selected groups keep exactly `topk_group` groups |
| Gate.MaskGroupsElements | lmdeploy/pytorch/models/deepseek_v2.py:320-323 | Masking keeps the length; an expert in a kept group (groups are contiguous runs of `n_routed_experts // n_group`) keeps its value, every other becomes exactly `0.0` |
| Gate.GroupSize | lmdeploy/pytorch/models/deepseek_v2.py:320-322 | The group size is positive, divides the expert count and gives `n_group` groups |
| Gate.Finish | lmdeploy/pytorch/models/deepseek_v2.py:329-336 | Keeps one weight per chosen expert; what it does in each configuration is `Gate.FinishScalesOnly`, `Gate.FinishRenormalizesOnly` and `Gate.FinishBoth` |
| Gate.Renormalized | lmdeploy/pytorch/models/deepseek_v2.py:329-331 | For non-negative weights the denominator `sum + 1e-20` is positive, and every renormalised weight and their total lie in `[0, 1)` |
| Gate.RenormalizedTotal | lmdeploy/pytorch/models/deepseek_v2.py:329-331 | The renormalised total times the denominator `sum + 1e-20` is the old total, and the denominator is positive |
| Gate.FinishScalesOnly | lmdeploy/pytorch/models/deepseek_v2.py:335-336 | Without renormalisation each weight, and the total, is multiplied by `routed_scaling_factor` |
| Gate.FinishRenormalizesOnly | lmdeploy/pytorch/models/deepseek_v2.py:329-336 | With renormalisation and another method than `noaux_tc`, the weights are only divided by `sum + 1e-20` |
| Gate.FinishBoth | lmdeploy/pytorch/models/deepseek_v2.py:329-336 | With renormalisation under `noaux_tc`, the weights are divided by `sum + 1e-20` and then scaled |
| Gate.SoftmaxTopK | lmdeploy/pytorch/models/deepseek_v2.py:300 | `greedy`: the experts are a top-k of the softmax of the logits and the weights are those probabilities, non-negative |
| Gate.GroupLimitedGreedy | lmdeploy/pytorch/models/deepseek_v2.py:301-311 | The kept groups are a top-`topk_group` of the group maxima of the logits; the experts are a top-k of the softmax of the masked logits, weighted by those probabilities |
| Gate.NoauxTc | lmdeploy/pytorch/models/deepseek_v2.py:312-325 | Group scores are top-two sums of the bias-corrected scores; kept groups are a top-`topk_group` of them; the experts are a top-k of the masked corrected scores; the weights are the uncorrected scores at those experts |
| Gate.Forward | lmdeploy/pytorch/models/deepseek_v2.py:294-337 | Fails iff the method is unknown (`RuntimeError`) or, under `noaux_tc`, the scoring function is (`NotImplementedError`); otherwise returns `top_k` distinct experts below `n_routed_experts`, chosen as each method prescribes, with the finished weights of their scores |
| Gate.ChosenInKeptGroups | lmdeploy/pytorch/models/deepseek_v2.py:320-324 | When the kept groups hold at least `k` positive entries, every chosen expert lies in a kept group and has a positive value |
| Gate.NonPositiveChoice | lmdeploy/pytorch/models/deepseek_v2.py:320-324 | Conversely, a chosen masked value `<= 0` means the kept groups hold fewer than `k` positive entries |
| Gate.GroupLimitedChoosesDroppedGroup | lmdeploy/pytorch/models/deepseek_v2.py:301-311 | For logits `[-1, -2, 5, -3]`, two groups, one kept and two experts chosen, only group 1 is kept, yet an expert of the dropped group 0 is chosen |
| Routing.StackedMapping | lmdeploy/pytorch/models/deepseek_v2.py:793-819 | The stacked table starts with `.gate_proj` → `.gate_up_proj` shard 0 and `.up_proj` shard 1; without MLA it also has the three `qkv_proj` entries |
| Routing.UpdatePeMapping | lmdeploy/pytorch/models/deepseek_v2.py:803-811 | With MLA there are three rotary entries, in order `q_proj` and `q_b_proj` (offset `qk_nope_head_dim`) and `kv_a_proj_with_mqa` (offset `kv_lora_rank`), each with a rotary tail of `qk_rope_head_dim` rows per head; without MLA none |
| Routing.ExpertMapping | lmdeploy/pytorch/models/deepseek_v2.py:821-827 | The table has `3n` entries and entry `j` belongs to expert `j / 3` |
| Routing.ExpertMappingLayout | lmdeploy/pytorch/models/deepseek_v2.py:821-827 | The expert table has 3 entries per expert: entry `3e + s` is shard `s` (gate, up, down) of expert `e` |
| Routing.BuildExpertMapping | lmdeploy/pytorch/models/deepseek_v2.py:821-827 | The `+=` loop builds exactly that table |
| Routing.NextnKeys | lmdeploy/pytorch/models/deepseek_v2.py:829-832 | There is one nextn key per multi-token-prediction layer |
| Routing.SkipNextn | lmdeploy/pytorch/models/deepseek_v2.py:787-791 | `__skip_nextn` as a predicate: some key occurs in the name; its meaning for layer names is `Routing.NextnLayerSkipped` and `Routing.RegularLayerNotNextn` |
| Routing.Skipped | lmdeploy/pytorch/models/deepseek_v2.py:836-845 | The four skip tests as a predicate; `Routing.Route` drops exactly the names it accepts, and `Routing.NextnLayerSkipped` shows it covers every nextn layer |
| Routing.NextnLayerSkipped | lmdeploy/pytorch/models/deepseek_v2.py:829-843 | Every weight of layer `num_hidden_layers + i`, `i < num_nextn_predict_layers`, is skipped |
| Routing.RegularLayerNotNextn | lmdeploy/pytorch/models/deepseek_v2.py:829-832 | A weight of a regular layer `l < num_hidden_layers` matches no nextn key, although the keys are substring tests (`.layers.1` occurs in `.layers.10`) |
| Routing.RenameScale | lmdeploy/pytorch/models/deepseek_v2.py:846-847 | A name ending in `.weight_scale_inv` becomes its stem plus `.scale`; any other name is unchanged |
| Routing.RenameScaleIdempotent | lmdeploy/pytorch/models/deepseek_v2.py:846-847 | Renaming twice is renaming once |
| Routing.FirstMatch | lmdeploy/pytorch/models/deepseek_v2.py:855-857 | The `for … continue … break` scan finds the first pattern that occurs in the name, or reports that none does |
| Routing.ExpertAction | lmdeploy/pytorch/models/deepseek_v2.py:677-689 | An expert load always names an existing expert id |
| Routing.ExpertActionAt | lmdeploy/pytorch/models/deepseek_v2.py:680-686 | When entry `3e + s` is the first match, the name's `.experts.{e}.<proj>` becomes `.experts.gate_up` (gate, up) or `.experts.down` and is loaded for expert `e` with the shard name |
| Routing.AttentionAction | lmdeploy/pytorch/models/deepseek_v2.py:756-782 | A weight naming some rotary module is de-interleaved iff it is not a `.scale`, with the head size and offset of the first module in the table that occurs in its name; a `.scale` of such a module is loaded plain. A name with no rotary module is split by `__load_kcvc`, or buffered when `quant_method` is fp8, iff it holds `.kv_b_proj`; every other name is loaded plain under its own name |
| Routing.OtherAction | lmdeploy/pytorch/models/deepseek_v2.py:855-864 | A name is loaded plain under its own name iff it contains no stacked shard name; otherwise it is a stacked shard load |
| Routing.Route | lmdeploy/pytorch/models/deepseek_v2.py:835-864 | A name is dropped iff one of the skip rules matches it |
| Routing.QueryProjRoute | lmdeploy/pytorch/models/deepseek_v2.py:756-765 | With MLA, an attention `q_proj` weight is de-interleaved with the query head size and offset `qk_nope_head_dim`; its scale is loaded unchanged |
| Routing.KvBProjRoute | lmdeploy/pytorch/models/deepseek_v2.py:767-778 | With MLA, an attention `.kv_b_proj` tensor is split into `kc`/`vc` or, for an fp8 checkpoint, buffered for its partner |
| Routing.QBProjRoute | lmdeploy/pytorch/models/deepseek_v2.py:756-765 | With MLA, an attention `q_b_proj` weight (no `q_proj` in its name) is de-interleaved with the query head size and offset `qk_nope_head_dim`; its scale is loaded unchanged |
| Routing.KvAProjRoute | lmdeploy/pytorch/models/deepseek_v2.py:756-765 | With MLA, an attention `kv_a_proj_with_mqa` weight (no query projection in its name) is de-interleaved with head size `kv_lora_rank + qk_rope_head_dim` and offset `kv_lora_rank`; its scale is loaded unchanged |
| Routing.AttentionPlainRoute | lmdeploy/pytorch/models/deepseek_v2.py:766-782 | With MLA, an attention weight naming no rotary module and no `.kv_b_proj` is loaded unchanged under its own name |
| Routing.ExpertRoute | lmdeploy/pytorch/models/deepseek_v2.py:848-849 | A kept name whose renamed form holds `.experts` goes to the expert loader |
| Routing.OtherRoute | lmdeploy/pytorch/models/deepseek_v2.py:850-864 | A kept non-expert name that is not an MLA attention weight goes through the stacked-shard table or is loaded plain |
| Routing.KcVcNames | lmdeploy/pytorch/models/deepseek_v2.py:717-720 | `x.kv_b_proj y` loads into `x.kc y` and `x.vc y` |
| Routing.GateProjShard | lmdeploy/pytorch/models/deepseek_v2.py:855-861 | A dense `.gate_proj` weight is shard 0 of `.gate_up_proj` |
| Routing.UpProjShard | lmdeploy/pytorch/models/deepseek_v2.py:855-861 | A dense `.up_proj` weight is shard 1 of `.gate_up_proj` |
| Relayout.DeinterleaveHeadRows | lmdeploy/pytorch/models/deepseek_v2.py:696-707 | In a head, rows before `pe_dim_offset` stay; tail row `off + j` is old row `off + 2j` and row `off + half + j` is old row `off + 2j + 1` |
| Relayout.InterleaveDeinterleaveHead | lmdeploy/pytorch/models/deepseek_v2.py:699-704 | Re-interleaving undoes the de-interleave of a head |
| Relayout.DeinterleaveInterleaveHead | lmdeploy/pytorch/models/deepseek_v2.py:699-704 | De-interleaving undoes the re-interleave of a head |
| Relayout.DeinterleaveHeadPermutes | lmdeploy/pytorch/models/deepseek_v2.py:699-704 | A head's rows are permuted, none lost or duplicated |
| Relayout.DeinterleavePe | lmdeploy/pytorch/models/deepseek_v2.py:696-707 | `__update_pe` as a function on the rows; what it does to each head is `Relayout.DeinterleavePeHeads`, and `Relayout.InterleaveAfterDeinterleave` inverts it |
| Relayout.DeinterleavePeHeads | lmdeploy/pytorch/models/deepseek_v2.py:696-707 | The whole weight keeps its length and each block of `head_dim` rows is that head de-interleaved |
| Relayout.InterleaveAfterDeinterleave | lmdeploy/pytorch/models/deepseek_v2.py:696-707 | The re-layout of the whole weight has an inverse |
| Relayout.DeinterleaveAfterInterleave | lmdeploy/pytorch/models/deepseek_v2.py:696-707 | De-interleaving undoes the re-interleave, so the re-layout is a bijection |
| Relayout.DeinterleavePePermutes | lmdeploy/pytorch/models/deepseek_v2.py:696-707 | The whole weight's rows are permuted |
| Relayout.UpdatePe | lmdeploy/pytorch/models/deepseek_v2.py:696-707 | The in-place update leaves the array holding the de-interleaved weight |
| Relayout.DeinterleaveHeadAt | lmdeploy/pytorch/models/deepseek_v2.py:700-705 | The slice assignment for one head de-interleaves that head and leaves every other row alone |
| Relayout.SplitKcVc | lmdeploy/pytorch/models/deepseek_v2.py:709-716 | `kv_b_proj` gives `rows / (nope + v)` heads, each a `nope × cols` `kc` and a `cols × v` `vc` |
| Relayout.SplitKcVcHeads | lmdeploy/pytorch/models/deepseek_v2.py:714-716 | Head `h`'s `kc` is rows `h(nope+v) .. h(nope+v)+nope`; its `vc` is the next `v` rows, transposed |
| Relayout.JoinAfterSplit | lmdeploy/pytorch/models/deepseek_v2.py:714-716 | The split loses nothing: re-joining the heads gives back `kv_b_proj` |
| Relayout.SplitAfterJoin | lmdeploy/pytorch/models/deepseek_v2.py:714-716 | Every pair of `kc`/`vc` head lists arises from exactly one `kv_b_proj` |
| Relayout.ScaleRow | lmdeploy/pytorch/models/deepseek_v2.py:732-734 | Element `j` of a row is multiplied by scale `j / group1` |
| Relayout.ScaleRowElements | lmdeploy/pytorch/models/deepseek_v2.py:732-735 | The 4-D view `(…, group1)`, broadcast against the scale and flattened back, scales each element by its block's scale |
| Relayout.DequantRows | lmdeploy/pytorch/models/deepseek_v2.py:732-735 | Row `i` is scaled by scale row `i / group0` |
| Relayout.DequantWeight | lmdeploy/pytorch/models/deepseek_v2.py:724-737 | Fails iff a scale dimension is 0 (`ZeroDivisionError`) or does not divide the weight's (`AssertionError`); otherwise keeps the shape and scales element `(i, j)` by `scale[i / group0][j / group1]` |
| Loader.Commit | lmdeploy/pytorch/models/deepseek_v2.py:763-765 | `load_weight(params_dict[p], …)` appends one record iff `p` is a parameter, and raises `KeyError` otherwise; buffers are untouched |
| Loader.KcVcStep | lmdeploy/pytorch/models/deepseek_v2.py:709-722 | `__load_kcvc` succeeds iff the rows split into heads and both `.kc` and `.vc` parameters exist; it then appends the `kc` heads, then the `vc` heads |
| Loader.Release | lmdeploy/pytorch/models/deepseek_v2.py:748-754 | Firing removes both halves of the pair from the buffer, whatever happens next |
| Loader.BlockedStep | lmdeploy/pytorch/models/deepseek_v2.py:739-754 | The tensor is stored under its name; unless both halves are then present nothing is loaded (a name with neither suffix raises `UnboundLocalError`); when both are, both are removed |
| Loader.PairNames | lmdeploy/pytorch/models/deepseek_v2.py:741-746 | The pair is defined iff the name ends in `.weight` or `.scale`, and the name is one of its two halves |
| Loader.PairNamesSuffixes | lmdeploy/pytorch/models/deepseek_v2.py:741-746 | The pair is always a `.weight` name and a `.scale` name |
| Loader.ScaleNamesItsWeight | lmdeploy/pytorch/models/deepseek_v2.py:744-746 | The partner of `x.scale` is `x` with every `.scale` replaced by `.weight`, plus `.weight` |
| Loader.WeightNamesItsScale | lmdeploy/pytorch/models/deepseek_v2.py:741-743 | The partner of `x.weight` is `x` with every `.weight` replaced by `.scale`, plus `.scale` |
| Loader.BlockedStepKeepsNoCompletePair | lmdeploy/pytorch/models/deepseek_v2.py:747-750 | For every stem `x` containing neither `.weight` nor `.scale`, after any call the buffer never holds both `x.weight` and `x.scale` |
| Loader.FirstHalfBuffered | lmdeploy/pytorch/models/deepseek_v2.py:747-748 | The first half of a pair to arrive is only stored |
| Loader.SecondHalfReleases | lmdeploy/pytorch/models/deepseek_v2.py:748-754 | The second half fires the dequantise-and-split |
| Loader.PairingIgnoresArrivalOrder | lmdeploy/pytorch/models/deepseek_v2.py:740-754 | For two names that name each other as partners (`IsPair`, true of every clean stem by `Loader.StemPair`), weight then scale and scale then weight have the same effect |
| Loader.ArrivalOrderMattersForDirtyStem | lmdeploy/pytorch/models/deepseek_v2.py:741-750 | For a stem `p.weight q`, starting from an empty buffer, scale then weight leaves both buffered, while weight then scale releases both |
| Loader.OneSidedPair | lmdeploy/pytorch/models/deepseek_v2.py:747-750 | When the scale names the weight as its partner but the weight names another scale, arrival order decides whether the two are released |
| Loader.PairLeavesNoTrace | lmdeploy/pytorch/models/deepseek_v2.py:747-750 | A complete pair leaves the buffer as it found it |
| Loader.OnlyHalvesPairWithStem | lmdeploy/pytorch/models/deepseek_v2.py:741-748 | For a clean stem, no name other than its own weight and scale has either of them as a partner, so no other tensor can release them |
| Loader.LoneHalfArrives | lmdeploy/pytorch/models/deepseek_v2.py:747-748 | A half arriving while its partner is not buffered is stored under its name, with the rest of the state unchanged and no error |
| Loader.LoneHalfStep | lmdeploy/pytorch/models/deepseek_v2.py:741-750 | A tensor that is not the partner never buffers the partner and never releases a buffered half |
| Loader.PartnerNeverBuffered | lmdeploy/pytorch/models/deepseek_v2.py:834-864 | Over a stream that never routes the partner to the buffer, the partner is never buffered |
| Loader.LoneHalfStaysBuffered | lmdeploy/pytorch/models/deepseek_v2.py:834-864 | A half buffered after some prefix of such a stream is still buffered when `load_weights` ends |
| Loader.LoneHalfLeftOver | lmdeploy/pytorch/models/deepseek_v2.py:834-864 | A half that arrives with no exception before it is stored with no error, and it is still buffered, with its partner absent, when the stream ends |
| Loader.LoneHalfAlone | lmdeploy/pytorch/models/deepseek_v2.py:834-864 | A stream of one lone half returns no error and leaves exactly that half added to the buffer |
| Loader.Step | lmdeploy/pytorch/models/deepseek_v2.py:835-864 | One tensor only appends loads of known parameters; a skipped name changes nothing and raises nothing; only a name routed to the fp8 buffer changes the buffer |
| Loader.Apply | lmdeploy/pytorch/models/deepseek_v2.py:756-782 | Loading only appends records, each for a known parameter; only the fp8 path changes the buffer |
| Loader.Run | lmdeploy/pytorch/models/deepseek_v2.py:834-864 | Running the stream keeps the buffer well-formed |
| Loader.LoadAll | lmdeploy/pytorch/models/deepseek_v2.py:821-864 | Without `n_routed_experts`, `load_weights` raises `TypeError` before touching any tensor or buffer; in every case the buffer stays well-formed and only known parameters are loaded |
| Loader.RunLoadsKnown | lmdeploy/pytorch/models/deepseek_v2.py:835-864 | The loop itself never raises `TypeError`, and every load it makes is to a known parameter |
| Loader.RunExtend | lmdeploy/pytorch/models/deepseek_v2.py:834-864 | After an error-free prefix, one more tensor is one more step |
| Loader.RunStopsAtError | lmdeploy/pytorch/models/deepseek_v2.py:834-864 | Nothing after the first exception has any effect |
| Loader.ApplyConsistent | lmdeploy/pytorch/models/deepseek_v2.py:677-782 | Each tensor keeps the loader consistent: the log only grows, every record names a parameter, and no complete fp8 pair is left buffered |
| Loader.RunConsistent | lmdeploy/pytorch/models/deepseek_v2.py:784-864 | The whole stream keeps the loader consistent |
| Loader.DeepseekV2ForCausalLM.constructor | lmdeploy/pytorch/models/deepseek_v2.py:630 | A new model starts with empty `_load_buffers` and nothing loaded |
| Loader.DeepseekV2ForCausalLM.LoadWeight | lmdeploy/pytorch/models/deepseek_v2.py:763-765 | The method's new state and error are those of `Commit` |
| Loader.DeepseekV2ForCausalLM.LoadKcVc | lmdeploy/pytorch/models/deepseek_v2.py:709-722 | The method's new state and error are those of `KcVcStep` |
| Loader.DeepseekV2ForCausalLM.LoadKcVcBlockedFp8 | lmdeploy/pytorch/models/deepseek_v2.py:739-754 | The dictionary insert and pops are those of `BlockedStep` |
| Loader.DeepseekV2ForCausalLM.Dispatch | lmdeploy/pytorch/models/deepseek_v2.py:677-782 | Carrying out a routed action, with the rotary re-layout done in place on an array, is `Apply` |
| Loader.DeepseekV2ForCausalLM.LoadOne | lmdeploy/pytorch/models/deepseek_v2.py:835-864 | One loop iteration is `Step`, and the object stays valid |
| Loader.DeepseekV2ForCausalLM.LoadWeights | lmdeploy/pytorch/models/deepseek_v2.py:784-864 | The method is `LoadAll`: the `TypeError` of a missing expert count, else the loop over the stream, which stops at the first exception |

## Left out

- Forward passes. The attention, MLP, MoE, model and decoder-layer forward
  passes are tensor arithmetic in kernels that are not part of this model
  (`Attention`, `build_fused_moe`, `RMSNorm`, `ApplyRotaryEmb`,
  `SiluAndMul`, the linear builders).
- Floating-point numerics.
  - Scores are exact reals.
  - Softmax and sigmoid are parameters. Only their output length and
    non-negativity are assumed, plus order preservation in one example.
  - `1e-20` is the exact real `10^-20`.
  - `yarn_get_mscale`, `softmax_scale` and every dtype cast are left out.
    In particular, the fp8-to-float conversion in `__dequant_weight` is
    replaced by an abstract element product.
- Gate.SoftmaxTopK: the foreign `SoftmaxTopK` class is modelled as softmax
  followed by any valid top-k. Its internal numerics and tie order are not
  modelled.
- Gate.TopK: `torch.topk` with `sorted=False` fixes neither the order nor the
  choice among equal values. Every gate contract holds for any valid top-k.
  The model's selection loop is one such choice, not torch's.
- Gate.Forward: it models one token. It requires the configuration's shape
  conditions, where the code would fail inside a tensor operation:
  - the experts split into `n_group` equal groups;
  - each group holds at least two experts for `noaux_tc`;
  - `topk_group <= n_group` and `top_k <= n_routed_experts`.
- `load_weight`, `get_world_rank` and `dist.all_reduce` are foreign.
  - `load_weight` is a record of the parameter name, the data and the
    shard or expert id. Its own copy and shape checks are not modelled.
  - The world size and rank are parameters.
- Device placement and runtime plumbing are left out:
  - `.to(device)` and `.contiguous()`;
  - the `StopIteration` of `next(iter(params_dict.values()))` on an empty
    parameter dictionary;
  - `CudaGraphMixin`;
  - the rotary-embedding builders.
- Non-MLA attention. `LlamaAttention` is not part of this model. Only its
  three extra `qkv_proj` table entries are.
- Loader.Apply: a tensor whose row count does not fit a view (`unflatten`
  by the head size) is a `ShapeError`. That includes a zero head size. The
  exact torch exception types are not distinguished.
- Routing.RegularLayerNotNextn: proved for names `p.layers.<l>.<rest>` where
  `p` has no dot and `<rest>` contains no further `.layers.`. Those are the
  names a checkpoint uses. Arbitrary names are not covered.
- Loader.BlockedStepKeepsNoCompletePair, Loader.PairingIgnoresArrivalOrder:
  proved only for pairs that name each other, which every stem without
  `.weight` or `.scale` gives. For other stems the halves name different
  partners and the order of arrival matters
  (`Loader.ArrivalOrderMattersForDirtyStem`).
- Routing.ExpertAction: its own contract only bounds the expert id. The
  rewrite itself is stated by `Routing.ExpertActionAt` for the matching
  entry.
