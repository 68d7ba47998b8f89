/**
 * The weight-loading loop of `DeepseekV2ForCausalLM`: every checkpoint
 * tensor is routed by its name (module `Routing`) and then committed to a
 * parameter, after the re-layouts of module `Relayout` where the route asks
 * for them. Block-quantised `kv_b_proj` weights arrive as a weight and a scale
 * in either order; the model keeps the first in `_load_buffers` until its
 * partner arrives. The foreign `load_weight` is modelled as appending a
 * record of what it was given; `params_dict` is the set of parameter names.
 */
module Loader {
  import opened Wrappers
  import opened Names
  import opened Tensors
  import opened Relayout
  import opened Routing

  /** A 2-D checkpoint tensor: its shape and its rows. */
  datatype Matrix<T> = Matrix(rows: nat, cols: nat, data: seq<seq<T>>)

  predicate WellShaped<T>(m: Matrix<T>) {
    IsMatrix(m.data, m.rows, m.cols)
  }

  /** What `load_weight` was given: a matrix, or per-head blocks (`kc`, `vc`). */
  datatype Payload<T> = Rows(m: seq<seq<T>>) | Heads(h: seq<seq<seq<T>>>)

  /** The keyword arguments of `load_weight`. */
  datatype Extra = NoShard | Shard(id: ShardId) | Expert(expertId: nat, shard: string)

  /** One call of `load_weight(params_dict[param], data, **extra)`. */
  datatype LoadRecord<T> = LoadRecord(param: string, data: Payload<T>, extra: Extra)

  /** The exceptions that end `load_weights`. */
  datatype LoadError =
    | KeyError(key: string)        // `params_dict[...]` or `_load_buffers.pop(...)` of a missing name
    | ShapeError                   // a view (`unflatten`) the tensor's shape does not allow
    | UnboundLocalError            // `__load_kcvc_blocked_fp8` on a name with neither suffix
    | Dequant(error: DequantError) // `__dequant_weight`'s assertions
    | TypeError                    // `range(num_experts)` when `n_routed_experts` is `None`

  /** What does not change while loading: the configuration, the parameter names, the element product of dequantisation. */
  datatype Env<!T> = Env(cfg: LoadConfig, params: set<string>, mul: (T, T) -> T)

  /** `_load_buffers` and the `load_weight` calls made so far. */
  datatype LoaderState<T> = LoaderState(buffers: map<string, Matrix<T>>, loaded: seq<LoadRecord<T>>)

  predicate BuffersWellShaped<T>(buffers: map<string, Matrix<T>>) {
    forall k | k in buffers :: WellShaped(buffers[k])
  }

  // ---------------------------------------------------------------------
  // One checkpoint tensor

  /** `st2` extends the calls of `st1`, and each new call is to a parameter that exists. */
  ghost predicate LoadsKnown<T>(env: Env<T>, st1: LoaderState<T>, st2: LoaderState<T>) {
    st1.loaded <= st2.loaded &&
    forall i | |st1.loaded| <= i < |st2.loaded| :: st2.loaded[i].param in env.params
  }

  /** `load_weight(params_dict[param], …)`: a `KeyError` when there is no such parameter. */
  function Commit<T>(env: Env<T>, st: LoaderState<T>, param: string, data: Payload<T>, extra: Extra)
    : (r: (LoaderState<T>, Option<LoadError>))
    ensures r.0.buffers == st.buffers
    ensures r.1.None? <==> param in env.params
    ensures r.1.None? ==> r.0.loaded == st.loaded + [LoadRecord(param, data, extra)]
    ensures r.1.Some? ==> r.0 == st && r.1 == Some(KeyError(param))
    ensures LoadsKnown(env, st, r.0)
  {
    if param in env.params then (LoaderState(st.buffers, st.loaded + [LoadRecord(param, data, extra)]), None)
    else (st, Some(KeyError(param)))
  }

  /**
   * `__load_kcvc(name, w)`: split into `kc` and `vc` heads, then load `kc`
   * under the `.kc` name and `vc` under the `.vc` name, in that order.
   */
  function KcVcStep<T>(env: Env<T>, st: LoaderState<T>, name: string, w: Matrix<T>)
    : (r: (LoaderState<T>, Option<LoadError>))
    requires WellShaped(w)
    ensures r.0.buffers == st.buffers && LoadsKnown(env, st, r.0)
    ensures r.1.None? <==>
      KvShape(w.rows, env.cfg.qkNopeHeadDim, env.cfg.vHeadDim) && KcName(name) in env.params && VcName(name) in env.params
    ensures r.1.None? ==>
      var (kc, vc) := SplitKcVc(w.data, w.cols, env.cfg.qkNopeHeadDim, env.cfg.vHeadDim);
      r.0.loaded == st.loaded + [LoadRecord(KcName(name), Heads(kc), NoShard), LoadRecord(VcName(name), Heads(vc), NoShard)]
  {
    var nope, v := env.cfg.qkNopeHeadDim, env.cfg.vHeadDim;
    if !KvShape(w.rows, nope, v) then (st, Some(ShapeError))
    else
      var (kc, vc) := SplitKcVc(w.data, w.cols, nope, v);
      var (st1, e1) := Commit(env, st, KcName(name), Heads(kc), NoShard);
      if e1.Some? then (st1, e1)
      else Commit(env, st1, VcName(name), Heads(vc), NoShard)
  }

  /**
   * The partner names of `__load_kcvc_blocked_fp8`: `(weight_name,
   * scale_name)`; `None` when the name ends in neither `.weight` nor
   * `.scale` (the two locals are then unbound).
   */
  function PairNames(name: string): (r: Option<(string, string)>)
    ensures r.Some? <==> EndsWith(name, ".weight") || EndsWith(name, ".scale")
    ensures r.Some? ==> r.value.0 == name || r.value.1 == name
  {
    if EndsWith(name, ".weight") then Some((name, ReplaceAll(name, ".weight", ".scale")))
    else if EndsWith(name, ".scale") then Some((ReplaceAll(name, ".scale", ".weight"), name))
    else None
  }

  /** A pair is always a `.weight` name and a `.scale` name. */
  lemma PairNamesSuffixes(name: string)
    requires PairNames(name).Some?
    ensures EndsWith(PairNames(name).value.0, ".weight") && EndsWith(PairNames(name).value.1, ".scale")
  {
    if EndsWith(name, ".weight") {
      var x := name[..|name| - 7];
      assert name == x + ".weight";
      WeightNamesItsScale(x);
      EndsWithAppend(ReplaceAll(x, ".weight", ".scale"), ".scale");
    } else {
      var x := name[..|name| - 6];
      assert name == x + ".scale";
      ScaleNamesItsWeight(x);
      EndsWithAppend(ReplaceAll(x, ".scale", ".weight"), ".weight");
    }
  }

  /** The split fires: after storing the tensor, both names of its pair are buffered. */
  predicate Fires<T>(buffers: map<string, Matrix<T>>, name: string) {
    PairNames(name).Some? && PairNames(name).value.0 in buffers && PairNames(name).value.1 in buffers
  }

  /**
   * The second half of `__load_kcvc_blocked_fp8`, once both halves are
   * buffered: pop the weight, pop the scale, look up the `kc` parameter,
   * dequantise the weight by the scale and split it as `__load_kcvc` does.
   */
  function Release<T>(env: Env<T>, st: LoaderState<T>, wn: string, sn: string)
    : (r: (LoaderState<T>, Option<LoadError>))
    requires BuffersWellShaped(st.buffers) && wn in st.buffers
    ensures r.0.buffers == st.buffers - {wn, sn} && LoadsKnown(env, st, r.0)
  {
    var weight := st.buffers[wn];
    var buf := st.buffers - {wn};
    if sn !in buf then (LoaderState(buf, st.loaded), Some(KeyError(sn)))
    else
      var scale := buf[sn];
      var st1 := LoaderState(buf - {sn}, st.loaded);
      if KcName(wn) !in env.params then (st1, Some(KeyError(KcName(wn))))
      else
        match DequantWeight(weight.data, weight.rows, weight.cols, scale.data, scale.rows, scale.cols, env.mul)
        case Err(e) => (st1, Some(Dequant(e)))
        case Ok(d) => KcVcStep(env, st1, wn, Matrix(weight.rows, weight.cols, d))
  }

  /**
   * `__load_kcvc_blocked_fp8(name, w)`: store the tensor under its name; if
   * both halves of its pair are now buffered, release them.
   */
  function BlockedStep<T>(env: Env<T>, st: LoaderState<T>, name: string, w: Matrix<T>)
    : (r: (LoaderState<T>, Option<LoadError>))
    requires WellShaped(w) && BuffersWellShaped(st.buffers)
    ensures LoadsKnown(env, st, r.0) && BuffersWellShaped(r.0.buffers)
    ensures r.0.buffers.Keys <= st.buffers.Keys + {name}
    ensures !Fires(st.buffers[name := w], name) ==>
              r.0 == LoaderState(st.buffers[name := w], st.loaded) &&
              r.1 == (if PairNames(name).None? then Some(UnboundLocalError) else None)
    ensures Fires(st.buffers[name := w], name) ==>
              r.0.buffers == st.buffers[name := w] - {PairNames(name).value.0, PairNames(name).value.1}
  {
    var buf := st.buffers[name := w];
    match PairNames(name)
    case None => (LoaderState(buf, st.loaded), Some(UnboundLocalError))
    case Some((wn, sn)) =>
      if wn in buf && sn in buf then Release(env, LoaderState(buf, st.loaded), wn, sn)
      else (LoaderState(buf, st.loaded), None)
  }

  /** What one routed tensor does to the loader. */
  function Apply<T>(env: Env<T>, st: LoaderState<T>, a: Action, w: Matrix<T>)
    : (r: (LoaderState<T>, Option<LoadError>))
    requires WellShaped(w) && BuffersWellShaped(st.buffers)
    ensures LoadsKnown(env, st, r.0) && BuffersWellShaped(r.0.buffers)
    ensures !a.BufferFp8? ==> r.0.buffers == st.buffers
  {
    match a
    case Skip => (st, None)
    case LoadPlain(p) => Commit(env, st, p, Rows(w.data), NoShard)
    case LoadShard(p, id) => Commit(env, st, p, Rows(w.data), Shard(id))
    case LoadExpert(p, e, s) => Commit(env, st, p, Rows(w.data), Expert(e, s))
    case LoadPe(p, hd, off) =>
      if PeShape(w.rows, hd, off) then Commit(env, st, p, Rows(DeinterleavePe(w.data, hd, off)), NoShard)
      else (st, Some(ShapeError))
    case LoadKcVc(n) => KcVcStep(env, st, n, w)
    case BufferFp8(n) => BlockedStep(env, st, n, w)
  }

  /**
   * The body of the `load_weights` loop for one `(name, loaded_weight)`,
   * once the expert table exists.
   */
  function Step<T>(env: Env<T>, st: LoaderState<T>, name: string, w: Matrix<T>)
    : (r: (LoaderState<T>, Option<LoadError>))
    requires env.cfg.nRoutedExperts.Some? && WellShaped(w) && BuffersWellShaped(st.buffers)
    ensures LoadsKnown(env, st, r.0)
    ensures Skipped(env.cfg, name) ==> r == (st, None)
    ensures r.0.buffers != st.buffers ==> Route(env.cfg, name).BufferFp8?
  {
    Apply(env, st, Route(env.cfg, name), w)
  }

  /** Every tensor of the stream has the shape its data has. */
  predicate StreamWellShaped<T>(weights: seq<(string, Matrix<T>)>) {
    forall i | 0 <= i < |weights| :: WellShaped(weights[i].1)
  }

  /** `load_weights` over a stream: the steps in order, up to the first exception. */
  function Run<T>(env: Env<T>, st: LoaderState<T>, weights: seq<(string, Matrix<T>)>)
    : (r: (LoaderState<T>, Option<LoadError>))
    requires env.cfg.nRoutedExperts.Some? && StreamWellShaped(weights) && BuffersWellShaped(st.buffers)
    ensures BuffersWellShaped(r.0.buffers)
  {
    if weights == [] then (st, None)
    else
      var init := weights[..|weights| - 1];
      assert StreamWellShaped(init);
      var (st1, e1) := Run(env, st, init);
      if e1.Some? then (st1, e1)
      else
        var (name, w) := weights[|weights| - 1];
        Step(env, st1, name, w)
  }

  /** One more tensor after a prefix that ran without an exception is one more step. */
  lemma RunExtend<T>(env: Env<T>, st: LoaderState<T>, weights: seq<(string, Matrix<T>)>, i: nat)
    requires env.cfg.nRoutedExperts.Some? && StreamWellShaped(weights) && BuffersWellShaped(st.buffers) && i < |weights|
    requires StreamWellShaped(weights[..i]) && StreamWellShaped(weights[..i + 1])
    requires Run(env, st, weights[..i]).1.None?
    ensures Run(env, st, weights[..i + 1]) == Step(env, Run(env, st, weights[..i]).0, weights[i].0, weights[i].1)
  {
    assert weights[..i + 1][..i] == weights[..i];
  }

  /** A prefix of the stream that already failed decides the whole run: nothing after the exception runs. */
  lemma {:induction false} RunStopsAtError<T>(env: Env<T>, st: LoaderState<T>, weights: seq<(string, Matrix<T>)>, k: nat)
    requires env.cfg.nRoutedExperts.Some? && StreamWellShaped(weights) && BuffersWellShaped(st.buffers) && k <= |weights|
    requires StreamWellShaped(weights[..k]) && Run(env, st, weights[..k]).1.Some?
    ensures Run(env, st, weights) == Run(env, st, weights[..k])
    decreases |weights|
  {
    if k < |weights| {
      var init := weights[..|weights| - 1];
      assert init[..k] == weights[..k];
      RunStopsAtError(env, st, init, k);
    } else {
      assert weights[..k] == weights;
    }
  }

  /**
   * `load_weights`: building `expert_params_mapping` raises `TypeError`
   * when `n_routed_experts` is `None`, before any tensor is looked at;
   * otherwise the stream runs.
   */
  function LoadAll<T>(env: Env<T>, st: LoaderState<T>, weights: seq<(string, Matrix<T>)>)
    : (r: (LoaderState<T>, Option<LoadError>))
    requires StreamWellShaped(weights) && BuffersWellShaped(st.buffers)
    ensures env.cfg.nRoutedExperts.None? ==> r.0 == st && r.1 == Some(TypeError)
    ensures r.1 == Some(TypeError) ==> r.0 == st
    ensures BuffersWellShaped(r.0.buffers) && LoadsKnown(env, st, r.0)
  {
    if env.cfg.nRoutedExperts.None? then (st, Some(TypeError))
    else
      RunLoadsKnown(env, st, weights);
      Run(env, st, weights)
  }

  /** No exception of the loop itself is a `TypeError`, and every load of a run is to a known parameter. */
  lemma {:induction false} RunLoadsKnown<T>(env: Env<T>, st: LoaderState<T>, weights: seq<(string, Matrix<T>)>)
    requires env.cfg.nRoutedExperts.Some? && StreamWellShaped(weights) && BuffersWellShaped(st.buffers)
    ensures Run(env, st, weights).1 != Some(TypeError)
    ensures LoadsKnown(env, st, Run(env, st, weights).0)
    decreases |weights|
  {
    if weights != [] {
      var init := weights[..|weights| - 1];
      RunLoadsKnown(env, st, init);
      var (st1, e1) := Run(env, st, init);
      if e1.None? {
        var (name, w) := weights[|weights| - 1];
        ApplyNoTypeError(env, st1, Route(env.cfg, name), w);
      }
    }
  }

  /** One routed tensor never raises `TypeError`. */
  lemma ApplyNoTypeError<T>(env: Env<T>, st: LoaderState<T>, a: Action, w: Matrix<T>)
    requires WellShaped(w) && BuffersWellShaped(st.buffers)
    ensures Apply(env, st, a, w).1 != Some(TypeError)
  {
    if a.BufferFp8? {
      var buf := st.buffers[a.name := w];
      match PairNames(a.name)
      case None =>
      case Some((wn, sn)) =>
        if wn in buf && sn in buf {
          var weight := buf[wn];
          var rest := buf - {wn};
          if sn in rest && KcName(wn) in env.params {
            var scale := rest[sn];
            var d := DequantWeight(weight.data, weight.rows, weight.cols, scale.data, scale.rows, scale.cols, env.mul);
          }
        }
    }
  }

  // ---------------------------------------------------------------------
  // The pairing of block-quantised weights and scales

  /** A name stem that contains neither `.weight` nor `.scale`. */
  predicate CleanStem(x: string) {
    !Contains(x, ".weight") && !Contains(x, ".scale")
  }

  /** For a clean stem, both halves of the pair name the same two buffer keys. */
  lemma PairNamesOfStem(x: string)
    requires CleanStem(x)
    ensures PairNames(x + ".weight") == Some((x + ".weight", x + ".scale"))
    ensures PairNames(x + ".scale") == Some((x + ".weight", x + ".scale"))
    ensures x + ".weight" != x + ".scale"
  {
    var wn, sn := x + ".weight", x + ".scale";
    assert wn[|wn| - 7..] == ".weight";
    DotLeadsOnce();
    ReplaceSuffix(x, ".weight", ".scale");
    assert sn[|sn| - 1] == 'e' != ".weight"[6];
    assert sn[|sn| - 6..] == ".scale";
    ReplaceSuffix(x, ".scale", ".weight");
    assert wn[|x| + 1] != sn[|x| + 1];
  }

  /** No clean stem has both its weight and its scale waiting in the buffer. */
  ghost predicate NoCompletePair<T>(buffers: map<string, Matrix<T>>) {
    forall x | CleanStem(x) && x + ".weight" in buffers :: x + ".scale" !in buffers
  }

  /** Every step leaves no complete pair behind: the second half always releases the first. */
  lemma BlockedStepKeepsNoCompletePair<T>(env: Env<T>, st: LoaderState<T>, name: string, w: Matrix<T>)
    requires WellShaped(w) && BuffersWellShaped(st.buffers) && NoCompletePair(st.buffers)
    ensures NoCompletePair(BlockedStep(env, st, name, w).0.buffers)
  {
    var buf := st.buffers[name := w];
    var nb := BlockedStep(env, st, name, w).0.buffers;
    forall x | CleanStem(x) && x + ".weight" in nb
      ensures x + ".scale" !in nb
    {
      if name == x + ".weight" || name == x + ".scale" {
        PairNamesOfStem(x);
      } else {
        assert x + ".weight" in st.buffers;
      }
    }
  }

  /** The first half of a pair to arrive is only buffered. */
  lemma FirstHalfBuffered<T>(env: Env<T>, st: LoaderState<T>, wn: string, sn: string, name: string, w: Matrix<T>)
    requires IsPair(wn, sn) && (name == wn || name == sn) && WellShaped(w) && BuffersWellShaped(st.buffers)
    requires wn !in st.buffers && sn !in st.buffers
    ensures BlockedStep(env, st, name, w) == (LoaderState(st.buffers[name := w], st.loaded), None)
  {
    assert !Fires(st.buffers[name := w], name);
  }

  /** The names `wn` and `sn` are the two halves of one pair. */
  predicate IsPair(wn: string, sn: string) {
    wn != sn && PairNames(wn) == Some((wn, sn)) && PairNames(sn) == Some((wn, sn))
  }

  /** For a clean stem, `x.weight` and `x.scale` are a pair. */
  lemma StemPair(x: string)
    requires CleanStem(x)
    ensures IsPair(x + ".weight", x + ".scale")
  {
    PairNamesOfStem(x);
  }

  /** The second half to arrive releases the pair from the buffer holding both. */
  lemma SecondHalfReleases<T>(env: Env<T>, st: LoaderState<T>, wn: string, sn: string, name: string, w: Matrix<T>)
    requires IsPair(wn, sn) && (name == wn || name == sn) && WellShaped(w) && BuffersWellShaped(st.buffers)
    requires wn in st.buffers[name := w] && sn in st.buffers[name := w]
    ensures BlockedStep(env, st, name, w) == Release(env, LoaderState(st.buffers[name := w], st.loaded), wn, sn)
  {
  }

  /** Storing a well-shaped tensor keeps the buffer well-shaped. */
  lemma StoreWellShaped<T>(buffers: map<string, Matrix<T>>, name: string, w: Matrix<T>)
    requires BuffersWellShaped(buffers) && WellShaped(w)
    ensures BuffersWellShaped(buffers[name := w])
  {
  }

  /**
   * A weight and its scale may arrive in either order: whichever comes
   * second (after the first was buffered, as `FirstHalfBuffered` shows)
   * releases the same pair from the same buffer, so the outcome is the same.
   */
  lemma PairingIgnoresArrivalOrder<T>(env: Env<T>, st: LoaderState<T>, wn: string, sn: string, weight: Matrix<T>, scale: Matrix<T>)
    requires IsPair(wn, sn) && WellShaped(weight) && WellShaped(scale)
    requires BuffersWellShaped(st.buffers[wn := weight]) && BuffersWellShaped(st.buffers[sn := scale])
    ensures BlockedStep(env, LoaderState(st.buffers[wn := weight], st.loaded), sn, scale)
         == BlockedStep(env, LoaderState(st.buffers[sn := scale], st.loaded), wn, weight)
  {
    var both := st.buffers[wn := weight][sn := scale];
    assert st.buffers[sn := scale][wn := weight] == both;
    StoreWellShaped(st.buffers[wn := weight], sn, scale);
    SecondHalfReleases(env, LoaderState(st.buffers[wn := weight], st.loaded), wn, sn, sn, scale);
    SecondHalfReleases(env, LoaderState(st.buffers[sn := scale], st.loaded), wn, sn, wn, weight);
  }

  /**
   * `str.replace` rewrites every `.weight` of a name, not only the suffix,
   * so a stem `x = p.weight q` that itself contains `.weight` splits the
   * pair. The scale `x.scale` waits for `x.weight`, but that weight waits
   * for `p.scale q.scale` (for `x = a.weight.b`: `a.weight.b.scale` waits
   * for `a.weight.b.weight`, which waits for `a.scale.b.scale`). Arriving
   * scale first, both stay buffered; arriving weight first, the scale
   * releases both.
   */
  lemma ArrivalOrderMattersForDirtyStem<T>(env: Env<T>, p: string, q: string, weight: Matrix<T>, scale: Matrix<T>)
    requires WellShaped(weight) && WellShaped(scale)
    requires !Contains(p, ".weight") && !Contains(q, ".weight") && !Contains(p + ".weight" + q, ".scale")
    ensures var x, st := p + ".weight" + q, LoaderState(map[], []);
      BlockedStep(env, BlockedStep(env, st, x + ".scale", scale).0, x + ".weight", weight).0.buffers
        == map[x + ".scale" := scale, x + ".weight" := weight]
    ensures var x, st := p + ".weight" + q, LoaderState(map[], []);
      BlockedStep(env, BlockedStep(env, st, x + ".weight", weight).0, x + ".scale", scale).0.buffers == map[]
  {
    var x := p + ".weight" + q;
    ScaleNamesItsWeight(x);
    WeightNamesItsScale(x);
    DotLeadsOnce();
    ReplaceInfix(p, ".weight", q, ".scale");
    var o := p + ".scale" + q + ".scale";
    assert |o| + 1 == |x + ".scale"| && |o| + 2 == |x + ".weight"|;
    OneSidedPair(env, x + ".weight", x + ".scale", o, weight, scale);
  }

  /** A scale names as its weight the stem with every `.scale` replaced, plus `.weight`. */
  lemma ScaleNamesItsWeight(x: string)
    ensures PairNames(x + ".scale") == Some((ReplaceAll(x, ".scale", ".weight") + ".weight", x + ".scale"))
  {
    var sn := x + ".scale";
    DotLeadsOnce();
    ReplaceAtEnd(x, ".scale", ".weight");
    assert sn[|sn| - 1] != ".weight"[6];
    EndsWithAppend(x, ".scale");
  }

  /** A weight names as its scale the stem with every `.weight` replaced, plus `.scale`. */
  lemma WeightNamesItsScale(x: string)
    ensures PairNames(x + ".weight") == Some((x + ".weight", ReplaceAll(x, ".weight", ".scale") + ".scale"))
  {
    DotLeadsOnce();
    ReplaceAtEnd(x, ".weight", ".scale");
    EndsWithAppend(x, ".weight");
  }

  /**
   * When the scale `sn` names the weight `wn` but `wn` names another scale
   * `o`, the order of arrival decides whether the two are ever released.
   */
  lemma OneSidedPair<T>(env: Env<T>, wn: string, sn: string, o: string, weight: Matrix<T>, scale: Matrix<T>)
    requires WellShaped(weight) && WellShaped(scale)
    requires PairNames(sn) == Some((wn, sn)) && PairNames(wn) == Some((wn, o)) && o != sn && o != wn && wn != sn
    ensures var st := LoaderState(map[], []);
      BlockedStep(env, BlockedStep(env, st, sn, scale).0, wn, weight).0.buffers == map[sn := scale, wn := weight]
    ensures var st := LoaderState(map[], []);
      BlockedStep(env, BlockedStep(env, st, wn, weight).0, sn, scale).0.buffers == map[]
  {
    var st: LoaderState<T> := LoaderState(map[], []);
    assert !Fires(st.buffers[sn := scale], sn);
    var s1 := BlockedStep(env, st, sn, scale).0;
    assert !Fires(s1.buffers[wn := weight], wn);
    assert !Fires(st.buffers[wn := weight], wn);
    var s2 := BlockedStep(env, st, wn, weight).0;
    assert Fires(s2.buffers[sn := scale], sn);
    assert s2.buffers[sn := scale] - {wn, sn} == map[];
  }

  /** Released, a pair leaves the buffer as it was before its first half arrived. */
  lemma PairLeavesNoTrace<T>(env: Env<T>, st: LoaderState<T>, wn: string, sn: string, weight: Matrix<T>, scale: Matrix<T>)
    requires IsPair(wn, sn) && WellShaped(weight) && WellShaped(scale)
    requires BuffersWellShaped(st.buffers[wn := weight])
    requires wn !in st.buffers && sn !in st.buffers
    ensures BlockedStep(env, LoaderState(st.buffers[wn := weight], st.loaded), sn, scale).0.buffers == st.buffers
  {
    StoreWellShaped(st.buffers[wn := weight], sn, scale);
    SecondHalfReleases(env, LoaderState(st.buffers[wn := weight], st.loaded), wn, sn, sn, scale);
    StoreTwiceDropTwice(st.buffers, wn, sn, weight, scale);
  }

  /** Storing two new keys and removing them again gives back the map. */
  lemma StoreTwiceDropTwice<V>(m: map<string, V>, a: string, b: string, va: V, vb: V)
    requires a !in m && b !in m
    ensures m[a := va][b := vb] - {a, b} == m
  {
    var r := m[a := va][b := vb] - {a, b};
    assert r.Keys == m.Keys;
    forall k | k in m
      ensures r[k] == m[k]
    {
      assert k != a && k != b;
    }
  }

  /** Every `load_weight` call so far is to a parameter that exists, and no pair is left complete. */
  ghost predicate Consistent<T>(env: Env<T>, st: LoaderState<T>) {
    BuffersWellShaped(st.buffers) && NoCompletePair(st.buffers) &&
    forall i | 0 <= i < |st.loaded| :: st.loaded[i].param in env.params
  }

  lemma StepConsistent<T>(env: Env<T>, st: LoaderState<T>, name: string, w: Matrix<T>)
    requires env.cfg.nRoutedExperts.Some? && WellShaped(w) && Consistent(env, st)
    ensures st.loaded <= Step(env, st, name, w).0.loaded
    ensures Consistent(env, Step(env, st, name, w).0)
  {
    ApplyConsistent(env, st, Route(env.cfg, name), w);
  }

  /** `StepConsistent` for whichever action the name routes to. */
  lemma ApplyConsistent<T>(env: Env<T>, st: LoaderState<T>, a: Action, w: Matrix<T>)
    requires WellShaped(w) && Consistent(env, st)
    ensures st.loaded <= Apply(env, st, a, w).0.loaded
    ensures Consistent(env, Apply(env, st, a, w).0)
  {
    var st2 := Apply(env, st, a, w).0;
    if a.BufferFp8? {
      BlockedStepKeepsNoCompletePair(env, st, a.name, w);
    }
    KnownLoadsExtend(env, st, st2);
  }

  /** Loads of known parameters appended to loads of known parameters. */
  lemma KnownLoadsExtend<T>(env: Env<T>, st1: LoaderState<T>, st2: LoaderState<T>)
    requires LoadsKnown(env, st1, st2) && forall i | 0 <= i < |st1.loaded| :: st1.loaded[i].param in env.params
    ensures forall i | 0 <= i < |st2.loaded| :: st2.loaded[i].param in env.params
  {
    forall i | 0 <= i < |st2.loaded| ensures st2.loaded[i].param in env.params {
      if i < |st1.loaded| {
        assert st2.loaded[i] == st1.loaded[i];
      }
    }
  }

  /**
   * Starting from an empty buffer and no loads, `load_weights` only ever
   * calls `load_weight` on parameters that exist, and never leaves a clean
   * weight/scale pair waiting in the buffer.
   */
  lemma {:induction false} RunConsistent<T>(env: Env<T>, st: LoaderState<T>, weights: seq<(string, Matrix<T>)>)
    requires env.cfg.nRoutedExperts.Some? && StreamWellShaped(weights) && Consistent(env, st)
    ensures st.loaded <= Run(env, st, weights).0.loaded
    ensures Consistent(env, Run(env, st, weights).0)
    decreases |weights|
  {
    if weights != [] {
      var init := weights[..|weights| - 1];
      RunConsistent(env, st, init);
      var (st1, e1) := Run(env, st, init);
      if e1.None? {
        var (name, w) := weights[|weights| - 1];
        StepConsistent(env, st1, name, w);
      }
    }
  }

  // ---------------------------------------------------------------------
  // A half whose partner never arrives

  /** Storing `n` can release `h`: `h` is one of the two names of `n`'s pair. */
  predicate PairsWith(n: string, h: string) {
    PairNames(n).Some? && (PairNames(n).value.0 == h || PairNames(n).value.1 == h)
  }

  /**
   * For a clean stem, only its own weight and scale name the pair: no other
   * buffered name can release either half.
   */
  lemma OnlyHalvesPairWithStem(x: string, n: string)
    requires CleanStem(x) && n != x + ".weight" && n != x + ".scale"
    ensures !PairsWith(n, x + ".weight") && !PairsWith(n, x + ".scale")
  {
    var wn, sn := x + ".weight", x + ".scale";
    assert wn[|wn| - 1] != sn[|sn| - 1];
    if EndsWith(n, ".weight") {
      var y := n[..|n| - 7];
      assert n == y + ".weight";
      WeightNamesItsScale(y);
      var r := ReplaceAll(y, ".weight", ".scale");
      assert (r + ".scale")[|r| + 5] != wn[|wn| - 1];
      if r + ".scale" == sn {
        assert r == (r + ".scale")[..|r|] == sn[..|x|] == x;
        if Contains(y, ".weight") {
          ReplaceAllShowsRep(y, ".weight", ".scale");
        }
      }
    } else if EndsWith(n, ".scale") {
      var y := n[..|n| - 6];
      assert n == y + ".scale";
      ScaleNamesItsWeight(y);
      var r := ReplaceAll(y, ".scale", ".weight");
      assert (r + ".weight")[|r| + 6] != sn[|sn| - 1];
      if r + ".weight" == wn {
        assert r == (r + ".weight")[..|r|] == wn[..|x|] == x;
        if Contains(y, ".scale") {
          ReplaceAllShowsRep(y, ".scale", ".weight");
        }
      }
    }
  }

  /** `h` and `o` are the two halves, in either order, of the clean stem `x`. */
  predicate Halves(x: string, h: string, o: string) {
    CleanStem(x) && ((h, o) == (x + ".weight", x + ".scale") || (h, o) == (x + ".scale", x + ".weight"))
  }

  /**
   * A half of a clean pair that arrives while its partner is not buffered is
   * stored and the step raises nothing.
   */
  lemma LoneHalfArrives<T>(env: Env<T>, st: LoaderState<T>, x: string, h: string, o: string, name: string, w: Matrix<T>)
    requires env.cfg.nRoutedExperts.Some? && WellShaped(w) && BuffersWellShaped(st.buffers)
    requires Halves(x, h, o) && o !in st.buffers && Route(env.cfg, name) == BufferFp8(h)
    ensures Step(env, st, name, w) == (LoaderState(st.buffers[h := w], st.loaded), None)
  {
    PairNamesOfStem(x);
    assert PairNames(h) == Some((x + ".weight", x + ".scale"));
    assert o != h && o !in st.buffers[h := w];
    assert !Fires(st.buffers[h := w], h);
    assert Step(env, st, name, w) == BlockedStep(env, st, h, w);
  }

  /**
   * A step whose tensor is not the partner `o` never buffers `o` and never
   * releases a buffered `h`.
   */
  lemma LoneHalfStep<T>(env: Env<T>, st: LoaderState<T>, x: string, h: string, o: string, name: string, w: Matrix<T>)
    requires env.cfg.nRoutedExperts.Some? && WellShaped(w) && BuffersWellShaped(st.buffers)
    requires Halves(x, h, o) && o !in st.buffers && Route(env.cfg, name) != BufferFp8(o)
    ensures o !in Step(env, st, name, w).0.buffers
    ensures h in st.buffers ==> h in Step(env, st, name, w).0.buffers
  {
    var a := Route(env.cfg, name);
    if a == BufferFp8(h) {
      LoneHalfArrives(env, st, x, h, o, name, w);
    } else if a.BufferFp8? {
      OnlyHalvesPairWithStem(x, a.name);
    }
  }

  /** A stream that never routes the partner `o` to the buffer never leaves `o` buffered. */
  lemma {:induction false} PartnerNeverBuffered<T>(env: Env<T>, st: LoaderState<T>, weights: seq<(string, Matrix<T>)>,
                                                   x: string, h: string, o: string)
    requires env.cfg.nRoutedExperts.Some? && StreamWellShaped(weights) && BuffersWellShaped(st.buffers)
    requires Halves(x, h, o) && o !in st.buffers
    requires forall i | 0 <= i < |weights| :: Route(env.cfg, weights[i].0) != BufferFp8(o)
    ensures o !in Run(env, st, weights).0.buffers
    decreases |weights|
  {
    if weights != [] {
      var init := weights[..|weights| - 1];
      assert StreamWellShaped(init);
      PartnerNeverBuffered(env, st, init, x, h, o);
      var (st1, e1) := Run(env, st, init);
      if e1.None? {
        var (name, w) := weights[|weights| - 1];
        LoneHalfStep(env, st1, x, h, o, name, w);
      }
    }
  }

  /**
   * `load_weights` has no check after its loop: once a half of a clean pair
   * is buffered after the first `k` tensors, it is still there when the
   * stream ends, provided its partner is never routed to the buffer.
   */
  lemma {:induction false} LoneHalfStaysBuffered<T>(env: Env<T>, st: LoaderState<T>, weights: seq<(string, Matrix<T>)>,
                                                    x: string, h: string, o: string, k: nat)
    requires env.cfg.nRoutedExperts.Some? && StreamWellShaped(weights) && BuffersWellShaped(st.buffers)
    requires Halves(x, h, o) && o !in st.buffers && k <= |weights|
    requires forall i | 0 <= i < |weights| :: Route(env.cfg, weights[i].0) != BufferFp8(o)
    requires StreamWellShaped(weights[..k]) && h in Run(env, st, weights[..k]).0.buffers
    ensures h in Run(env, st, weights).0.buffers
    decreases |weights|
  {
    if k == |weights| {
      assert weights[..k] == weights;
    } else {
      var init := weights[..|weights| - 1];
      assert StreamWellShaped(init);
      assert init[..k] == weights[..k];
      LoneHalfStaysBuffered(env, st, init, x, h, o, k);
      PartnerNeverBuffered(env, st, init, x, h, o);
      var (st1, e1) := Run(env, st, init);
      if e1.None? {
        var (name, w) := weights[|weights| - 1];
        LoneHalfStep(env, st1, x, h, o, name, w);
      }
    }
  }

  /**
   * The tensor at position `k` is a half of a clean pair and the stream has
   * run without an exception up to it: the half is stored with no error,
   * and if the partner never comes it is still buffered when the stream
   * ends, and nothing reports it.
   */
  lemma LoneHalfLeftOver<T>(env: Env<T>, st: LoaderState<T>, weights: seq<(string, Matrix<T>)>,
                            x: string, h: string, o: string, k: nat)
    requires env.cfg.nRoutedExperts.Some? && StreamWellShaped(weights) && BuffersWellShaped(st.buffers)
    requires Halves(x, h, o) && o !in st.buffers && k < |weights|
    requires forall i | 0 <= i < |weights| :: Route(env.cfg, weights[i].0) != BufferFp8(o)
    requires Route(env.cfg, weights[k].0) == BufferFp8(h)
    requires StreamWellShaped(weights[..k]) && Run(env, st, weights[..k]).1.None?
    ensures StreamWellShaped(weights[..k + 1]) && Run(env, st, weights[..k + 1]).1.None?
    ensures h in Run(env, st, weights).0.buffers && o !in Run(env, st, weights).0.buffers
  {
    assert StreamWellShaped(weights[..k + 1]);
    assert forall i | 0 <= i < k :: weights[..k][i] == weights[i];
    PartnerNeverBuffered(env, st, weights[..k], x, h, o);
    RunExtend(env, st, weights, k);
    LoneHalfArrives(env, Run(env, st, weights[..k]).0, x, h, o, weights[k].0, weights[k].1);
    LoneHalfStaysBuffered(env, st, weights, x, h, o, k + 1);
    PartnerNeverBuffered(env, st, weights, x, h, o);
  }

  /**
   * A stream holding just one half of a clean pair, routed to the fp8
   * buffer: `load_weights` returns normally with the half still buffered.
   */
  lemma LoneHalfAlone<T>(env: Env<T>, st: LoaderState<T>, x: string, h: string, o: string, name: string, w: Matrix<T>)
    requires env.cfg.nRoutedExperts.Some? && WellShaped(w) && BuffersWellShaped(st.buffers)
    requires Halves(x, h, o) && o !in st.buffers && Route(env.cfg, name) == BufferFp8(h)
    ensures StreamWellShaped([(name, w)])
    ensures Run(env, st, [(name, w)]) == (LoaderState(st.buffers[h := w], st.loaded), None)
  {
    var weights := [(name, w)];
    assert weights[..0] == [];
    LoneHalfArrives(env, st, x, h, o, name, w);
  }

  // ---------------------------------------------------------------------
  // The model object, whose `_load_buffers` is updated in place

  /** The loading state of `DeepseekV2ForCausalLM`. */
  class DeepseekV2ForCausalLM<T> {
    const env: Env<T>
    var loadBuffers: map<string, Matrix<T>>
    var loaded: seq<LoadRecord<T>>

    function State(): LoaderState<T>
      reads this
    {
      LoaderState(loadBuffers, loaded)
    }

    /** Only well-shaped tensors are buffered. */
    predicate Valid()
      reads this
    {
      BuffersWellShaped(loadBuffers)
    }

    constructor (env: Env<T>)
      ensures this.env == env && loadBuffers == map[] && loaded == []
      ensures Valid()
    {
      this.env := env;
      loadBuffers := map[];
      loaded := [];
    }

    /** `load_weight(params_dict[param], data, **extra)`. */
    method LoadWeight(param: string, data: Payload<T>, extra: Extra) returns (err: Option<LoadError>)
      modifies this
      ensures (State(), err) == Commit(env, old(State()), param, data, extra)
    {
      if param !in env.params {
        return Some(KeyError(param));
      }
      loaded := loaded + [LoadRecord(param, data, extra)];
      err := None;
    }

    /** `__load_kcvc`. */
    method LoadKcVc(name: string, w: Matrix<T>) returns (err: Option<LoadError>)
      requires WellShaped(w)
      modifies this
      ensures (State(), err) == KcVcStep(env, old(State()), name, w)
    {
      var nope, v := env.cfg.qkNopeHeadDim, env.cfg.vHeadDim;
      if !KvShape(w.rows, nope, v) {
        return Some(ShapeError);
      }
      var (kc, vc) := SplitKcVc(w.data, w.cols, nope, v);
      err := LoadWeight(KcName(name), Heads(kc), NoShard);
      if err.Some? {
        return;
      }
      err := LoadWeight(VcName(name), Heads(vc), NoShard);
    }

    /** `__load_kcvc_blocked_fp8`: the buffer is a map updated in place. */
    method LoadKcVcBlockedFp8(name: string, w: Matrix<T>) returns (err: Option<LoadError>)
      requires Valid() && WellShaped(w)
      modifies this
      ensures (State(), err) == BlockedStep(env, old(State()), name, w)
    {
      var weightName: string, scaleName: string;
      if EndsWith(name, ".weight") {
        weightName := name;
        scaleName := ReplaceAll(name, ".weight", ".scale");
      } else if EndsWith(name, ".scale") {
        weightName := ReplaceAll(name, ".scale", ".weight");
        scaleName := name;
      } else {
        loadBuffers := loadBuffers[name := w];
        return Some(UnboundLocalError);
      }
      loadBuffers := loadBuffers[name := w];
      if weightName in loadBuffers && scaleName in loadBuffers {
        var weight := loadBuffers[weightName];
        loadBuffers := loadBuffers - {weightName};
        if scaleName !in loadBuffers {
          return Some(KeyError(scaleName));
        }
        var scale := loadBuffers[scaleName];
        loadBuffers := loadBuffers - {scaleName};
        var kcParamName := KcName(weightName);
        if kcParamName !in env.params {
          return Some(KeyError(kcParamName));
        }
        var dequant := DequantWeight(weight.data, weight.rows, weight.cols, scale.data, scale.rows, scale.cols, env.mul);
        if dequant.Err? {
          return Some(Dequant(dequant.error));
        }
        err := LoadKcVc(weightName, Matrix(weight.rows, weight.cols, dequant.value));
      } else {
        err := None;
      }
    }

    /** One iteration of the `load_weights` loop. */
    method LoadOne(name: string, w: Matrix<T>) returns (err: Option<LoadError>)
      requires env.cfg.nRoutedExperts.Some? && Valid() && WellShaped(w)
      modifies this
      ensures Valid()
      ensures (State(), err) == Step(env, old(State()), name, w)
    {
      err := Dispatch(Route(env.cfg, name), w);
    }

    /** The branch of the loop body that the routed action selects. */
    method Dispatch(a: Action, w: Matrix<T>) returns (err: Option<LoadError>)
      requires Valid() && WellShaped(w)
      modifies this
      ensures Valid()
      ensures (State(), err) == Apply(env, old(State()), a, w)
    {
      match a
      case Skip =>
        err := None;
      case LoadPlain(p) =>
        err := LoadWeight(p, Rows(w.data), NoShard);
      case LoadShard(p, id) =>
        err := LoadWeight(p, Rows(w.data), Shard(id));
      case LoadExpert(p, e, sh) =>
        err := LoadWeight(p, Rows(w.data), Expert(e, sh));
      case LoadPe(p, hd, off) =>
        if !PeShape(w.rows, hd, off) {
          return Some(ShapeError);
        }
        var rows := new seq<T>[w.rows](i requires 0 <= i < w.rows => w.data[i]);
        assert rows[..] == w.data;
        UpdatePe(rows, hd, off);
        err := LoadWeight(p, Rows(rows[..]), NoShard);
      case LoadKcVc(n) =>
        err := LoadKcVc(n, w);
      case BufferFp8(n) =>
        err := LoadKcVcBlockedFp8(n, w);
    }

    /**
     * `load_weights`: the `TypeError` of a configuration without routed
     * experts, else every tensor of the stream in order, up to the first
     * exception.
     */
    method LoadWeights(weights: seq<(string, Matrix<T>)>) returns (err: Option<LoadError>)
      requires Valid() && StreamWellShaped(weights)
      modifies this
      ensures Valid()
      ensures (State(), err) == LoadAll(env, old(State()), weights)
    {
      if env.cfg.nRoutedExperts.None? {
        return Some(TypeError);
      }
      ghost var st0 := State();
      var i := 0;
      err := None;
      while i < |weights|
        invariant 0 <= i <= |weights| && Valid()
        invariant StreamWellShaped(weights[..i])
        invariant err == None && (State(), None) == Run(env, st0, weights[..i])
      {
        var (name, w) := weights[i];
        assert StreamWellShaped(weights[..i + 1]);
        RunExtend(env, st0, weights, i);
        err := LoadOne(name, w);
        if err.Some? {
          RunStopsAtError(env, st0, weights, i + 1);
          return;
        }
        i := i + 1;
      }
      assert weights[..i] == weights;
    }
  }
}
