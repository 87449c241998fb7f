/** The parameter record θ, its capacity growth, the optimizer state that
    wraps it, and the checks made when a fitter is constructed. */
module Params {
  import opened Common
  import opened Matrices

  /** The configuration record `p`. Only `nLim` ever changes (by growth). */
  datatype Params = Params(ds: nat, dh: nat, dt: real, nLim: nat, mLim: nat)

  /** The parameter dictionary θ: coupling weights `w` (N_lim x N_lim),
      history filters `h` (N_lim x dh), stimulus filters `k` (N_lim x ds)
      and baselines `b` (N_lim x 1). */
  datatype Theta = Theta(w: Matrix, h: Matrix, k: Matrix, b: Matrix)

  /** Every tensor has leading dimension `n`; the second dimensions are
      `n` for `w` and the fixed `dh`, `ds` and 1 for the others. */
  predicate WellShaped(t: Theta, n: nat, dh: nat, ds: nat)
  {
    && t.w.Valid() && t.w.rows == n && t.w.cols == n
    && t.h.Valid() && t.h.rows == n && t.h.cols == dh
    && t.k.Valid() && t.k.rows == n && t.k.cols == ds
    && t.b.Valid() && t.b.rows == n && t.b.cols == 1
  }

  /** θ with every tensor zero-padded to `n` rows (and `w` to `n` columns). */
  function EmbedTheta(t: Theta, n: nat, dh: nat, ds: nat): (r: Theta)
    requires t.w.Valid() && t.h.Valid() && t.k.Valid() && t.b.Valid()
    requires t.w.rows <= n && t.w.cols <= n && t.h.rows <= n && t.h.cols <= dh
    requires t.k.rows <= n && t.k.cols <= ds && t.b.rows <= n && t.b.cols <= 1
    ensures WellShaped(r, n, dh, ds)
  {
    Theta(Embed(t.w, n, n), Embed(t.h, n, dh), Embed(t.k, n, ds), Embed(t.b, n, 1))
  }

  /** The tensor updates of `_increase_θ_size`: `w` gains `n` zero columns,
      then `n` zero rows of width `2n`; `h`, `b` and `k` gain `n` zero rows. */
  function GrowTheta(t: Theta, n: nat, dh: nat, ds: nat): (r: Theta)
    requires WellShaped(t, n, dh, ds)
    ensures WellShaped(r, 2 * n, dh, ds)
  {
    var w := ConcatCols(t.w, Zeros(n, n));
    Theta(ConcatRows(w, Zeros(n, 2 * n)),
          ConcatRows(t.h, Zeros(n, dh)),
          ConcatRows(t.k, Zeros(n, ds)),
          ConcatRows(t.b, Zeros(n, 1)))
  }

  /** One doubling keeps every old entry in the top-left block, fills the
      new rows and columns with zeros and keeps the widths dh, ds and 1. */
  lemma GrowThetaEmbeds(t: Theta, n: nat, dh: nat, ds: nat)
    requires WellShaped(t, n, dh, ds)
    ensures GrowTheta(t, n, dh, ds) == EmbedTheta(t, 2 * n, dh, ds)
  {
    var g := GrowTheta(t, n, dh, ds);
    Ext(g.w, Embed(t.w, 2 * n, 2 * n));
    Ext(g.h, Embed(t.h, 2 * n, dh));
    Ext(g.k, Embed(t.k, 2 * n, ds));
    Ext(g.b, Embed(t.b, 2 * n, 1));
  }

  /** Slicing the grown θ back to the old capacity recovers the old θ. */
  lemma GrowThetaRecovers(t: Theta, n: nat, dh: nat, ds: nat)
    requires WellShaped(t, n, dh, ds)
    ensures var g := GrowTheta(t, n, dh, ds);
      && TopLeft(g.w, n, n) == t.w && TopLeft(g.h, n, dh) == t.h
      && TopLeft(g.k, n, ds) == t.k && TopLeft(g.b, n, 1) == t.b
  {
    GrowThetaEmbeds(t, n, dh, ds);
    TopLeftOfEmbed(t.w, 2 * n, 2 * n);
    TopLeftOfEmbed(t.h, 2 * n, dh);
    TopLeftOfEmbed(t.k, 2 * n, ds);
    TopLeftOfEmbed(t.b, 2 * n, 1);
  }

  /** θ after `k` successive doublings starting from capacity `n`. */
  function GrowThetaTimes(t: Theta, n: nat, dh: nat, ds: nat, k: nat): (r: Theta)
    requires WellShaped(t, n, dh, ds)
    ensures WellShaped(r, n * Pow2(k), dh, ds) && n <= n * Pow2(k)
  {
    if k == 0 then t
    else
      Pow2Step(n, k);
      GrowTheta(GrowThetaTimes(t, n, dh, ds, k - 1), n * Pow2(k - 1), dh, ds)
  }

  lemma Pow2Step(n: nat, k: nat)
    requires k > 0
    ensures n * Pow2(k) == 2 * (n * Pow2(k - 1)) && n <= n * Pow2(k - 1)
  {
    var p := Pow2(k - 1);
    assert n * (2 * p) == 2 * (n * p);
    assert n * p >= n * 1;
  }

  /** Padding a padded θ once more is one padding. */
  lemma EmbedThetaTwice(t: Theta, n: nat, n': nat, n'': nat, dh: nat, ds: nat)
    requires WellShaped(t, n, dh, ds) && n <= n' <= n''
    ensures EmbedTheta(EmbedTheta(t, n', dh, ds), n'', dh, ds) == EmbedTheta(t, n'', dh, ds)
  {
    EmbedTwice(t.w, n', n', n'', n'');
    EmbedTwice(t.h, n', dh, n'', dh);
    EmbedTwice(t.k, n', ds, n'', ds);
    EmbedTwice(t.b, n', 1, n'', 1);
  }

  /** Padding θ to its own capacity changes nothing. */
  lemma EmbedThetaSameShape(t: Theta, n: nat, dh: nat, ds: nat)
    requires WellShaped(t, n, dh, ds)
    ensures EmbedTheta(t, n, dh, ds) == t
  {
    EmbedSameShape(t.w);
    EmbedSameShape(t.h);
    EmbedSameShape(t.k);
    EmbedSameShape(t.b);
  }

  /** Any number of doublings is one zero-padding of the original θ to the
      final capacity: the old values survive every growth. */
  lemma {:induction false} GrowThetaTimesEmbeds(t: Theta, n: nat, dh: nat, ds: nat, k: nat)
    requires WellShaped(t, n, dh, ds)
    ensures GrowThetaTimes(t, n, dh, ds, k) == EmbedTheta(t, n * Pow2(k), dh, ds)
  {
    if k == 0 {
      assert n * Pow2(k) == n;
      EmbedThetaSameShape(t, n, dh, ds);
    } else {
      var n' := n * Pow2(k - 1);
      Pow2Step(n, k);
      assert 2 * n' == n * Pow2(k);
      var prev := GrowThetaTimes(t, n, dh, ds, k - 1);
      GrowThetaTimesEmbeds(t, n, dh, ds, k - 1);
      GrowThetaEmbeds(prev, n', dh, ds);
      EmbedThetaTwice(t, n, n', 2 * n', dh, ds);
    }
  }

  /** After any number of doublings the old coupling block is still the
      top-left block of the grown `w`. */
  lemma GrowthKeepsWeights(t: Theta, n: nat, dh: nat, ds: nat, k: nat)
    requires WellShaped(t, n, dh, ds)
    ensures TopLeft(GrowThetaTimes(t, n, dh, ds, k).w, n, n) == t.w
  {
    GrowThetaTimesEmbeds(t, n, dh, ds, k);
    TopLeftOfEmbed(t.w, n * Pow2(k), n * Pow2(k));
  }

  /** θ with every entry zero and the same shapes. */
  function ZeroLike(t: Theta): Theta
  {
    Theta(Zeros(t.w.rows, t.w.cols), Zeros(t.h.rows, t.h.cols), Zeros(t.k.rows, t.k.cols), Zeros(t.b.rows, t.b.cols))
  }

  /** `a` has the shapes of `b` whenever `b` is a well-formed record. */
  predicate Conforms(a: Theta, b: Theta)
  {
    (b.w.Valid() && b.h.Valid() && b.k.Valid() && b.b.Valid()) ==>
      && a.w.Valid() && a.h.Valid() && a.k.Valid() && a.b.Valid()
      && a.w.rows == b.w.rows && a.w.cols == b.w.cols && a.h.rows == b.h.rows && a.h.cols == b.h.cols
      && a.k.rows == b.k.rows && a.k.cols == b.k.cols && a.b.rows == b.b.rows && a.b.cols == b.b.cols
  }

  /** The optimizer state: the packed parameters and its accumulators
      (momenta, second moments, ...), one θ-shaped record per slot. */
  datatype OptState = OptState(packed: Theta, moments: seq<Theta>)

  /** The first-order optimizer triple `opt_init`, `opt_update`,
      `get_params`: `update` is the library's step rule, taken as given. */
  datatype Optimizer = Optimizer(slots: nat, update: (nat, Theta, OptState) -> OptState)
  {
    /** `opt_init`: the parameters with freshly zeroed accumulators. */
    function Init(t: Theta): (st: OptState)
      ensures st.packed == t && |st.moments| == slots
      ensures forall i :: 0 <= i < slots ==> st.moments[i] == ZeroLike(t)
    {
      OptState(t, seq(slots, _ => ZeroLike(t)))
    }

    /** `get_params` */
    function GetParams(st: OptState): Theta
    {
      st.packed
    }

    /** A step leaves the shapes of the parameter tensors as they were. */
    ghost predicate KeepsShapes()
    {
      forall it: nat, g: Theta, st: OptState :: Conforms(update(it, g, st).packed, st.packed)
    }
  }

  /** The dictionary `p` as passed in: any of the required keys may be absent. */
  datatype RawParams = RawParams(ds: Option<nat>, dh: Option<nat>, dt: Option<real>,
                                 nLim: Option<nat>, mLim: Option<nat>)
  {
    predicate Complete()
    {
      ds.Some? && dh.Some? && dt.Some? && nLim.Some? && mLim.Some?
    }

    function Get(): Params
      requires Complete()
    {
      Params(ds.value, dh.value, dt.value, nLim.value, mLim.value)
    }
  }

  /** The baseline `b` may be given as a vector `(N_lim,)` or a column `(N_lim, 1)`. */
  datatype Bias = Flat(v: seq<real>) | Column(m: Matrix)

  datatype RawTheta = RawTheta(w: Matrix, h: Matrix, k: Matrix, b: Bias)

  datatype ConfigError = ParameterIncomplete | ThetaNotSpecified | ThetaShape | OptimizerNotNamed

  /** The shape assertions on the supplied θ. */
  predicate Conforming(t: RawTheta, p: Params)
  {
    && t.w.Valid() && t.w.rows == p.nLim && t.w.cols == p.nLim
    && t.h.Valid() && t.h.rows == p.nLim && t.h.cols == p.dh
    && t.k.Valid() && t.k.rows == p.nLim && t.k.cols == p.ds
    && match t.b
       case Flat(v) => |v| == p.nLim
       case Column(m) => m.Valid() && m.rows == p.nLim && m.cols == 1
  }

  /** `np.reshape(b, (N_lim, 1))` of a vector. */
  function Reshape(v: seq<real>): Matrix
  {
    Matrix(|v|, 1, seq(|v|, i requires 0 <= i < |v| => [v[i]]))
  }

  datatype Setup = Setup(params: Params, theta: Theta, opt: Optimizer)

  /** The checks of the constructor, in the order the source makes them:
      the required keys of `p`, a θ at all, θ's shapes, an optimizer. */
  function Configure(p: RawParams, theta: Option<RawTheta>, optimizer: Option<Optimizer>): (r: Result<Setup, ConfigError>)
    ensures r == Failure(ParameterIncomplete) <==> !p.Complete()
    ensures p.Complete() && theta.None? ==> r == Failure(ThetaNotSpecified)
    ensures p.Complete() && theta.Some? && !Conforming(theta.value, p.Get()) ==> r == Failure(ThetaShape)
    ensures p.Complete() && theta.Some? && Conforming(theta.value, p.Get()) && optimizer.None? ==>
      r == Failure(OptimizerNotNamed)
    ensures r.Success? <==> p.Complete() && theta.Some? && Conforming(theta.value, p.Get()) && optimizer.Some?
    ensures r.Success? ==>
      var s := r.value;
      && s.params == p.Get() && s.opt == optimizer.value
      && WellShaped(s.theta, s.params.nLim, s.params.dh, s.params.ds)
      && s.theta.w == theta.value.w && s.theta.h == theta.value.h && s.theta.k == theta.value.k
      && (theta.value.b.Column? ==> s.theta.b == theta.value.b.m)
      && (theta.value.b.Flat? ==> forall i :: 0 <= i < s.params.nLim ==> s.theta.b.cells[i][0] == theta.value.b.v[i])
  {
    if !p.Complete() then Failure(ParameterIncomplete)
    else if theta.None? then Failure(ThetaNotSpecified)
    else if !Conforming(theta.value, p.Get()) then Failure(ThetaShape)
    else if optimizer.None? then Failure(OptimizerNotNamed)
    else
      var t := theta.value;
      var b := match t.b
               case Flat(v) => Reshape(v)
               case Column(m) => m;
      Success(Setup(p.Get(), Theta(t.w, t.h, t.k, b), optimizer.value))
  }

  /** The number of doublings the growth loop makes from capacity `n` to
      hold `rows` neurons. */
  function GrowthSteps(n: nat, rows: nat): nat
    requires n > 0 || rows <= n
    decreases if rows <= n then 0 else rows - n
  {
    if rows <= n then 0 else 1 + GrowthSteps(2 * n, rows)
  }

  /** The growth loop stops at the old capacity times the smallest power of
      two that holds every row. */
  lemma {:induction false} GrowthStepsMinimal(n: nat, rows: nat)
    requires n > 0 || rows <= n
    decreases if rows <= n then 0 else rows - n
    ensures var k := GrowthSteps(n, rows);
      rows <= n * Pow2(k) && (k > 0 ==> n * Pow2(k - 1) < rows)
  {
    if rows > n {
      var k' := GrowthSteps(2 * n, rows);
      GrowthStepsMinimal(2 * n, rows);
      DoubleFactor(n, Pow2(k'));
      if k' > 0 {
        DoubleFactor(n, Pow2(k' - 1));
      }
    }
  }

  /** Doubling one factor doubles the product. */
  lemma DoubleFactor(n: nat, p: nat)
    ensures (2 * n) * p == n * (2 * p) == 2 * (n * p)
  {
  }

  /** The parameters after the growth loop for `rows` neurons: only the
      capacity changes, and it then holds every row. */
  function GrownParams(p: Params, rows: nat): (r: Params)
    requires p.nLim > 0 || rows <= p.nLim
    ensures r == p.(nLim := r.nLim) && p.nLim <= r.nLim && rows <= r.nLim
  {
    GrowthStepsMinimal(p.nLim, rows);
    assert p.nLim * 1 <= p.nLim * Pow2(GrowthSteps(p.nLim, rows));
    p.(nLim := p.nLim * Pow2(GrowthSteps(p.nLim, rows)))
  }

  /** The optimizer state after the growth loop for `rows` neurons: each
      doubling re-initialises it from the grown parameters. */
  function Grown(opt: Optimizer, st: OptState, p: Params, rows: nat): (r: OptState)
    requires WellShaped(st.packed, p.nLim, p.dh, p.ds) && (p.nLim > 0 || rows <= p.nLim)
  {
    var k := GrowthSteps(p.nLim, rows);
    if k == 0 then st else opt.Init(GrowThetaTimes(st.packed, p.nLim, p.dh, p.ds, k))
  }

  /** The parameters the growth keeps are exactly the old ones, zero-padded
      to the new capacity; the old coupling block is still in place. */
  lemma GrownKeepsTheta(opt: Optimizer, st: OptState, p: Params, rows: nat)
    requires WellShaped(st.packed, p.nLim, p.dh, p.ds) && (p.nLim > 0 || rows <= p.nLim)
    ensures var n' := p.nLim * Pow2(GrowthSteps(p.nLim, rows));
      && rows <= n' && p.nLim <= n'
      && Grown(opt, st, p, rows).packed == EmbedTheta(st.packed, n', p.dh, p.ds)
      && TopLeft(Grown(opt, st, p, rows).packed.w, p.nLim, p.nLim) == st.packed.w
  {
    var k := GrowthSteps(p.nLim, rows);
    GrowthStepsMinimal(p.nLim, rows);
    GrowThetaTimesEmbeds(st.packed, p.nLim, p.dh, p.ds, k);
    GrowthKeepsWeights(st.packed, p.nLim, p.dh, p.ds, k);
    assert GrowThetaTimes(st.packed, p.nLim, p.dh, p.ds, 0) == st.packed;
  }
}
