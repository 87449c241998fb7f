/** The fixed-capacity Poisson GLM fitter (GLM/glm_jax.py): the shape
    normaliser that pads every batch to `N_lim x M_lim`, capacity doubling
    when more neurons arrive, the `rpf` repeat loop of optimizer steps, and
    the streaming fit controller of the synthetic-data subclass. */
module GlmJax {
  import opened Common
  import opened Matrices
  import opened Params
  import ShapeRules

  /** The argument tuple `(m, n, y, s, indicator)` of `_ll`: the unpadded
      width and height, then the (padded) spikes, stimulus and mask. */
  datatype Batch = Batch(m: nat, n: nat, y: Matrix, s: Matrix, indicator: Matrix)

  /** The gradient of `_ll` with respect to θ, and `_ll` itself: automatic
      differentiation and the floating-point likelihood, taken as given. */
  type Gradient = (Theta, Params, Batch) -> Theta
  type Loss = (Theta, Params, Batch) -> real

  /** The mask used when the caller gives none: ones of the data's shape. */
  function Mask(y: Matrix, indicator: Option<Matrix>): Matrix
  {
    indicator.GetOr(Ones(y.rows, y.cols))
  }

  /** The padding part of `_check_arrays`, once the capacity suffices: data
      of exactly `N_lim x M_lim` pass through untouched (mask included);
      anything else is written into zero buffers by `buf[:N, :M] = x`. The
      target block is clipped to the buffer, so it is `min(M, M_lim)` wide,
      and each write must broadcast onto it: the data fail (`ValueError`)
      when wider than `M_lim` unless one column wide, and so does a mask
      that broadcasts onto no such block. */
  function Pad(y: Matrix, s: Matrix, indicator: Option<Matrix>, p: Params): (r: Result<Batch, Error>)
    requires y.Valid() && s.Valid() && (indicator.Some? ==> indicator.value.Valid())
    requires y.rows <= p.nLim && s.rows == p.ds && s.cols == y.cols
    ensures var mask := Mask(y, indicator);
      r.Success? <==> (y.rows == p.nLim && y.cols == p.mLim)
                      || ((y.cols <= p.mLim || y.cols == 1) && BroadcastsTo(mask, y.rows, Min(y.cols, p.mLim)))
    ensures r.Failure? ==> r.error == if y.cols > p.mLim && y.cols != 1 then TooWide else IndicatorShape
    ensures r.Success? ==> r.value.m == y.cols && r.value.n == y.rows
    ensures r.Success? && y.cols <= p.mLim ==>
      r.value.y == Embed(y, p.nLim, p.mLim) && r.value.s == Embed(s, p.ds, p.mLim)
    ensures r.Success? && y.cols > p.mLim ==>
      p.mLim == 0 && r.value.y == Zeros(p.nLim, 0) && r.value.s == Zeros(p.ds, 0)
    ensures r.Success? && indicator.None? && y.cols <= p.mLim ==>
      r.value.indicator == Embed(Ones(y.rows, y.cols), p.nLim, p.mLim)
    ensures r.Success? && !(y.rows == p.nLim && y.cols == p.mLim) ==>
      r.value.indicator == Embed(Stretch(Mask(y, indicator), y.rows, Min(y.cols, p.mLim)), p.nLim, p.mLim)
    ensures r.Success? && y.rows == p.nLim && y.cols == p.mLim ==> r.value.indicator == Mask(y, indicator)
  {
    var mask := Mask(y, indicator);
    var w := Min(y.cols, p.mLim);
    if y.rows == p.nLim && y.cols == p.mLim then
      EmbedSameShape(y);
      EmbedSameShape(s);
      EmbedSameShape(Ones(y.rows, y.cols));
      Success(Batch(y.cols, y.rows, y, s, mask))
    else if !BroadcastsTo(y, y.rows, w) then Failure(TooWide)
    else if !BroadcastsTo(mask, y.rows, w) then Failure(IndicatorShape)
    else
      var r := Batch(y.cols, y.rows, Embed(Stretch(y, y.rows, w), p.nLim, p.mLim),
                     Embed(Stretch(s, s.rows, w), p.ds, p.mLim), Embed(Stretch(mask, y.rows, w), p.nLim, p.mLim));
      if y.cols <= p.mLim then
        StretchSameShape(y);
        StretchSameShape(s);
        StretchSameShape(Ones(y.rows, y.cols));
        Success(r)
      else
        Ext(r.y, Zeros(p.nLim, 0));
        Ext(r.s, Zeros(p.ds, 0));
        Success(r)
  }

  /** `_check_arrays` as a value: the two shape assertions, then padding. */
  function Checked(y: Matrix, s: Matrix, indicator: Option<Matrix>, p: Params): Result<Batch, Error>
    requires y.Valid() && s.Valid() && (indicator.Some? ==> indicator.value.Valid())
    requires y.cols == s.cols && s.rows == p.ds ==> y.rows <= p.nLim
  {
    if y.cols != s.cols then Failure(WidthMismatch)
    else if s.rows != p.ds then Failure(StimulusRows)
    else Pad(y, s, indicator, p)
  }

  /** Without a caller's mask, the padded mask is 1 exactly on the part of
      the data block that fits the buffer, and so holds `N * min(M, M_lim)`
      ones. */
  lemma PadMaskCount(y: Matrix, s: Matrix, p: Params)
    requires y.Valid() && s.Valid() && y.rows <= p.nLim && s.rows == p.ds && s.cols == y.cols
    requires Pad(y, s, None, p).Success?
    ensures var ind := Pad(y, s, None, p).value.indicator;
      && ind.rows == p.nLim && ind.cols == p.mLim
      && Total(ind.cells) == (y.rows * Min(y.cols, p.mLim)) as real
  {
    var ind := Pad(y, s, None, p).value.indicator;
    TotalOfOnesBlock(ind.cells, y.rows, Min(y.cols, p.mLim));
  }

  /** Without a mask, data that fit the capacity are accepted exactly when
      they are no wider than `M_lim`, or one column wide (which broadcasts
      onto the empty block when `M_lim` is 0). */
  lemma PadAcceptsFittingData(y: Matrix, s: Matrix, p: Params)
    requires y.Valid() && s.Valid() && y.rows <= p.nLim && s.rows == p.ds && s.cols == y.cols
    ensures Pad(y, s, None, p).Success? <==> y.cols <= p.mLim || y.cols == 1
  {
  }

  /** `buf[:r, :c] = src` into a fresh zero `rows x cols` buffer, the block
      already clipped to the buffer: `src` is broadcast onto it. */
  method PadBuffer(src: Matrix, r: nat, c: nat, rows: nat, cols: nat) returns (m: Matrix)
    requires src.Valid() && BroadcastsTo(src, r, c) && r <= rows && c <= cols
    ensures m == Embed(Stretch(src, r, c), rows, cols)
  {
    var buf := new real[rows, cols]((_, _) => 0.0);
    var i := 0;
    while i < r
      invariant 0 <= i <= r
      invariant forall a, b :: 0 <= a < rows && 0 <= b < cols ==>
        buf[a, b] == if a < i && b < c then src.cells[if src.rows == 1 then 0 else a][if src.cols == 1 then 0 else b] else 0.0
    {
      var j := 0;
      while j < c
        invariant 0 <= j <= c
        invariant forall a, b :: 0 <= a < rows && 0 <= b < cols ==>
          buf[a, b] == if (a < i && b < c) || (a == i && b < j)
                       then src.cells[if src.rows == 1 then 0 else a][if src.cols == 1 then 0 else b] else 0.0
      {
        buf[i, j] := src.cells[if src.rows == 1 then 0 else i][if src.cols == 1 then 0 else j];
        j := j + 1;
      }
      i := i + 1;
    }
    m := Matrix(rows, cols, seq(rows, a requires 0 <= a < rows reads buf =>
      seq(cols, b requires 0 <= b < cols reads buf => buf[a, b])));
    Ext(m, Embed(Stretch(src, r, c), rows, cols));
  }

  /** The padding steps of `_check_arrays`: the exact shape passes
      through, otherwise the three buffer writes in order. */
  method PadBatch(y: Matrix, s: Matrix, indicator: Option<Matrix>, p: Params) returns (r: Result<Batch, Error>)
    requires y.Valid() && s.Valid() && (indicator.Some? ==> indicator.value.Valid())
    requires y.rows <= p.nLim && s.rows == p.ds && s.cols == y.cols
    ensures r == Pad(y, s, indicator, p)
  {
    var mask := if indicator.Some? then indicator.value else Ones(y.rows, y.cols);
    var w := Min(y.cols, p.mLim);
    if y.rows == p.nLim && y.cols == p.mLim {
      r := Success(Batch(y.cols, y.rows, y, s, mask));
    } else if !BroadcastsTo(y, y.rows, w) {
      r := Failure(TooWide);
    } else if !BroadcastsTo(mask, y.rows, w) {
      r := Failure(IndicatorShape);
    } else {
      var y' := PadBuffer(y, y.rows, w, p.nLim, p.mLim);
      var s' := PadBuffer(s, s.rows, w, p.ds, p.mLim);
      var mask' := PadBuffer(mask, y.rows, w, p.nLim, p.mLim);
      r := Success(Batch(y.cols, y.rows, y', s', mask'));
    }
  }

  /** The batches `_predict` and `_ll` accept without a shape error, with
      NumPy's broadcasting (a one-row or one-column mask, a narrower window
      whose columns still broadcast, and so on). Any other batch raises
      while `_fit` is traced. */
  predicate Trainable(p: Params, batch: Batch)
  {
    ShapeRules.GlmLlAccepts(p, ShapeOf(batch.y), ShapeOf(batch.s), ShapeOf(batch.indicator))
  }

  function ShapeOf(m: Matrix): ShapeRules.Shape
  {
    ShapeRules.Shape(m.rows, m.cols)
  }

  /** One optimizer step on a batch: `opt_update(iter, grad(_ll)(θ, ...), θ)`. */
  function Step(opt: Optimizer, grad: Gradient, p: Params, it: nat, batch: Batch, st: OptState): OptState
  {
    opt.update(it, grad(opt.GetParams(st), p, batch), st)
  }

  /** `n` optimizer steps on the same batch, all under the same iteration index. */
  function Repeat(opt: Optimizer, grad: Gradient, p: Params, it: nat, batch: Batch, st: OptState, n: nat): OptState
  {
    if n == 0 then st else Step(opt, grad, p, it, batch, Repeat(opt, grad, p, it, batch, st, n - 1))
  }

  /** Repeated steps on one batch compose: `a` steps then `b` steps are
      `a + b` steps, because the index and the window never change. */
  lemma {:induction false} RepeatCompose(opt: Optimizer, grad: Gradient, p: Params, it: nat, batch: Batch, st: OptState, a: nat, b: nat)
    ensures Repeat(opt, grad, p, it, batch, Repeat(opt, grad, p, it, batch, st, a), b)
         == Repeat(opt, grad, p, it, batch, st, a + b)
  {
    if b > 0 {
      RepeatCompose(opt, grad, p, it, batch, st, a, b - 1);
    }
  }

  /** An optimizer that keeps shapes keeps θ well shaped over any number of steps. */
  lemma {:induction false} RepeatKeepsShapes(opt: Optimizer, grad: Gradient, p: Params, it: nat, batch: Batch, st: OptState, n: nat)
    requires opt.KeepsShapes() && WellShaped(st.packed, p.nLim, p.dh, p.ds)
    ensures WellShaped(Repeat(opt, grad, p, it, batch, st, n).packed, p.nLim, p.dh, p.ds)
  {
    if n > 0 {
      var prev := Repeat(opt, grad, p, it, batch, st, n - 1);
      RepeatKeepsShapes(opt, grad, p, it, batch, st, n - 1);
      assert Conforms(opt.update(it, grad(opt.GetParams(prev), p, batch), prev).packed, prev.packed);
    }
  }

  /** `_fit`: `rpf` gradient steps on one batch, all with the same `iter`. */
  method FitSteps(opt: Optimizer, grad: Gradient, p: Params, rpf: nat, it: nat, batch: Batch, st: OptState) returns (r: OptState)
    ensures r == Repeat(opt, grad, p, it, batch, st, rpf)
  {
    r := st;
    var i := 0;
    while i < rpf
      invariant 0 <= i <= rpf
      invariant r == Repeat(opt, grad, p, it, batch, st, i)
    {
      r := Step(opt, grad, p, it, batch, r);
      i := i + 1;
    }
  }

  /** The fitter: its parameters (of which only `nLim` changes), the
      optimizer state holding θ, the iteration counter and the unpadded
      shape of the last batch. */
  class Model {
    var params: Params
    var state: OptState
    var iter: nat
    var currentN: nat
    var currentM: nat
    const opt: Optimizer
    const rpf: nat
    /** `onp.ones((N_lim, M_lim))` at construction; it is not resized by growth. */
    const ones: Matrix
    const grad: Gradient
    const loss: Loss

    /** θ fits the current capacity and every optimizer step keeps its shapes. */
    ghost predicate Shaped()
      reads this
    {
      WellShaped(state.packed, params.nLim, params.dh, params.ds) && opt.KeepsShapes()
    }

    ghost predicate Valid()
      reads this
    {
      Shaped() && currentN <= params.nLim
    }

    /** `__init__`: the checks of `Configure` succeed; θ goes into a fresh
        optimizer state and the counters start at zero. */
    constructor (p: RawParams, theta: Option<RawTheta>, optimizer: Option<Optimizer>, rpf: nat, grad: Gradient, loss: Loss)
      requires Configure(p, theta, optimizer).Success?
      requires optimizer.Some? ==> optimizer.value.KeepsShapes()
      ensures Valid()
      ensures var setup := Configure(p, theta, optimizer).value;
        && params == setup.params && opt == setup.opt && state == opt.Init(setup.theta)
        && ones == Ones(params.nLim, params.mLim)
      ensures iter == 0 && currentN == 0 && currentM == 0
      ensures this.rpf == rpf && this.grad == grad && this.loss == loss
    {
      var setup := Configure(p, theta, optimizer).value;
      params := setup.params;
      opt := setup.opt;
      state := setup.opt.Init(setup.theta);
      this.rpf := rpf;
      ones := Ones(setup.params.nLim, setup.params.mLim);
      this.grad := grad;
      this.loss := loss;
      currentN := 0;
      currentM := 0;
      iter := 0;
    }

    /** `_increase_θ_size`: doubles the capacity, zero-pads every tensor of
        θ and restarts the optimizer from the grown θ. */
    method IncreaseThetaSize()
      requires Shaped()
      modifies this
      ensures Shaped()
      ensures params == old(params).(nLim := 2 * old(params.nLim))
      ensures state == opt.Init(GrowTheta(old(state.packed), old(params.nLim), params.dh, params.ds))
      ensures iter == old(iter) && currentN == old(currentN) && currentM == old(currentM)
    {
      var n := params.nLim;
      var t := opt.GetParams(state);
      var w := ConcatCols(t.w, Zeros(n, n));
      w := ConcatRows(w, Zeros(n, 2 * n));
      var h := ConcatRows(t.h, Zeros(n, params.dh));
      var b := ConcatRows(t.b, Zeros(n, 1));
      var k := ConcatRows(t.k, Zeros(n, params.ds));
      params := params.(nLim := 2 * n);
      state := opt.Init(Theta(w, h, k, b));
    }

    /** The growth loop of `_check_arrays`: doublings until `rows` neurons fit. */
    method GrowTo(rows: nat)
      requires Shaped() && (rows <= params.nLim || params.nLim > 0)
      modifies this
      ensures Shaped() && rows <= params.nLim
      ensures params == GrownParams(old(params), rows)
      ensures state == Grown(opt, old(state), old(params), rows)
      ensures iter == old(iter) && currentN == old(currentN) && currentM == old(currentM)
    {
      ghost var n0 := params.nLim;
      ghost var k := 0;
      while rows > params.nLim
        invariant Shaped() && iter == old(iter) && currentN == old(currentN) && currentM == old(currentM)
        invariant params == old(params).(nLim := n0 * Pow2(k))
        invariant params.nLim > 0 || rows <= params.nLim
        invariant GrowthSteps(n0, rows) == k + GrowthSteps(params.nLim, rows)
        invariant state == if k == 0 then old(state) else opt.Init(GrowThetaTimes(old(state.packed), n0, params.dh, params.ds, k))
        decreases GrowthSteps(params.nLim, rows)
      {
        IncreaseThetaSize();
        k := k + 1;
        Pow2Step(n0, k);
      }
    }

    /** `_check_arrays`: the shape assertions (no state change when they
        fail), then the unpadded shape is recorded, the capacity grows
        until every row fits, and the data are padded. */
    method CheckArrays(y: Matrix, s: Matrix, indicator: Option<Matrix>) returns (r: Result<Batch, Error>)
      requires Valid() && y.Valid() && s.Valid() && (indicator.Some? ==> indicator.value.Valid())
      requires y.cols == s.cols && s.rows == params.ds ==> y.rows <= params.nLim || params.nLim > 0
      modifies this
      ensures Valid() && iter == old(iter)
      ensures !(y.cols == s.cols && s.rows == old(params.ds)) ==>
        params == old(params) && state == old(state) && currentN == old(currentN) && currentM == old(currentM)
      ensures y.cols == s.cols && s.rows == old(params.ds) ==>
        && currentN == y.rows && currentM == y.cols
        && params == GrownParams(old(params), y.rows)
        && state == Grown(opt, old(state), old(params), y.rows)
        && y.rows <= params.nLim
      ensures r == Checked(y, s, indicator, params)
    {
      if y.cols != s.cols {
        return Failure(WidthMismatch);
      }
      if s.rows != params.ds {
        return Failure(StimulusRows);
      }
      currentN, currentM := y.rows, y.cols;
      GrowTo(y.rows);
      r := PadBatch(y, s, indicator, params);
    }

    /** Whether the update traces `_ll` at all: `_fit_ll` always does,
        `_fit` only when its loop runs, that is when `rpf > 0`. */
    predicate Traces(returnLl: bool)
      reads this
    {
      returnLl || rpf > 0
    }

    /** The update part of the synthetic `fit`, on the batch of step `it`:
        `_fit_ll` (the loss and one step) with `return_ll`, otherwise
        `_fit`'s `rpf` steps. When `_ll` is traced, a batch of shapes it
        cannot combine raises before θ is replaced; with `rpf == 0` and no
        `return_ll` nothing is traced and any batch leaves θ as it is. Only
        the optimizer state changes. */
    method Train(returnLl: bool, it: nat, batch: Batch) returns (r: Result<Option<real>, Error>)
      requires Valid()
      modifies this
      ensures Valid() && params == old(params) && iter == old(iter)
      ensures currentN == old(currentN) && currentM == old(currentM)
      ensures Traces(returnLl) && !Trainable(params, batch) ==> r == Failure(BatchShape) && state == old(state)
      ensures !Traces(returnLl) || Trainable(params, batch) ==>
        && state == (if returnLl then Step(opt, grad, params, it, batch, old(state))
                     else Repeat(opt, grad, params, it, batch, old(state), rpf))
        && r == Success(if returnLl then Some(loss(old(state).packed, params, batch)) else None)
    {
      if Traces(returnLl) && !Trainable(params, batch) {
        return Failure(BatchShape);
      }
      var st0 := state;
      if returnLl {
        var ll := loss(opt.GetParams(st0), params, batch);
        RepeatKeepsShapes(opt, grad, params, it, batch, st0, 1);
        state := Step(opt, grad, params, it, batch, st0);
        r := Success(Some(ll));
      } else {
        var st := FitSteps(opt, grad, params, rpf, it, batch, st0);
        RepeatKeepsShapes(opt, grad, params, it, batch, st0, rpf);
        state := st;
        r := Success(None);
      }
    }

    /** The `weights` property: the coupling block of the neurons last seen. */
    function Weights(): (r: Matrix)
      reads this
      requires Valid()
      ensures r.Valid() && r.rows == currentN && r.cols == currentN
      ensures forall i, j :: 0 <= i < currentN && 0 <= j < currentN ==> r.cells[i][j] == state.packed.w.cells[i][j]
    {
      TopLeft(opt.GetParams(state).w, currentN, currentN)
    }
  }

  /** The `(m, n, y, s, indicator)` a synthetic-data fit step trains on.
      Offline: the width-`M_lim` window starting at the drawn offset, with
      the construction-time ones as mask. Online while `iter < M_lim`: the
      growing window of columns `0..iter` (inclusive), normalised by
      `_check_arrays`. Online afterwards: the sliding window of columns
      `iter - M_lim .. iter - 1`, neither grown nor padded. */
  function Window(p: Params, offline: bool, y: Matrix, s: Matrix, rand: seq<nat>, ones: Matrix, it: nat,
                  indicator: Option<Matrix>): Result<Batch, Error>
    requires y.Valid() && s.Valid() && (indicator.Some? ==> indicator.value.Valid())
    requires offline ==> it % 10000 < |rand|
    requires !offline && it < p.mLim && s.rows == p.ds ==> y.rows <= p.nLim
  {
    if offline then
      var i := rand[it % 10000];
      Success(Batch(p.mLim, p.nLim, Slice(y, i, i + p.mLim), Slice(s, i, i + p.mLim), ones))
    else if it < p.mLim then
      Checked(Slice(y, 0, it + 1), Slice(s, 0, it + 1), indicator, p)
    else
      Success(Batch(p.mLim, p.nLim, Slice(y, it - p.mLim, it), Slice(s, it - p.mLim, it), indicator.GetOr(ones)))
  }

  /** Offline, a drawn offset in `[0, W - M_lim]` gives a window of width
      exactly `M_lim` read from the data at that offset. */
  lemma WindowOffline(p: Params, y: Matrix, s: Matrix, rand: seq<nat>, ones: Matrix, it: nat, indicator: Option<Matrix>)
    requires y.Valid() && s.Valid() && (indicator.Some? ==> indicator.value.Valid()) && y.cols == s.cols
    requires it % 10000 < |rand| && rand[it % 10000] + p.mLim <= y.cols
    ensures var r := Window(p, true, y, s, rand, ones, it, indicator);
      var i := rand[it % 10000];
      && r.Success? && r.value.m == p.mLim && r.value.n == p.nLim && r.value.indicator == ones
      && r.value.y.cols == p.mLim && r.value.s.cols == p.mLim
      && (forall a, c :: 0 <= a < y.rows && 0 <= c < p.mLim ==> r.value.y.cells[a][c] == y.cells[a][i + c])
      && (forall a, c :: 0 <= a < s.rows && 0 <= c < p.mLim ==> r.value.s.cells[a][c] == s.cells[a][i + c])
      && (Trainable(p, r.value) <==>
            && y.rows == p.nLim && s.rows == p.ds && ShapeRules.HistoryFits(p)
            && ShapeRules.MaskFits(ShapeOf(ones), p.nLim, ShapeRules.RateWidth(p)))
  {
    var i := rand[it % 10000];
    ShapeRules.GlmLlFullWidth(p, ShapeOf(Slice(y, i, i + p.mLim)), ShapeOf(Slice(s, i, i + p.mLim)), ShapeOf(ones));
  }

  /** Online while `iter < M_lim`: the batch is the data up to and including
      column `iter`, zero-padded, reporting width `iter + 1`. */
  lemma WindowGrowing(p: Params, y: Matrix, s: Matrix, rand: seq<nat>, ones: Matrix, it: nat)
    requires y.Valid() && s.Valid() && y.cols == s.cols && s.rows == p.ds && y.rows <= p.nLim
    requires it < p.mLim && it < y.cols
    ensures var r := Window(p, false, y, s, rand, ones, it, None);
      && r.Success? && r.value.m == it + 1 && r.value.n == y.rows
      && r.value.y.rows == p.nLim && r.value.y.cols == p.mLim
      && (forall a, c :: 0 <= a < p.nLim && 0 <= c < p.mLim ==>
            r.value.y.cells[a][c] == if a < y.rows && c <= it then y.cells[a][c] else 0.0)
      && Total(r.value.indicator.cells) == (y.rows * (it + 1)) as real
      && (Trainable(p, r.value) <==> ShapeRules.HistoryFits(p))
  {
    var ys := Slice(y, 0, it + 1);
    var ss := Slice(s, 0, it + 1);
    PadMaskCount(ys, ss, p);
    var b := Window(p, false, y, s, rand, ones, it, None).value;
    ShapeRules.GlmLlFullWidth(p, ShapeOf(b.y), ShapeOf(b.s), ShapeOf(b.indicator));
  }

  /** Online from `iter = M_lim` on: the batch is columns `iter - M_lim`
      through `iter - 1` of the data as they are; column `iter` is not in it. */
  lemma WindowSliding(p: Params, y: Matrix, s: Matrix, rand: seq<nat>, ones: Matrix, it: nat, indicator: Option<Matrix>)
    requires y.Valid() && s.Valid() && (indicator.Some? ==> indicator.value.Valid()) && y.cols == s.cols
    requires p.mLim <= it <= y.cols
    ensures var r := Window(p, false, y, s, rand, ones, it, indicator);
      && r.Success? && r.value.m == p.mLim && r.value.n == p.nLim
      && r.value.y.rows == y.rows && r.value.y.cols == p.mLim && r.value.s.rows == s.rows
      && r.value.indicator == (if indicator.Some? then indicator.value else ones)
      && (forall a, c :: 0 <= a < y.rows && 0 <= c < p.mLim ==> r.value.y.cells[a][c] == y.cells[a][it - p.mLim + c])
      && var mask := if indicator.Some? then indicator.value else ones;
         (Trainable(p, r.value) <==>
            && y.rows == p.nLim && s.rows == p.ds && ShapeRules.HistoryFits(p)
            && ShapeRules.MaskFits(ShapeOf(mask), p.nLim, ShapeRules.RateWidth(p)))
  {
    var mask := if indicator.Some? then indicator.value else ones;
    ShapeRules.GlmLlFullWidth(p, ShapeOf(Slice(y, it - p.mLim, it)), ShapeOf(Slice(s, it - p.mLim, it)), ShapeOf(mask));
  }

  /** `GLMJaxSynthetic`: a fitter that owns its data `(y, s)` and picks the
      window of each fit step itself. */
  class Synthetic {
    const base: Model
    const y: Matrix
    const s: Matrix
    const offline: bool
    /** The current batch of 10000 random window offsets (offline mode). */
    var rand: seq<nat>

    ghost predicate Valid()
      reads this, base
    {
      && base.Valid() && y.Valid() && s.Valid() && y.cols == s.cols
      && (offline ==> base.params.mLim <= y.cols)
      && (offline && base.iter % 10000 != 0 ==>
            |rand| == 10000 && forall k :: 0 <= k < |rand| ==> rand[k] + base.params.mLim <= y.cols)
    }

    /** `__init__`: the base fitter, then (offline) an empty offset batch and
        the full capacity as current shape; the data widths must agree and,
        offline, be at least `M_lim`. */
    constructor (p: RawParams, theta: Option<RawTheta>, optimizer: Option<Optimizer>, rpf: nat, grad: Gradient, loss: Loss,
                 y: Matrix, s: Matrix, offline: bool)
      requires Configure(p, theta, optimizer).Success?
      requires optimizer.Some? ==> optimizer.value.KeepsShapes()
      requires y.Valid() && s.Valid() && y.cols == s.cols
      requires offline ==> Configure(p, theta, optimizer).value.params.mLim <= y.cols
      ensures Valid() && fresh(base) && this.y == y && this.s == s && this.offline == offline && rand == []
      ensures var setup := Configure(p, theta, optimizer).value;
        && base.params == setup.params && base.opt == setup.opt && base.state == base.opt.Init(setup.theta)
        && base.ones == Ones(setup.params.nLim, setup.params.mLim) && base.iter == 0
        && base.rpf == rpf && base.grad == grad && base.loss == loss
        && (offline ==> base.currentN == base.params.nLim && base.currentM == base.params.mLim)
        && (!offline ==> base.currentN == 0 && base.currentM == 0)
    {
      var m := new Model(p, theta, optimizer, rpf, grad, loss);
      if offline {
        m.currentM := m.params.mLim;
        m.currentN := m.params.nLim;
      }
      base := m;
      this.y := y;
      this.s := s;
      this.offline := offline;
      rand := [];
    }

    /** The optimizer state a fit step starts from: grown when the step goes
        through `_check_arrays` with well-formed data, untouched otherwise. */
    ghost function StartState(st: OptState, p: Params, it: nat): OptState
      reads this
      requires WellShaped(st.packed, p.nLim, p.dh, p.ds)
      requires !offline && it < p.mLim && s.rows == p.ds ==> p.nLim > 0 || y.rows <= p.nLim
    {
      if !offline && it < p.mLim && s.rows == p.ds then Grown(base.opt, st, p, y.rows) else st
    }

    /** The window part of `fit` (the branches before the update): offline,
        a new batch of offsets `draw` (the `randint` draws, each in
        `[0, W - M_lim]`) is taken every 10000 iterations; the arguments are
        those `Window` describes; only the growing window touches the base
        fitter's capacity and current shape. */
    method NextWindow(indicator: Option<Matrix>, draw: seq<nat>) returns (args: Result<Batch, Error>)
      requires Valid() && (indicator.Some? ==> indicator.value.Valid())
      requires offline && base.iter % 10000 == 0 ==>
        |draw| == 10000 && forall k :: 0 <= k < |draw| ==> draw[k] + base.params.mLim <= y.cols
      requires !offline && base.iter < base.params.mLim && s.rows == base.params.ds ==>
        y.rows <= base.params.nLim || base.params.nLim > 0
      modifies this, base
      ensures Valid() && base.iter == old(base.iter)
      ensures rand == if offline && old(base.iter) % 10000 == 0 then draw else old(rand)
      ensures offline ==> |rand| == 10000 && forall k :: 0 <= k < |rand| ==> rand[k] + base.params.mLim <= y.cols
      ensures var grows := !offline && old(base.iter) < old(base.params.mLim) && s.rows == old(base.params.ds);
        && (grows ==> base.params == GrownParams(old(base.params), y.rows)
                      && y.rows <= base.params.nLim
                      && base.currentN == y.rows && base.currentM == Slice(y, 0, old(base.iter) + 1).cols)
        && (!grows ==> base.params == old(base.params) && base.currentN == old(base.currentN) && base.currentM == old(base.currentM))
      ensures base.state == old(StartState(base.state, base.params, base.iter))
      ensures args == Window(base.params, offline, y, s, rand, base.ones, old(base.iter), indicator)
    {
      var it := base.iter;
      if offline {
        if it % 10000 == 0 {
          rand := draw;
        }
        var i := rand[it % 10000];
        args := Success(Batch(base.params.mLim, base.params.nLim, Slice(y, i, i + base.params.mLim),
                              Slice(s, i, i + base.params.mLim), base.ones));
      } else if it < base.params.mLim {
        args := base.CheckArrays(Slice(y, 0, it + 1), Slice(s, 0, it + 1), indicator);
      } else {
        var mask := if indicator.Some? then indicator.value else base.ones;
        args := Success(Batch(base.params.mLim, base.params.nLim, Slice(y, it - base.params.mLim, it),
                              Slice(s, it - base.params.mLim, it), mask));
      }
    }

    /** `fit`: the window of `NextWindow`, then one loss-and-step
        (`return_ll`) or `rpf` steps, all under the old `iter`, after which
        `iter` goes up by exactly one. A window that fails, or a batch whose
        shapes a traced `_ll` cannot combine, leaves `iter` and θ as they
        were after the window was taken. */
    method Fit(returnLl: bool, indicator: Option<Matrix>, draw: seq<nat>) returns (r: Result<Option<real>, Error>)
      requires Valid() && (indicator.Some? ==> indicator.value.Valid())
      requires offline && base.iter % 10000 == 0 ==>
        |draw| == 10000 && forall k :: 0 <= k < |draw| ==> draw[k] + base.params.mLim <= y.cols
      requires !offline && base.iter < base.params.mLim && s.rows == base.params.ds ==>
        y.rows <= base.params.nLim || base.params.nLim > 0
      modifies this, base
      ensures Valid()
      ensures rand == if offline && old(base.iter) % 10000 == 0 then draw else old(rand)
      ensures var grows := !offline && old(base.iter) < old(base.params.mLim) && s.rows == old(base.params.ds);
        && (grows ==> base.params == GrownParams(old(base.params), y.rows)
                      && y.rows <= base.params.nLim
                      && base.currentN == y.rows && base.currentM == Slice(y, 0, old(base.iter) + 1).cols)
        && (!grows ==> base.params == old(base.params) && base.currentN == old(base.currentN) && base.currentM == old(base.currentM))
      ensures var it := old(base.iter);
        var st0 := old(StartState(base.state, base.params, base.iter));
        var args := Window(base.params, offline, y, s, rand, base.ones, it, indicator);
        && (args.Failure? ==> r == Failure(args.error) && base.iter == it && base.state == st0)
        && (args.Success? && base.Traces(returnLl) && !Trainable(base.params, args.value) ==>
              r == Failure(BatchShape) && base.iter == it && base.state == st0)
        && (args.Success? && (!base.Traces(returnLl) || Trainable(base.params, args.value)) ==>
              && base.iter == it + 1 && r.Success?
              && base.state == (if returnLl then Step(base.opt, base.grad, base.params, it, args.value, st0)
                                else Repeat(base.opt, base.grad, base.params, it, args.value, st0, base.rpf))
              && r.value == (if returnLl then Some(base.loss(st0.packed, base.params, args.value)) else None))
    {
      var it := base.iter;
      var args := NextWindow(indicator, draw);
      if args.Failure? {
        return Failure(args.error);
      }
      r := base.Train(returnLl, it, args.value);
      if r.Success? {
        base.iter := it + 1;
      }
    }
  }
}
