/** The LNP variant of the fitter (LNP/glm_jax.py): padding by
    concatenation, no mask, the product of the unpadded dimensions as the
    normaliser, an iteration counter that every normalisation advances, and
    an optional offline data set from which fit steps draw random windows. */
module LnpJax {
  import opened Common
  import opened Matrices
  import opened Params
  import ShapeRules

  /** The argument tuple `(curr_mn, y, s)` of `_ll`. */
  datatype Args = Args(currMn: nat, y: Matrix, s: Matrix)

  /** The gradient of `_ll` with respect to θ, and `_ll` itself, taken as given. */
  type Gradient = (Theta, Params, Args) -> Theta
  type Loss = (Theta, Params, Args) -> real

  /** The padding of `_check_arrays`: zero rows appended up to `N_lim`, then
      zero columns appended to `y` and `s` up to `M_lim`. */
  function PadByConcat(y: Matrix, s: Matrix, p: Params): (r: (Matrix, Matrix))
    requires y.Valid() && s.Valid() && y.rows <= p.nLim && s.rows == p.ds && y.cols == s.cols && y.cols <= p.mLim
  {
    var rowsDone := if y.rows < p.nLim then ConcatRows(y, Zeros(p.nLim - y.rows, y.cols)) else y;
    if y.cols < p.mLim then
      (ConcatCols(rowsDone, Zeros(p.nLim, p.mLim - y.cols)), ConcatCols(s, Zeros(p.ds, p.mLim - y.cols)))
    else (rowsDone, s)
  }

  /** Padding by concatenation puts the data in the top-left block of zero
      buffers of the full size: the original entries are unchanged. */
  lemma PadByConcatEmbeds(y: Matrix, s: Matrix, p: Params)
    requires y.Valid() && s.Valid() && y.rows <= p.nLim && s.rows == p.ds && y.cols == s.cols && y.cols <= p.mLim
    ensures PadByConcat(y, s, p) == (Embed(y, p.nLim, p.mLim), Embed(s, p.ds, p.mLim))
  {
    var (y', s') := PadByConcat(y, s, p);
    Ext(y', Embed(y, p.nLim, p.mLim));
    Ext(s', Embed(s, p.ds, p.mLim));
  }

  /** The padding steps of `_check_arrays`: zero rows appended to `y` up to
      `N_lim`, then, for a narrower batch, zero columns appended to `y` and
      `s` up to `M_lim`; a wider batch is refused. */
  method ConcatPad(y: Matrix, s: Matrix, p: Params) returns (r: Result<(Matrix, Matrix), Error>)
    requires y.Valid() && s.Valid() && y.rows <= p.nLim && s.rows == p.ds && y.cols == s.cols
    ensures r.Success? <==> y.cols <= p.mLim
    ensures r.Failure? ==> r.error == TooWide
    ensures r.Success? ==> r.value == (Embed(y, p.nLim, p.mLim), Embed(s, p.ds, p.mLim))
  {
    var y' := y;
    var s' := s;
    if y'.rows < p.nLim {
      y' := ConcatRows(y', Zeros(p.nLim - y'.rows, y'.cols));
    }
    if y'.cols < p.mLim {
      var currSize := y'.cols;
      y' := ConcatCols(y', Zeros(p.nLim, p.mLim - currSize));
      s' := ConcatCols(s', Zeros(p.ds, p.mLim - currSize));
    }
    if y'.cols > p.mLim {
      return Failure(TooWide);
    }
    PadByConcatEmbeds(y, s, p);
    r := Success((y', s'));
  }

  /** `_check_arrays` as a value: the two assertions, the width limit, and
      the padded data with the product of the unpadded dimensions. */
  function Checked(y: Matrix, s: Matrix, p: Params): (r: Result<Args, Error>)
    requires y.Valid() && s.Valid()
    requires y.cols == s.cols && s.rows == p.ds ==> y.rows <= p.nLim
    ensures r.Success? <==> y.cols == s.cols && s.rows == p.ds && y.cols <= p.mLim
    ensures r.Failure? ==> r.error == if y.cols != s.cols then WidthMismatch
                                     else if s.rows != p.ds then StimulusRows else TooWide
    ensures r.Success? ==>
      && r.value.currMn == y.rows * y.cols && r.value.y.Valid() && r.value.s.Valid()
      && r.value.y.rows == p.nLim && r.value.y.cols == p.mLim && r.value.s.rows == p.ds && r.value.s.cols == p.mLim
      && (forall i, j :: 0 <= i < p.nLim && 0 <= j < p.mLim ==>
            r.value.y.cells[i][j] == if i < y.rows && j < y.cols then y.cells[i][j] else 0.0)
      && (forall i, j :: 0 <= i < p.ds && 0 <= j < p.mLim ==>
            r.value.s.cells[i][j] == if j < s.cols then s.cells[i][j] else 0.0)
  {
    if y.cols != s.cols then Failure(WidthMismatch)
    else if s.rows != p.ds then Failure(StimulusRows)
    else if y.cols > p.mLim then Failure(TooWide)
    else Success(Args(y.rows * y.cols, Embed(y, p.nLim, p.mLim), Embed(s, p.ds, p.mLim)))
  }

  /** The part of `_check_arrays` after growth: the padding, the width
      limit and `curr_mn`, the product of the unpadded dimensions. */
  method PadArgs(y: Matrix, s: Matrix, p: Params) returns (r: Result<Args, Error>)
    requires y.Valid() && s.Valid() && y.rows <= p.nLim && s.rows == p.ds && y.cols == s.cols
    ensures r == Checked(y, s, p)
  {
    var padded := ConcatPad(y, s, p);
    if padded.Failure? {
      return Failure(padded.error);
    }
    var currMn := y.cols * y.rows;
    r := Success(Args(currMn, padded.value.0, padded.value.1));
  }

  /** The arguments `_ll` accepts without a shape error, with NumPy's
      broadcasting; any other arguments raise inside `_ll`. */
  predicate Trainable(p: Params, a: Args)
  {
    ShapeRules.LnpLlAccepts(p, ShapeRules.Shape(a.y.rows, a.y.cols), ShapeRules.Shape(a.s.rows, a.s.cols))
  }

  /** Normalised arguments always have the full shape, so `_ll` accepts
      them exactly when the history length fits the window. */
  lemma CheckedTrainable(y: Matrix, s: Matrix, p: Params)
    requires y.Valid() && s.Valid() && (y.cols == s.cols && s.rows == p.ds ==> y.rows <= p.nLim)
    requires Checked(y, s, p).Success?
    ensures Trainable(p, Checked(y, s, p).value) <==> ShapeRules.HistoryFits(p)
  {
    ShapeRules.LnpLlFullWidth(p, ShapeRules.Shape(p.nLim, p.mLim), ShapeRules.Shape(p.ds, p.mLim));
  }

  /** The offline arguments of a fit step: the window of width `M_lim` at
      offset `i`, not padded, with `N_lim * M_lim` as normaliser. */
  function OfflineArgs(p: Params, y: Matrix, s: Matrix, i: nat): Args
    requires y.Valid() && s.Valid()
  {
    Args(p.nLim * p.mLim, Slice(y, i, i + p.mLim), Slice(s, i, i + p.mLim))
  }

  /** An offset drawn from `[0, W - M_lim]` gives a window of width exactly
      `M_lim`, read from the data at that offset. */
  lemma OfflineArgsWindow(p: Params, y: Matrix, s: Matrix, i: nat)
    requires y.Valid() && s.Valid() && i + p.mLim <= y.cols && y.cols <= s.cols
    ensures var a := OfflineArgs(p, y, s, i);
      && a.y.rows == y.rows && a.y.cols == p.mLim && a.s.rows == s.rows && a.s.cols == p.mLim
      && (forall r, c :: 0 <= r < y.rows && 0 <= c < p.mLim ==> a.y.cells[r][c] == y.cells[r][i + c])
      && (forall r, c :: 0 <= r < s.rows && 0 <= c < p.mLim ==> a.s.cells[r][c] == s.cells[r][i + c])
      && (Trainable(p, a) <==> y.rows == p.nLim && s.rows == p.ds && ShapeRules.HistoryFits(p))
  {
    ShapeRules.LnpLlFullWidth(p, ShapeRules.Shape(y.rows, p.mLim), ShapeRules.Shape(s.rows, p.mLim));
  }

  /** One optimizer step: `opt_update(iter, grad(_ll)(θ, ...), θ)`. */
  function Step(opt: Optimizer, grad: Gradient, p: Params, it: nat, args: Args, st: OptState): OptState
  {
    opt.update(it, grad(opt.GetParams(st), p, args), st)
  }

  /** The arguments of a fit step, given the offsets in force after any
      redraw. Every 10000 iterations the offsets are redrawn from the
      offline data, which an online fitter does not have; a redraw range
      `[0, W - M_lim]` must not be empty; a step whose index has no drawn
      offset fails; online steps normalise the caller's data. */
  function Select(p: Params, data: Option<(Matrix, Matrix)>, rand: seq<nat>, it: nat, y: Matrix, s: Matrix): Result<Args, Error>
    requires y.Valid() && s.Valid() && (data.Some? ==> data.value.0.Valid() && data.value.1.Valid())
    requires data.None? && it % 10000 != 0 && y.cols == s.cols && s.rows == p.ds ==> y.rows <= p.nLim
  {
    if it % 10000 == 0 && data.None? then Failure(MissingOfflineData)
    else if it % 10000 == 0 && data.value.0.cols < p.mLim then Failure(EmptyDrawRange)
    else if data.Some? then
      if it % 10000 < |rand| then Success(OfflineArgs(p, data.value.0, data.value.1, rand[it % 10000]))
      else Failure(NoDrawForStep)
    else Checked(y, s, p)
  }

  /** An online fitter can never take the step that falls on a multiple of
      10000, the first one included. */
  lemma OnlineFailsAtRedraw(p: Params, rand: seq<nat>, it: nat, y: Matrix, s: Matrix)
    requires y.Valid() && s.Valid() && (y.cols == s.cols && s.rows == p.ds ==> y.rows <= p.nLim)
    ensures Select(p, None, rand, it, y, s).Success? <==> it % 10000 != 0 && Checked(y, s, p).Success?
  {
  }

  class Model {
    var params: Params
    var state: OptState
    var iter: nat
    var currentN: nat
    var currentM: nat
    /** The offset batch of offline training. */
    var rand: seq<nat>
    const opt: Optimizer
    const grad: Gradient
    const loss: Loss
    /** `offline_data`: the full `(y, s)` when training offline. */
    const data: Option<(Matrix, Matrix)>

    ghost predicate Shaped()
      reads this
    {
      WellShaped(state.packed, params.nLim, params.dh, params.ds) && opt.KeepsShapes()
    }

    /** Every stored offset leaves room for a window of width `M_lim`. */
    ghost predicate Valid()
      reads this
    {
      && Shaped() && currentN <= params.nLim
      && (data.Some? ==> data.value.0.Valid() && data.value.1.Valid()
                         && forall k :: 0 <= k < |rand| ==> rand[k] + params.mLim <= data.value.0.cols)
    }

    /** `__init__`: the checks of `Configure` succeed (a vector `b` is reshaped
        into a column there); the fitter is offline exactly when data are given. */
    constructor (p: RawParams, theta: Option<RawTheta>, optimizer: Option<Optimizer>, grad: Gradient, loss: Loss,
                 offlineData: Option<(Matrix, Matrix)>)
      requires Configure(p, theta, optimizer).Success?
      requires optimizer.Some? ==> optimizer.value.KeepsShapes()
      requires offlineData.Some? ==> offlineData.value.0.Valid() && offlineData.value.1.Valid()
      ensures Valid()
      ensures var setup := Configure(p, theta, optimizer).value;
        && params == setup.params && opt == setup.opt && state == opt.Init(setup.theta)
      ensures iter == 0 && currentN == 0 && currentM == 0 && rand == [] && data == offlineData
      ensures this.grad == grad && this.loss == loss
    {
      var setup := Configure(p, theta, optimizer).value;
      params := setup.params;
      opt := setup.opt;
      state := setup.opt.Init(setup.theta);
      this.grad := grad;
      this.loss := loss;
      data := offlineData;
      rand := [];
      currentN := 0;
      currentM := 0;
      iter := 0;
    }

    /** `_increase_θ_size`: as in the GLM fitter, the capacity doubles, θ
        is zero-padded and the optimizer restarts from it. */
    method IncreaseThetaSize()
      requires Shaped()
      modifies this
      ensures Shaped()
      ensures params == old(params).(nLim := 2 * old(params.nLim))
      ensures state == opt.Init(GrowTheta(old(state.packed), old(params.nLim), params.dh, params.ds))
      ensures iter == old(iter) && currentN == old(currentN) && currentM == old(currentM) && rand == old(rand)
    {
      var n := params.nLim;
      var t := opt.GetParams(state);
      var w := ConcatCols(t.w, Zeros(n, n));
      w := ConcatRows(w, Zeros(n, 2 * n));
      var h := ConcatRows(t.h, Zeros(n, params.dh));
      var b := ConcatRows(t.b, Zeros(n, 1));
      var k := ConcatRows(t.k, Zeros(n, params.ds));
      params := params.(nLim := 2 * n);
      state := opt.Init(Theta(w, h, k, b));
    }

    /** The growth loop of `_check_arrays`: double until `rows` neurons fit. */
    method GrowTo(rows: nat)
      requires Shaped() && (rows <= params.nLim || params.nLim > 0)
      modifies this
      ensures Shaped() && rows <= params.nLim
      ensures params == GrownParams(old(params), rows)
      ensures state == Grown(opt, old(state), old(params), rows)
      ensures iter == old(iter) && currentN == old(currentN) && currentM == old(currentM) && rand == old(rand)
    {
      ghost var n0 := params.nLim;
      ghost var k := 0;
      while rows > params.nLim
        invariant Shaped() && iter == old(iter) && rand == old(rand)
        invariant currentN == old(currentN) && currentM == old(currentM)
        invariant params == old(params).(nLim := n0 * Pow2(k))
        invariant params.nLim > 0 || rows <= params.nLim
        invariant GrowthSteps(n0, rows) == k + GrowthSteps(params.nLim, rows)
        invariant state == if k == 0 then old(state) else opt.Init(GrowThetaTimes(old(state.packed), n0, params.dh, params.ds, k))
        decreases GrowthSteps(params.nLim, rows)
      {
        IncreaseThetaSize();
        k := k + 1;
        Pow2Step(n0, k);
      }
    }

    /** `_check_arrays`: the assertions (no state change when they fail),
        the unpadded shape recorded, growth until every row fits, padding,
        the width limit; each normalisation that succeeds advances `iter`. */
    method CheckArrays(y: Matrix, s: Matrix) returns (r: Result<Args, Error>)
      requires Valid() && y.Valid() && s.Valid()
      requires y.cols == s.cols && s.rows == params.ds ==> y.rows <= params.nLim || params.nLim > 0
      modifies this
      ensures Valid() && rand == old(rand)
      ensures !(y.cols == s.cols && s.rows == old(params.ds)) ==>
        params == old(params) && state == old(state) && currentN == old(currentN) && currentM == old(currentM)
      ensures y.cols == s.cols && s.rows == old(params.ds) ==>
        && currentN == y.rows && currentM == y.cols
        && params == GrownParams(old(params), y.rows)
        && state == Grown(opt, old(state), old(params), y.rows)
        && y.rows <= params.nLim
      ensures r == Checked(y, s, params)
      ensures iter == if r.Success? then old(iter) + 1 else old(iter)
    {
      if y.cols != s.cols {
        return Failure(WidthMismatch);
      }
      if s.rows != params.ds {
        return Failure(StimulusRows);
      }
      currentN, currentM := y.rows, y.cols;
      GrowTo(y.rows);
      r := PadArgs(y, s, params);
      if r.Success? {
        iter := iter + 1;
      }
    }

    /** `ll`: one normalisation (which advances `iter` and may grow the
        capacity), then `_ll`, which raises on arguments it cannot combine. */
    method Ll(y: Matrix, s: Matrix) returns (r: Result<real, Error>)
      requires Valid() && y.Valid() && s.Valid()
      requires y.cols == s.cols && s.rows == params.ds ==> y.rows <= params.nLim || params.nLim > 0
      modifies this
      ensures Valid() && rand == old(rand)
      ensures !(y.cols == s.cols && s.rows == old(params.ds)) ==>
        params == old(params) && state == old(state) && currentN == old(currentN) && currentM == old(currentM)
      ensures y.cols == s.cols && s.rows == old(params.ds) ==>
        && currentN == y.rows && currentM == y.cols
        && params == GrownParams(old(params), y.rows)
        && state == Grown(opt, old(state), old(params), y.rows)
        && y.rows <= params.nLim
      ensures var args := Checked(y, s, params);
        && (args.Failure? ==> r == Failure(args.error) && iter == old(iter))
        && (args.Success? ==> iter == old(iter) + 1)
        && (args.Success? && !Trainable(params, args.value) ==> r == Failure(BatchShape))
        && (args.Success? && Trainable(params, args.value) ==> r == Success(loss(state.packed, params, args.value)))
    {
      var args := CheckArrays(y, s);
      if args.Failure? {
        return Failure(args.error);
      }
      if !Trainable(params, args.value) {
        return Failure(BatchShape);
      }
      r := Success(loss(opt.GetParams(state), params, args.value));
    }

    /** The optimizer state a fit step starts from: grown only when an
        online step normalises well-formed data. */
    ghost function StartState(st: OptState, p: Params, it: nat, y: Matrix, s: Matrix): OptState
      reads this
      requires WellShaped(st.packed, p.nLim, p.dh, p.ds)
      requires data.None? && it % 10000 != 0 && y.cols == s.cols && s.rows == p.ds ==> p.nLim > 0 || y.rows <= p.nLim
    {
      if data.None? && it % 10000 != 0 && y.cols == s.cols && s.rows == p.ds then Grown(opt, st, p, y.rows) else st
    }

    /** The argument part of `fit`: the redraw of the offsets (`draw`, the
        `randint` batch, every entry in `[0, W - M_lim]`) every 10000
        iterations, then the offline window or the normalised online data. */
    method NextArgs(y: Matrix, s: Matrix, draw: seq<nat>) returns (r: Result<Args, Error>)
      requires Valid() && y.Valid() && s.Valid()
      requires data.None? && iter % 10000 != 0 && y.cols == s.cols && s.rows == params.ds ==>
        y.rows <= params.nLim || params.nLim > 0
      requires iter % 10000 == 0 && data.Some? && params.mLim <= data.value.0.cols ==>
        |draw| == 10000 && forall k :: 0 <= k < |draw| ==> draw[k] + params.mLim <= data.value.0.cols
      modifies this
      ensures Valid()
      ensures rand == if old(iter) % 10000 == 0 && data.Some? && params.mLim <= data.value.0.cols then draw else old(rand)
      ensures state == old(StartState(state, params, iter, y, s))
      ensures data.None? && old(iter) % 10000 != 0 && y.cols == s.cols && s.rows == old(params.ds) ==>
        && params == GrownParams(old(params), y.rows)
        && currentN == y.rows && currentM == y.cols && y.rows <= params.nLim
      ensures !(data.None? && old(iter) % 10000 != 0 && y.cols == s.cols && s.rows == old(params.ds)) ==>
        params == old(params) && currentN == old(currentN) && currentM == old(currentM)
      ensures r == Select(params, data, rand, old(iter), y, s)
      ensures iter == if data.None? && r.Success? then old(iter) + 1 else old(iter)
    {
      if iter % 10000 == 0 {
        if data.None? {
          return Failure(MissingOfflineData);
        }
        if data.value.0.cols < params.mLim {
          return Failure(EmptyDrawRange);
        }
        rand := draw;
      }
      if data.Some? {
        if iter % 10000 >= |rand| {
          return Failure(NoDrawForStep);
        }
        r := Success(OfflineArgs(params, data.value.0, data.value.1, rand[iter % 10000]));
      } else {
        r := CheckArrays(y, s);
      }
    }

    /** `fit`: the arguments of `NextArgs`, then one optimizer step under the
        current `iter` (already advanced by an online normalisation), then
        `iter` goes up by one more: two in all online, one offline.
        Arguments `_ll` cannot combine raise before θ is replaced and
        before the second advance. */
    method Fit(y: Matrix, s: Matrix, returnLl: bool, draw: seq<nat>) returns (r: Result<Option<real>, Error>)
      requires Valid() && y.Valid() && s.Valid()
      requires data.None? && iter % 10000 != 0 && y.cols == s.cols && s.rows == params.ds ==>
        y.rows <= params.nLim || params.nLim > 0
      requires iter % 10000 == 0 && data.Some? && params.mLim <= data.value.0.cols ==>
        |draw| == 10000 && forall k :: 0 <= k < |draw| ==> draw[k] + params.mLim <= data.value.0.cols
      modifies this
      ensures Valid()
      ensures rand == if old(iter) % 10000 == 0 && data.Some? && params.mLim <= data.value.0.cols then draw else old(rand)
      ensures data.None? && old(iter) % 10000 != 0 && y.cols == s.cols && s.rows == old(params.ds) ==>
        && params == GrownParams(old(params), y.rows)
        && currentN == y.rows && currentM == y.cols && y.rows <= params.nLim
      ensures !(data.None? && old(iter) % 10000 != 0 && y.cols == s.cols && s.rows == old(params.ds)) ==>
        params == old(params) && currentN == old(currentN) && currentM == old(currentM)
      ensures var st0 := old(StartState(state, params, iter, y, s));
        var args := Select(params, data, rand, old(iter), y, s);
        var it := if data.None? then old(iter) + 1 else old(iter);
        && (args.Failure? ==> r == Failure(args.error) && iter == old(iter) && state == st0)
        && (args.Success? && !Trainable(params, args.value) ==> r == Failure(BatchShape) && iter == it && state == st0)
        && (args.Success? && Trainable(params, args.value) ==>
              && iter == it + 1 && r.Success?
              && state == Step(opt, grad, params, it, args.value, st0)
              && r.value == (if returnLl then Some(loss(st0.packed, params, args.value)) else None))
    {
      var args := NextArgs(y, s, draw);
      if args.Failure? {
        return Failure(args.error);
      }
      if !Trainable(params, args.value) {
        return Failure(BatchShape);
      }
      var st0 := state;
      var ll := loss(opt.GetParams(st0), params, args.value);
      state := Step(opt, grad, params, iter, args.value, st0);
      assert Conforms(state.packed, st0.packed);
      iter := iter + 1;
      r := Success(if returnLl then Some(ll) else None);
    }

    /** The `weights` property: the coupling block of the neurons last seen. */
    function Weights(): (r: Matrix)
      reads this
      requires Valid()
      ensures r.Valid() && r.rows == currentN && r.cols == currentN
      ensures forall i, j :: 0 <= i < currentN && 0 <= j < currentN ==> r.cells[i][j] == state.packed.w.cells[i][j]
    {
      TopLeft(opt.GetParams(state).w, currentN, currentN)
    }
  }
}
