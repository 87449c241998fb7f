/** The array shapes that `_predict` and `_ll` build (GLM/glm_jax.py and
    LNP/glm_jax.py), under NumPy's rules: broadcasting in element-wise
    operations, matrix products, Python slices and horizontal stacking.
    `None` is a shape error, which JAX raises while tracing the function,
    before any value is computed. */
module ShapeRules {
  import opened Common
  import opened Params

  datatype Shape = Shape(rows: nat, cols: nat)

  /** One dimension under broadcasting: equal sizes, or a size 1 that
      stretches to the other size (0 included). */
  function BroadcastDim(a: nat, b: nat): Option<nat>
  {
    if a == b || b == 1 then Some(a) else if a == 1 then Some(b) else None
  }

  /** The shape of an element-wise operation on two 2-D arrays. */
  function Broadcast(x: Option<Shape>, y: Option<Shape>): Option<Shape>
  {
    if x.None? || y.None? then None
    else
      var r := BroadcastDim(x.value.rows, y.value.rows);
      var c := BroadcastDim(x.value.cols, y.value.cols);
      if r.Some? && c.Some? then Some(Shape(r.value, c.value)) else None
  }

  /** `a @ b` */
  function MatMul(x: Shape, y: Shape): Option<Shape>
  {
    if x.cols == y.rows then Some(Shape(x.rows, y.cols)) else None
  }

  /** A Python slice bound resolved against a length: negative bounds count
      from the end; both ends are clipped to `[0, len]`. */
  function SliceBound(len: nat, x: int): nat
  {
    if x < 0 then (if x + len < 0 then 0 else x + len)
    else if x > len then len else x
  }

  /** The width of `a[:, start:stop]` for an array `len` columns wide. */
  function SliceWidth(len: nat, start: int, stop: int): nat
  {
    var lo := SliceBound(len, start);
    var hi := SliceBound(len, stop);
    if hi <= lo then 0 else hi - lo
  }

  /** `np.hstack` of two 2-D arrays: the row counts must agree. */
  function HStack(x: Shape, y: Option<Shape>): Option<Shape>
  {
    if y.Some? && x.rows == y.value.rows then Some(Shape(x.rows, x.cols + y.value.cols)) else None
  }

  /** The lag loop of `_convolve` from lag `i` on: the accumulator `cvd`
      plus the tap column `(N_lim, 1)` times `y[:, i : M_lim - (dh - i)]`. */
  function LagTerms(p: Params, y: Shape, acc: Shape, i: nat): Option<Shape>
    decreases p.dh - i
  {
    if i >= p.dh then Some(acc)
    else
      var term := Broadcast(Some(Shape(p.nLim, 1)), Some(Shape(y.rows, SliceWidth(y.cols, i, p.mLim - (p.dh - i)))));
      var acc' := Broadcast(Some(acc), term);
      if acc'.None? then None else LagTerms(p, y, acc'.value, i + 1)
  }

  /** `_convolve`: a zero accumulator `dh` columns narrower than the spikes
      (a negative width raises), the lag loop, then `dh` zero columns in
      front. */
  function ConvolveShape(p: Params, y: Shape): Option<Shape>
  {
    if y.cols < p.dh then None
    else HStack(Shape(p.nLim, p.dh), LagTerms(p, y, Shape(y.rows, y.cols - p.dh), 0))
  }

  /** The log-rate of `_predict` (and the linear predictor of LNP's `_ll`):
      `b + (k @ s + coupling + history)`, where the coupling is `w @ y`
      sliced to columns `dh - 1 .. M_lim - 2` behind `dh` zero columns. */
  function PredictShape(p: Params, y: Shape, s: Shape): Option<Shape>
  {
    var stim := MatMul(Shape(p.nLim, p.ds), s);
    var hist := ConvolveShape(p, y);
    var full := MatMul(Shape(p.nLim, p.nLim), y);
    var weight := if full.None? then None
                  else HStack(Shape(p.nLim, p.dh), Some(Shape(p.nLim, SliceWidth(full.value.cols, p.dh - 1, p.mLim - 1))));
    Broadcast(Some(Shape(p.nLim, 1)), Broadcast(Broadcast(stim, weight), hist))
  }

  /** The GLM `_ll` raises no shape error: the log-rate exists, `r̂ *=
      indicator` broadcasts, and so does `y * log_r̂`. */
  predicate GlmLlAccepts(p: Params, y: Shape, s: Shape, indicator: Shape)
  {
    var logRate := PredictShape(p, y, s);
    Broadcast(logRate, Some(indicator)).Some? && Broadcast(Some(y), logRate).Some?
  }

  /** The LNP `_ll` raises no shape error: the linear predictor exists and
      `y * log_r̂` broadcasts. */
  predicate LnpLlAccepts(p: Params, y: Shape, s: Shape)
  {
    Broadcast(Some(y), PredictShape(p, y, s)).Some?
  }

  /** A mask broadcasts onto an `n x m` rate array. */
  predicate MaskFits(indicator: Shape, n: nat, m: nat)
  {
    (indicator.rows == n || indicator.rows == 1 || n == 1) && (indicator.cols == m || indicator.cols == 1 || m == 1)
  }

  /** The history lengths for which a full-width window is accepted:
      `1..M_lim` (output `N_lim x M_lim`), or none at all when `M_lim <= 1`
      (the coupling slice is empty and the output `N_lim x 0`). */
  predicate HistoryFits(p: Params)
  {
    (1 <= p.dh <= p.mLim) || (p.dh == 0 && p.mLim <= 1)
  }

  /** The width of the log-rate of an accepted full-width window. */
  function RateWidth(p: Params): nat
  {
    if p.dh == 0 then 0 else p.mLim
  }

  /** Over a full-width window of `N_lim` rows every lag term has the
      accumulator's shape, so the loop leaves it as it is. */
  lemma {:induction false} LagTermsFullWidth(p: Params, i: nat)
    requires p.dh <= p.mLim && i <= p.dh
    ensures LagTerms(p, Shape(p.nLim, p.mLim), Shape(p.nLim, p.mLim - p.dh), i) == Some(Shape(p.nLim, p.mLim - p.dh))
    decreases p.dh - i
  {
    if i < p.dh {
      assert SliceWidth(p.mLim, i, p.mLim - (p.dh - i)) == p.mLim - p.dh;
      LagTermsFullWidth(p, i + 1);
    }
  }

  /** For spikes and stimulus of full width `M_lim`, the log-rate exists
      exactly when the spikes have `N_lim` rows, the stimulus `ds` rows and
      the history length fits; it is then `N_lim x M_lim`, or `N_lim x 0`
      without history. */
  lemma PredictFullWidth(p: Params, y: Shape, s: Shape)
    requires y.cols == p.mLim && s.cols == p.mLim
    ensures PredictShape(p, y, s).Some? <==> y.rows == p.nLim && s.rows == p.ds && HistoryFits(p)
    ensures PredictShape(p, y, s).Some? ==> PredictShape(p, y, s).value == Shape(p.nLim, RateWidth(p))
  {
    if y.rows == p.nLim && s.rows == p.ds && p.dh <= p.mLim {
      LagTermsFullWidth(p, 0);
      if p.dh == 0 {
        assert SliceWidth(p.mLim, -1, p.mLim - 1) == 0;
      } else {
        assert SliceWidth(p.mLim, p.dh - 1, p.mLim - 1) == p.mLim - p.dh;
      }
    }
  }

  /** The GLM `_ll` on a full-width window: accepted exactly when the
      spikes have `N_lim` rows, the stimulus `ds` rows, the history length
      fits and the mask broadcasts onto the log-rate. */
  lemma GlmLlFullWidth(p: Params, y: Shape, s: Shape, indicator: Shape)
    requires y.cols == p.mLim && s.cols == p.mLim
    ensures GlmLlAccepts(p, y, s, indicator) <==>
      y.rows == p.nLim && s.rows == p.ds && HistoryFits(p) && MaskFits(indicator, p.nLim, RateWidth(p))
  {
    PredictFullWidth(p, y, s);
  }

  /** The LNP `_ll` on a full-width window: accepted exactly when the
      spikes have `N_lim` rows, the stimulus `ds` rows and the history
      length fits. */
  lemma LnpLlFullWidth(p: Params, y: Shape, s: Shape)
    requires y.cols == p.mLim && s.cols == p.mLim
    ensures LnpLlAccepts(p, y, s) <==> y.rows == p.nLim && s.rows == p.ds && HistoryFits(p)
  {
    PredictFullWidth(p, y, s);
  }

  /** A window narrower than `M_lim` can still pass by broadcasting: with
      `dh = 1` and `M_lim = 2`, a one-column window (a sliding window that
      has run past the end of the data) is accepted. */
  lemma NarrowWindowAccepted(p: Params)
    requires p.dh == 1 && p.mLim == 2
    ensures GlmLlAccepts(p, Shape(p.nLim, 1), Shape(p.ds, 1), Shape(p.nLim, p.mLim))
    ensures PredictShape(p, Shape(p.nLim, 1), Shape(p.ds, 1)) == Some(Shape(p.nLim, 2))
  {
    assert SliceWidth(1, 0, 1) == 1;
    assert LagTerms(p, Shape(p.nLim, 1), Shape(p.nLim, 0), 0) == Some(Shape(p.nLim, 0));
  }
}
