/** The linear predictor of the Poisson GLM over padded buffers: the
    history-filter convolution, the one-step-shifted coupling term and the
    log-rate they add up to. Every term at time column `t` reads spikes
    only from columns before `t`. */
module CausalTerms {
  import opened Common
  import opened Matrices
  import opened Params

  /** The sum of `a[k] * b[start + k]` over `k < n`. */
  function LagSum(a: seq<real>, b: seq<real>, start: nat, n: nat): real
    requires n <= |a| && start + n <= |b|
  {
    if n == 0 then 0.0 else LagSum(a, b, start, n - 1) + a[n - 1] * b[start + n - 1]
  }

  /** A lag sum reads `b` only on the window `[start, start + n)`. */
  lemma {:induction false} LagSumReadsWindow(a: seq<real>, b: seq<real>, b': seq<real>, start: nat, n: nat)
    requires n <= |a| && start + n <= |b| && start + n <= |b'|
    requires forall k :: start <= k < start + n ==> b[k] == b'[k]
    ensures LagSum(a, b, start, n) == LagSum(a, b', start, n)
  {
    if n > 0 {
      LagSumReadsWindow(a, b, b', start, n - 1);
    }
  }

  /** The history term of neuron `i` at time `t`: nothing while `t < dh`,
      then filter tap `k` weighs the spike count `dh - k` steps back. */
  function HistTerm(h: Matrix, y: Matrix, dh: nat, i: nat, t: nat): real
    requires h.Valid() && y.Valid() && i < h.rows && i < y.rows && dh <= h.cols && t < y.cols
  {
    if t < dh then 0.0 else LagSum(h.cells[i], y.cells[i], t - dh, dh)
  }

  /** The history term at time `t` reads only the neuron's own spikes
      before `t`. */
  lemma HistTermCausal(h: Matrix, y: Matrix, y': Matrix, dh: nat, i: nat, t: nat)
    requires h.Valid() && y.Valid() && y'.Valid() && y.rows == y'.rows && y.cols == y'.cols
    requires i < h.rows && i < y.rows && dh <= h.cols && t < y.cols
    requires forall c :: 0 <= c < t ==> y.cells[i][c] == y'.cells[i][c]
    ensures HistTerm(h, y, dh, i, t) == HistTerm(h, y', dh, i, t)
  {
    if t >= dh {
      LagSumReadsWindow(h.cells[i], y.cells[i], y'.cells[i], t - dh, dh);
    }
  }

  /** `_convolve`: `cvd += h[:, i] * y[:, i : M_lim - (dh - i)]` for each
      lag `i`, then `dh` zero columns in front. */
  method Convolve(p: Params, y: Matrix, h: Matrix) returns (r: Matrix)
    requires y.Valid() && h.Valid() && y.rows == p.nLim && h.rows == p.nLim
    requires y.cols == p.mLim && p.dh <= p.mLim && p.dh <= h.cols
    ensures r.Valid() && r.rows == p.nLim && r.cols == p.mLim
    ensures forall i, t :: 0 <= i < r.rows && 0 <= t < r.cols ==> r.cells[i][t] == HistTerm(h, y, p.dh, i, t)
  {
    var width := y.cols - p.dh;
    var cvd := Zeros(y.rows, width);
    var lag := 0;
    while lag < p.dh
      invariant 0 <= lag <= p.dh
      invariant cvd.Valid() && cvd.rows == y.rows && cvd.cols == width
      invariant forall i, c :: 0 <= i < cvd.rows && 0 <= c < width ==>
        cvd.cells[i][c] == LagSum(h.cells[i], y.cells[i], c, lag)
    {
      var window := Slice(y, lag, p.mLim - (p.dh - lag));
      cvd := Add(cvd, BroadcastMul(ColumnOf(h, lag), window));
      lag := lag + 1;
    }
    r := ConcatCols(Zeros(p.nLim, p.dh), cvd);
  }

  /** The coupling term of `_predict` / `_ll`:
      `hstack((zeros((N_lim, dh)), (w @ y)[:, dh - 1 : M_lim - 1]))`. It is
      zero while `t < dh` and afterwards the network input of step `t - 1`. */
  function Coupling(p: Params, w: Matrix, y: Matrix): (r: Matrix)
    requires w.Valid() && y.Valid() && w.rows == p.nLim && w.cols == y.rows
    requires y.cols == p.mLim && 1 <= p.dh <= p.mLim
    ensures r.Valid() && r.rows == p.nLim && r.cols == p.mLim
    ensures forall i, t :: 0 <= i < p.nLim && 0 <= t < p.mLim ==>
      r.cells[i][t] == if t < p.dh then 0.0 else DotCol(w, i, y, t - 1, w.cols)
  {
    var wy := MatMul(w, y);
    ConcatCols(Zeros(p.nLim, p.dh), Slice(wy, p.dh - 1, p.mLim - 1))
  }

  /** The coupling term at time `t` reads only spikes from before `t`. */
  lemma CouplingCausal(p: Params, w: Matrix, y: Matrix, y': Matrix, t: nat)
    requires w.Valid() && y.Valid() && y'.Valid() && w.rows == p.nLim && w.cols == y.rows
    requires y'.rows == y.rows && y.cols == p.mLim && y'.cols == p.mLim && 1 <= p.dh <= p.mLim && t < p.mLim
    requires forall k, c :: 0 <= k < y.rows && 0 <= c < t ==> y.cells[k][c] == y'.cells[k][c]
    ensures forall i :: 0 <= i < p.nLim ==> Coupling(p, w, y).cells[i][t] == Coupling(p, w, y').cells[i][t]
  {
    if t >= p.dh {
      forall i | 0 <= i < p.nLim
        ensures Coupling(p, w, y).cells[i][t] == Coupling(p, w, y').cells[i][t]
      {
        DotColReadsOneColumn(w, i, y, y', t - 1, w.cols);
      }
    }
  }

  /** The argument of the exponential in `_predict` (GLM, `offset` is
      `log(dt)`) and `_ll` (LNP, `offset` is 0):
      `b + (k @ s + coupling + history) + offset`. */
  function LogRate(p: Params, t: Theta, y: Matrix, s: Matrix, offset: real): (r: Matrix)
    requires WellShaped(t, p.nLim, p.dh, p.ds) && y.Valid() && s.Valid()
    requires y.rows == p.nLim && y.cols == p.mLim && s.rows == p.ds && s.cols == p.mLim && 1 <= p.dh <= p.mLim
    ensures r.Valid() && r.rows == p.nLim && r.cols == p.mLim
  {
    var stim := MatMul(t.k, s);
    var weight := Coupling(p, t.w, y);
    Matrix(p.nLim, p.mLim, seq(p.nLim, i requires 0 <= i < p.nLim =>
      seq(p.mLim, c requires 0 <= c < p.mLim =>
        t.b.cells[i][0] + (stim.cells[i][c] + weight.cells[i][c] + HistTerm(t.h, y, p.dh, i, c)) + offset)))
  }

  /** No future leakage: the log-rate at time `c` is unchanged by any change
      to the spikes at times `>= c` or to the stimulus at times other than `c`. */
  lemma LogRateCausal(p: Params, t: Theta, y: Matrix, y': Matrix, s: Matrix, s': Matrix, offset: real, c: nat)
    requires WellShaped(t, p.nLim, p.dh, p.ds) && y.Valid() && s.Valid() && y'.Valid() && s'.Valid()
    requires y.rows == p.nLim && y.cols == p.mLim && s.rows == p.ds && s.cols == p.mLim && 1 <= p.dh <= p.mLim
    requires y'.rows == p.nLim && y'.cols == p.mLim && s'.rows == p.ds && s'.cols == p.mLim
    requires c < p.mLim
    requires forall i, c' :: 0 <= i < p.nLim && 0 <= c' < c ==> y.cells[i][c'] == y'.cells[i][c']
    requires forall d :: 0 <= d < p.ds ==> s.cells[d][c] == s'.cells[d][c]
    ensures forall i :: 0 <= i < p.nLim ==>
      LogRate(p, t, y, s, offset).cells[i][c] == LogRate(p, t, y', s', offset).cells[i][c]
  {
    CouplingCausal(p, t.w, y, y', c);
    forall i | 0 <= i < p.nLim
      ensures DotCol(t.k, i, s, c, p.ds) == DotCol(t.k, i, s', c, p.ds)
      ensures HistTerm(t.h, y, p.dh, i, c) == HistTerm(t.h, y', p.dh, i, c)
    {
      DotColReadsOneColumn(t.k, i, s, s', c, p.ds);
      HistTermCausal(t.h, y, y', p.dh, i, c);
    }
  }
}
