/** The synthetic network generator (GLM/data_gen_network.py): the
    parameter layout of `gen_theta` (neuron types, baselines, signed
    coupling weights, identical history filters) and the simulation loop of
    `_gen_spikes`, whose drive at each step reads only earlier spikes. */
module DataGen {
  import opened Common
  import opened Matrices
  import opened Params
  import opened CausalTerms

  /** The generated θ: the type of each neuron (-1 inhibitory, +1
      excitatory), baselines `b` (a vector), weights `w` (N x N) and
      history filters `h` (N x dh). */
  datatype Network = Network(neutype: seq<real>, b: seq<real>, w: Matrix, h: Matrix)

  /** Python's `int(x)` on a float: truncation toward zero. */
  function Trunc(x: real): (r: int)
    ensures x >= 0.0 ==> 0 <= r && r as real <= x < r as real + 1.0
    ensures x < 0.0 ==> r <= 0 && r as real - 1.0 < x <= r as real
  {
    if x >= 0.0 then x.Floor else -((-x).Floor)
  }

  /** `k` copies of `v`. */
  function Fill(v: real, k: nat): (r: seq<real>)
    ensures |r| == k && forall i :: 0 <= i < k ==> r[i] == v
  {
    seq(k, _ => v)
  }

  /** `k` copies of `v` hold `v` exactly `k` times and nothing else. */
  lemma {:induction false} FillCount(v: real, k: nat)
    ensures multiset(Fill(v, k))[v] == k
    ensures forall x :: x != v ==> multiset(Fill(v, k))[x] == 0
  {
    if k > 0 {
      FillCount(v, k - 1);
      assert Fill(v, k) == Fill(v, k - 1) + [v];
    }
  }

  /** The type vector before shuffling: `nInh` times -1, then `nExc` times +1. */
  function TypeVector(nInh: nat, nExc: nat): seq<real>
  {
    Fill(-1.0, nInh) + Fill(1.0, nExc)
  }

  /** The type vector has `nInh` inhibitory and `nExc` excitatory entries and
      no other values. */
  lemma TypeVectorCounts(nInh: nat, nExc: nat)
    ensures multiset(TypeVector(nInh, nExc))[-1.0] == nInh
    ensures multiset(TypeVector(nInh, nExc))[1.0] == nExc
    ensures forall x :: x != -1.0 && x != 1.0 ==> multiset(TypeVector(nInh, nExc))[x] == 0
  {
    FillCount(-1.0, nInh);
    FillCount(1.0, nExc);
    assert multiset(TypeVector(nInh, nExc)) == multiset(Fill(-1.0, nInh)) + multiset(Fill(1.0, nExc));
  }

  /** `np.linspace(1, 0, dh)[k]`: evenly spaced from 1 down to 0 (a single
      point is 1). */
  function Tau(dh: nat, k: nat): (r: real)
    requires k < dh
    ensures 0.0 <= r <= 1.0
    ensures k == 0 ==> r == 1.0
    ensures dh > 1 && k == dh - 1 ==> r == 0.0
  {
    if dh == 1 then 1.0 else
      var q := (k as real) / ((dh - 1) as real);
      assert q * ((dh - 1) as real) == k as real;
      assert 0.0 <= q <= 1.0;
      1.0 - q
  }

  /** `linspace` spaces its points evenly: neighbouring entries of `tau`
      are `1 / (dh - 1)` apart. */
  lemma TauEvenlySpaced(dh: nat, k: nat)
    requires k + 1 < dh
    ensures Tau(dh, k) - Tau(dh, k + 1) == 1.0 / ((dh - 1) as real)
  {
    var d := (dh - 1) as real;
    assert (k + 1) as real / d - (k as real) / d == ((k + 1) as real - k as real) / d;
  }

  /** Tap `k` of every history filter: `-0.1 * exp(-3 * tau[k])`. */
  function HistoryTap(dh: nat, k: nat, expf: real -> real): real
    requires k < dh
  {
    -0.1 * expf(-3.0 * Tau(dh, k))
  }

  /** `a[mask] = v` for a vector. */
  method AssignWhere(a: array<real>, mask: seq<bool>, v: real)
    requires |mask| == a.Length
    modifies a
    ensures forall i :: 0 <= i < a.Length ==> a[i] == if mask[i] then v else old(a[i])
  {
    var i := 0;
    while i < a.Length
      invariant 0 <= i <= a.Length
      invariant forall k :: 0 <= k < a.Length ==> a[k] == if k < i && mask[k] then v else old(a[k])
    {
      if mask[i] {
        a[i] := v;
      }
      i := i + 1;
    }
  }

  /** `a[mask, :] = row` for a matrix. */
  method AssignRowsWhere(a: array2<real>, mask: seq<bool>, row: seq<real>)
    requires |mask| == a.Length0 && |row| == a.Length1
    modifies a
    ensures forall i, k :: 0 <= i < a.Length0 && 0 <= k < a.Length1 ==>
      a[i, k] == if mask[i] then row[k] else old(a[i, k])
  {
    var i := 0;
    while i < a.Length0
      invariant 0 <= i <= a.Length0
      invariant forall r, k :: 0 <= r < a.Length0 && 0 <= k < a.Length1 ==>
        a[r, k] == if r < i && mask[r] then row[k] else old(a[r, k])
    {
      if mask[i] {
        var k := 0;
        while k < a.Length1
          invariant 0 <= k <= a.Length1
          invariant forall r, c :: 0 <= r < a.Length0 && 0 <= c < a.Length1 ==>
            a[r, c] == if (r < i && mask[r]) || (r == i && c < k) then row[c] else old(a[r, c])
        {
          a[i, k] := row[k];
          k := k + 1;
        }
      }
      i := i + 1;
    }
  }

  /** `a *= m` elementwise. */
  method MulElementwise(a: array2<real>, m: Matrix)
    requires m.Valid() && m.rows == a.Length0 && m.cols == a.Length1
    modifies a
    ensures forall i, j :: 0 <= i < a.Length0 && 0 <= j < a.Length1 ==> a[i, j] == old(a[i, j]) * m.cells[i][j]
  {
    var i := 0;
    while i < a.Length0
      invariant 0 <= i <= a.Length0
      invariant forall r, c :: 0 <= r < a.Length0 && 0 <= c < a.Length1 ==>
        a[r, c] == if r < i then old(a[r, c]) * m.cells[r][c] else old(a[r, c])
    {
      var j := 0;
      while j < a.Length1
        invariant 0 <= j <= a.Length1
        invariant forall r, c :: 0 <= r < a.Length0 && 0 <= c < a.Length1 ==>
          a[r, c] == if r < i || (r == i && c < j) then old(a[r, c]) * m.cells[r][c] else old(a[r, c])
      {
        a[i, j] := a[i, j] * m.cells[i][j];
        j := j + 1;
      }
      i := i + 1;
    }
  }

  /** `a *= v` for a vector `v`: NumPy broadcasts it along the rows, so
      column `j` is scaled by `v[j]`. */
  method MulColumnsBy(a: array2<real>, v: seq<real>)
    requires |v| == a.Length1
    modifies a
    ensures forall i, j :: 0 <= i < a.Length0 && 0 <= j < a.Length1 ==> a[i, j] == old(a[i, j]) * v[j]
  {
    var i := 0;
    while i < a.Length0
      invariant 0 <= i <= a.Length0
      invariant forall r, c :: 0 <= r < a.Length0 && 0 <= c < a.Length1 ==>
        a[r, c] == if r < i then old(a[r, c]) * v[c] else old(a[r, c])
    {
      var j := 0;
      while j < a.Length1
        invariant 0 <= j <= a.Length1
        invariant forall r, c :: 0 <= r < a.Length0 && 0 <= c < a.Length1 ==>
          a[r, c] == if r < i || (r == i && c < j) then old(a[r, c]) * v[c] else old(a[r, c])
      {
        a[i, j] := a[i, j] * v[j];
        j := j + 1;
      }
      i := i + 1;
    }
  }

  /** A shuffle of the type vector of length `n` with `nInh` inhibitory
      entries still has `nInh` entries -1, `n - nInh` entries +1 and no
      other value. */
  lemma ShuffledTypes(neutype: seq<real>, nInh: nat, n: nat)
    requires nInh <= n && multiset(neutype) == multiset(TypeVector(nInh, n - nInh))
    ensures |neutype| == n
    ensures multiset(neutype)[-1.0] == nInh && multiset(neutype)[1.0] == n - nInh
    ensures forall i :: 0 <= i < n ==> neutype[i] == -1.0 || neutype[i] == 1.0
  {
    TypeVectorCounts(nInh, n - nInh);
    assert |neutype| == |multiset(neutype)| == |TypeVector(nInh, n - nInh)|;
    forall i | 0 <= i < n
      ensures neutype[i] == -1.0 || neutype[i] == 1.0
    {
      assert multiset(neutype)[neutype[i]] > 0;
    }
  }

  /** The baselines of `gen_theta`: zeros, then `base` wherever the type is
      +1 and wherever it is -1. */
  method Baselines(neutype: seq<real>, base: real) returns (b: seq<real>)
    requires forall i :: 0 <= i < |neutype| ==> neutype[i] == -1.0 || neutype[i] == 1.0
    ensures |b| == |neutype| && forall i :: 0 <= i < |b| ==> b[i] == base
  {
    var n := |neutype|;
    var a := new real[n](_ => 0.0);
    AssignWhere(a, seq(n, i requires 0 <= i < n => neutype[i] == 1.0), base);
    AssignWhere(a, seq(n, i requires 0 <= i < n => neutype[i] == -1.0), base);
    b := a[..];
  }

  /** `w` is the signed coupling matrix of `gen_theta`: weight `(i, j)` is
      `0.1` times the edge `j -> i` of the adjacency matrix times the type of
      neuron `i`. */
  predicate SignedWeights(w: Matrix, adj: Matrix, neutype: seq<real>)
  {
    && w.Valid() && w.rows == |neutype| && w.cols == |neutype|
    && adj.Valid() && adj.rows == |neutype| && adj.cols == |neutype|
    && forall i, j :: 0 <= i < w.rows && 0 <= j < w.cols ==> w.cells[i][j] == 0.1 * adj.cells[j][i] * neutype[i]
  }

  /** `h` holds the same decaying filter in every row. */
  predicate UniformHistory(h: Matrix, n: nat, dh: nat, expf: real -> real)
  {
    && h.Valid() && h.rows == n && h.cols == dh
    && forall i, k :: 0 <= i < n && 0 <= k < dh ==> h.cells[i][k] == HistoryTap(dh, k, expf)
  }

  /** The weights of `gen_theta`: `0.1`, times the adjacency matrix, times
      the type of the column's neuron, then transposed. */
  method Weights(adj: Matrix, neutype: seq<real>) returns (w: Matrix)
    requires adj.Valid() && adj.rows == |neutype| && adj.cols == |neutype|
    ensures SignedWeights(w, adj, neutype)
  {
    var n := |neutype|;
    var a := new real[n, n]((_, _) => 0.1);
    MulElementwise(a, adj);
    MulColumnsBy(a, neutype);
    w := Matrix(n, n, seq(n, i requires 0 <= i < n reads a => seq(n, j requires 0 <= j < n reads a => a[j, i])));
  }

  /** The history filters of `gen_theta`: zeros, then the same tap row
      written into the rows of type +1 and into the rows of type -1. */
  method HistoryFilters(neutype: seq<real>, dh: nat, expf: real -> real) returns (h: Matrix)
    requires forall i :: 0 <= i < |neutype| ==> neutype[i] == -1.0 || neutype[i] == 1.0
    ensures UniformHistory(h, |neutype|, dh, expf)
  {
    var n := |neutype|;
    var a := new real[n, dh]((_, _) => 0.0);
    var row := seq(dh, k requires 0 <= k < dh => HistoryTap(dh, k, expf));
    AssignRowsWhere(a, seq(n, i requires 0 <= i < n => neutype[i] == 1.0), row);
    AssignRowsWhere(a, seq(n, i requires 0 <= i < n => neutype[i] == -1.0), row);
    h := Matrix(n, dh, seq(n, i requires 0 <= i < n reads a => seq(dh, k requires 0 <= k < dh reads a => a[i, k])));
  }

  /** `gen_theta`: `int(N * p_inh)` inhibitory neurons (an impossible count
      is a negative array length), the type vector shuffled by `shuffle`
      (the seeded `np.random.shuffle`, which only reorders), then baselines,
      weights for the adjacency `adj` of the Watts-Strogatz graph, and
      history filters. */
  method GenTheta(n: nat, dh: nat, pInh: real, base: real, adj: Matrix,
                  shuffle: seq<real> -> seq<real>, expf: real -> real) returns (res: Result<Network, Error>)
    requires adj.Valid() && adj.rows == n && adj.cols == n
    requires forall v :: multiset(shuffle(v)) == multiset(v)
    ensures res.Success? <==> 0 <= Trunc(n as real * pInh) <= n
    ensures res.Failure? ==> res.error == NegativeDimension
    ensures res.Success? ==>
      var nInh := Trunc(n as real * pInh);
      var t := res.value;
      && |t.neutype| == n
      && multiset(t.neutype)[-1.0] == nInh && multiset(t.neutype)[1.0] == n - nInh
      && (forall i :: 0 <= i < n ==> t.neutype[i] == -1.0 || t.neutype[i] == 1.0)
      && |t.b| == n && (forall i :: 0 <= i < n ==> t.b[i] == base)
      && SignedWeights(t.w, adj, t.neutype)
      && UniformHistory(t.h, n, dh, expf)
  {
    var nInh := Trunc(n as real * pInh);
    if nInh < 0 || nInh > n {
      return Failure(NegativeDimension);
    }
    var neutype := shuffle(TypeVector(nInh, n - nInh));
    ShuffledTypes(neutype, nInh, n);
    var b := Baselines(neutype, base);
    var w := Weights(adj, neutype);
    var h := HistoryFilters(neutype, dh, expf);
    res := Success(Network(neutype, b, w, h));
  }

  /** With a 0/1 adjacency matrix every weight is -0.1, 0 or 0.1, and a
      weight's sign is the type of the neuron in its row. */
  lemma WeightValues(t: Network, adj: Matrix, i: nat, j: nat)
    requires SignedWeights(t.w, adj, t.neutype) && i < |t.neutype| && j < |t.neutype|
    requires t.neutype[i] == -1.0 || t.neutype[i] == 1.0
    requires adj.cells[j][i] == 0.0 || adj.cells[j][i] == 1.0
    ensures t.w.cells[i][j] == 0.0 || t.w.cells[i][j] == 0.1 * t.neutype[i]
    ensures t.w.cells[i][j] == 0.0 || t.w.cells[i][j] == 0.1 || t.w.cells[i][j] == -0.1
  {
  }

  /** The shapes `_gen_spikes` indexes with: `w` is N x N, `h` is N x dh,
      `b` has N entries. */
  predicate Shapes(w: Matrix, h: Matrix, b: seq<real>, dh: nat, n: nat)
  {
    w.Valid() && w.rows == n && w.cols == n && h.Valid() && h.rows == n && h.cols == dh && |b| == n
  }

  /** The argument of the nonlinearity for neuron `i` at step `j`: the
      baseline, the history term (nothing at step 0; the first `j` taps
      against the first `j` steps while `j < dh`; the full filter against the
      last `dh` steps afterwards) and the coupling input of step `j - 1`. */
  function Drive(w: Matrix, h: Matrix, b: seq<real>, dh: nat, y: Matrix, i: nat, j: nat): real
    requires y.Valid() && Shapes(w, h, b, dh, y.rows) && i < y.rows && j < y.cols
  {
    var hist := if j == 0 then 0.0
                else if j < dh then LagSum(h.cells[i], y.cells[i], 0, j)
                else LagSum(h.cells[i], y.cells[i], j - dh, dh);
    var weights := if j == 0 then 0.0 else DotCol(w, i, y, j - 1, y.rows);
    b[i] + hist + weights
  }

  /** The drive at step `j` reads only the spikes of steps before `j`. */
  lemma DriveCausal(w: Matrix, h: Matrix, b: seq<real>, dh: nat, y: Matrix, y': Matrix, i: nat, j: nat)
    requires y.Valid() && y'.Valid() && y.rows == y'.rows && y.cols == y'.cols
    requires Shapes(w, h, b, dh, y.rows) && i < y.rows && j < y.cols
    requires forall a, c :: 0 <= a < y.rows && 0 <= c < j ==> y.cells[a][c] == y'.cells[a][c]
    ensures Drive(w, h, b, dh, y, i, j) == Drive(w, h, b, dh, y', i, j)
  {
    if j > 0 {
      DotColReadsOneColumn(w, i, y, y', j - 1, y.rows);
      if j < dh {
        LagSumReadsWindow(h.cells[i], y.cells[i], y'.cells[i], 0, j);
      } else {
        LagSumReadsWindow(h.cells[i], y.cells[i], y'.cells[i], j - dh, dh);
      }
    }
  }

  /** From step `dh` on, the generator's drive is the fitter's linear
      predictor without stimulus: baseline, history term and coupling term. */
  lemma DriveMatchesFitter(w: Matrix, h: Matrix, b: seq<real>, dh: nat, dt: real, y: Matrix, i: nat, j: nat)
    requires y.Valid() && Shapes(w, h, b, dh, y.rows) && 1 <= dh <= j < y.cols && i < y.rows
    ensures Drive(w, h, b, dh, y, i, j)
         == b[i] + HistTerm(h, y, dh, i, j) + Coupling(Params(0, dh, dt, y.rows, y.cols), w, y).cells[i][j]
  {
  }

  /** Before step `dh` the fitter sees no history, while the generator
      already weighs the first `j` steps with the first `j` taps. */
  lemma EarlyHistoryDiffers(w: Matrix, h: Matrix, b: seq<real>, dh: nat, y: Matrix, i: nat, j: nat)
    requires y.Valid() && Shapes(w, h, b, dh, y.rows) && 0 < j < dh && j < y.cols && i < y.rows
    ensures HistTerm(h, y, dh, i, j) == 0.0
    ensures Drive(w, h, b, dh, y, i, j) == b[i] + LagSum(h.cells[i], y.cells[i], 0, j) + DotCol(w, i, y, j - 1, y.rows)
    ensures j == 1 && h.cells[i][0] != 0.0 && y.cells[i][0] != 0.0 ==>
      LagSum(h.cells[i], y.cells[i], 0, j) != HistTerm(h, y, dh, i, j)
  {
    if j == 1 && h.cells[i][0] != 0.0 && y.cells[i][0] != 0.0 {
      assert LagSum(h.cells[i], y.cells[i], 0, 1) == h.cells[i][0] * y.cells[i][0];
    }
  }

  /** The Poisson mean of a count: the rate over one bin of length `dt`. */
  function Mean(rate: real, dt: real): real
  {
    rate * dt
  }

  /** Cell `(i, j)` of a run: the rate is the nonlinearity of the drive and
      the count is that step's Poisson draw at rate `r * dt`. */
  predicate StepHolds(w: Matrix, h: Matrix, b: seq<real>, dt: real, dh: nat,
                      expf: real -> real, poisson: (nat, nat, real) -> real, r: Matrix, y: Matrix, i: nat, j: nat)
    requires r.Valid() && y.Valid() && r.rows == y.rows && r.cols == y.cols && Shapes(w, h, b, dh, y.rows)
    requires i < y.rows && j < y.cols
  {
    && r.cells[i][j] == expf(Drive(w, h, b, dh, y, i, j))
    && y.cells[i][j] == poisson(j + 1, i, Mean(r.cells[i][j], dt))
  }

  /** `(r, y)` is a run of the generator: every cell holds. */
  predicate Simulates(w: Matrix, h: Matrix, b: seq<real>, dt: real, dh: nat,
                      expf: real -> real, poisson: (nat, nat, real) -> real, r: Matrix, y: Matrix)
  {
    && r.Valid() && y.Valid() && r.rows == y.rows && r.cols == y.cols && Shapes(w, h, b, dh, y.rows)
    && forall i, j :: 0 <= i < y.rows && 0 <= j < y.cols ==> StepHolds(w, h, b, dt, dh, expf, poisson, r, y, i, j)
  }

  /** If two runs with the same draws agree before step `c`, they agree on
      step `c` too: the drive reads only earlier steps. */
  lemma RunsAgreeAt(w: Matrix, h: Matrix, b: seq<real>, dt: real, dh: nat,
      expf: real -> real, poisson: (nat, nat, real) -> real, r: Matrix, y: Matrix, r': Matrix, y': Matrix, a: nat, c: nat)
    requires r.Valid() && y.Valid() && r.rows == y.rows && r.cols == y.cols && Shapes(w, h, b, dh, y.rows)
    requires r'.Valid() && y'.Valid() && r'.rows == y.rows && r'.cols == y.cols && y'.rows == y.rows && y'.cols == y.cols
    requires a < y.rows && c < y.cols
    requires StepHolds(w, h, b, dt, dh, expf, poisson, r, y, a, c)
    requires StepHolds(w, h, b, dt, dh, expf, poisson, r', y', a, c)
    requires forall a', k :: 0 <= a' < y.rows && 0 <= k < c ==> y.cells[a'][k] == y'.cells[a'][k]
    ensures y.cells[a][c] == y'.cells[a][c] && r.cells[a][c] == r'.cells[a][c]
  {
    DriveCausal(w, h, b, dh, y, y', a, c);
  }

  /** Two runs with the same draws agree on the first `c` steps. */
  lemma {:induction false} RunsAgreeBefore(w: Matrix, h: Matrix, b: seq<real>, dt: real, dh: nat,
      expf: real -> real, poisson: (nat, nat, real) -> real, r: Matrix, y: Matrix, r': Matrix, y': Matrix, c: nat)
    requires Simulates(w, h, b, dt, dh, expf, poisson, r, y) && Simulates(w, h, b, dt, dh, expf, poisson, r', y')
    requires y.rows == y'.rows && y.cols == y'.cols && c <= y.cols
    ensures forall a, k :: 0 <= a < y.rows && 0 <= k < c ==> y.cells[a][k] == y'.cells[a][k]
    ensures forall a, k :: 0 <= a < y.rows && 0 <= k < c ==> r.cells[a][k] == r'.cells[a][k]
  {
    if c > 0 {
      RunsAgreeBefore(w, h, b, dt, dh, expf, poisson, r, y, r', y', c - 1);
      forall a | 0 <= a < y.rows
        ensures y.cells[a][c - 1] == y'.cells[a][c - 1] && r.cells[a][c - 1] == r'.cells[a][c - 1]
      {
        RunsAgreeAt(w, h, b, dt, dh, expf, poisson, r, y, r', y', a, c - 1);
      }
    }
  }

  /** The run is determined by the draws: whatever the initial random
      column was, there is only one `(r, y)` for given draws. */
  lemma SimulationUnique(w: Matrix, h: Matrix, b: seq<real>, dt: real, dh: nat,
      expf: real -> real, poisson: (nat, nat, real) -> real, r: Matrix, y: Matrix, r': Matrix, y': Matrix)
    requires Simulates(w, h, b, dt, dh, expf, poisson, r, y) && Simulates(w, h, b, dt, dh, expf, poisson, r', y')
    requires y.rows == y'.rows && y.cols == y'.cols
    ensures r == r' && y == y'
  {
    RunsAgreeBefore(w, h, b, dt, dh, expf, poisson, r, y, r', y', y.cols);
    Ext(y, y');
    Ext(r, r');
  }

  /** Every cell before `(i, j)` in the loop's order (step by step, neuron
      by neuron within a step) holds. */
  predicate FilledBefore(w: Matrix, h: Matrix, b: seq<real>, dt: real, dh: nat,
                         expf: real -> real, poisson: (nat, nat, real) -> real, r: Matrix, y: Matrix, i: nat, j: nat)
    requires r.Valid() && y.Valid() && r.rows == y.rows && r.cols == y.cols && Shapes(w, h, b, dh, y.rows)
  {
    forall a, c :: 0 <= a < y.rows && 0 <= c < y.cols && (c < j || (c == j && a < i)) ==>
      StepHolds(w, h, b, dt, dh, expf, poisson, r, y, a, c)
  }

  /** A cell that holds in one run holds in another that has the same rate,
      count and drive there. */
  lemma StepTransfer(w: Matrix, h: Matrix, b: seq<real>, dt: real, dh: nat,
                     expf: real -> real, poisson: (nat, nat, real) -> real,
                     r0: Matrix, y0: Matrix, r: Matrix, y: Matrix, a: nat, c: nat)
    requires r0.Valid() && y0.Valid() && r0.rows == y0.rows && r0.cols == y0.cols && Shapes(w, h, b, dh, y0.rows)
    requires r.Valid() && y.Valid() && r.rows == y0.rows && r.cols == y0.cols && y.rows == y0.rows && y.cols == y0.cols
    requires a < y0.rows && c < y0.cols
    requires StepHolds(w, h, b, dt, dh, expf, poisson, r0, y0, a, c)
    requires r.cells[a][c] == r0.cells[a][c] && y.cells[a][c] == y0.cells[a][c]
    requires Drive(w, h, b, dh, y, a, c) == Drive(w, h, b, dh, y0, a, c)
    ensures StepHolds(w, h, b, dt, dh, expf, poisson, r, y, a, c)
  {
  }

  /** Writing cell `(i, j)` from the drive of the current spikes extends the
      filled prefix by that cell: the cells already written do not read
      column `j` at or after row `i`. */
  lemma FillStep(w: Matrix, h: Matrix, b: seq<real>, dt: real, dh: nat,
                 expf: real -> real, poisson: (nat, nat, real) -> real, r0: Matrix, y0: Matrix, i: nat, j: nat)
    requires r0.Valid() && y0.Valid() && r0.rows == y0.rows && r0.cols == y0.cols && Shapes(w, h, b, dh, y0.rows)
    requires i < y0.rows && j < y0.cols
    requires FilledBefore(w, h, b, dt, dh, expf, poisson, r0, y0, i, j)
    ensures var r := Set(r0, i, j, expf(Drive(w, h, b, dh, y0, i, j)));
            var y := Set(y0, i, j, poisson(j + 1, i, Mean(r.cells[i][j], dt)));
            FilledBefore(w, h, b, dt, dh, expf, poisson, r, y, i + 1, j)
  {
    var r := Set(r0, i, j, expf(Drive(w, h, b, dh, y0, i, j)));
    var y := Set(y0, i, j, poisson(j + 1, i, Mean(r.cells[i][j], dt)));
    forall a, c | 0 <= a < y.rows && 0 <= c < y.cols && (c < j || (c == j && a < i + 1))
      ensures StepHolds(w, h, b, dt, dh, expf, poisson, r, y, a, c)
    {
      DriveCausal(w, h, b, dh, y0, y, a, c);
      if a != i || c != j {
        StepTransfer(w, h, b, dt, dh, expf, poisson, r0, y0, r, y, a, c);
      }
    }
  }

  /** A finished step: all neurons of step `j` filled is the same as every
      step before `j + 1` filled. */
  lemma StepFinished(w: Matrix, h: Matrix, b: seq<real>, dt: real, dh: nat,
                     expf: real -> real, poisson: (nat, nat, real) -> real, r: Matrix, y: Matrix, j: nat)
    requires r.Valid() && y.Valid() && r.rows == y.rows && r.cols == y.cols && Shapes(w, h, b, dh, y.rows)
    requires FilledBefore(w, h, b, dt, dh, expf, poisson, r, y, y.rows, j)
    ensures FilledBefore(w, h, b, dt, dh, expf, poisson, r, y, 0, j + 1)
  {
  }

  /** The body of the `_gen_spikes` neuron loop: the history sum, the
      coupling input of the previous step, the rate through the
      nonlinearity and the count drawn at mean `rate * dt`. */
  method SimulateCell(w: Matrix, h: Matrix, b: seq<real>, dt: real, dh: nat,
                      expf: real -> real, poisson: (nat, nat, real) -> real, r0: Matrix, y0: Matrix, i: nat, j: nat)
    returns (r: Matrix, y: Matrix)
    requires r0.Valid() && y0.Valid() && r0.rows == y0.rows && r0.cols == y0.cols && Shapes(w, h, b, dh, y0.rows)
    requires i < y0.rows && j < y0.cols && FilledBefore(w, h, b, dt, dh, expf, poisson, r0, y0, i, j)
    ensures r.Valid() && y.Valid() && r.rows == y0.rows && r.cols == y0.cols && y.rows == y0.rows && y.cols == y0.cols
    ensures FilledBefore(w, h, b, dt, dh, expf, poisson, r, y, i + 1, j)
  {
    var hist: real;
    if j == 0 {
      hist := 0.0;
    } else if j < dh {
      hist := LagSum(h.cells[i], y0.cells[i], 0, j);
    } else {
      hist := LagSum(h.cells[i], y0.cells[i], j - dh, dh);
    }
    var weights := if j == 0 then 0.0 else DotCol(w, i, y0, j - 1, y0.rows);
    assert b[i] + hist + weights == Drive(w, h, b, dh, y0, i, j);
    FillStep(w, h, b, dt, dh, expf, poisson, r0, y0, i, j);
    r := Set(r0, i, j, expf(b[i] + hist + weights));
    y := Set(y0, i, j, poisson(j + 1, i, Mean(r.cells[i][j], dt)));
  }

  /** One step of the `_gen_spikes` time loop: every neuron's rate and count
      at step `j`, from the spikes so far. */
  method SimulateStep(w: Matrix, h: Matrix, b: seq<real>, dt: real, dh: nat,
                      expf: real -> real, poisson: (nat, nat, real) -> real, r0: Matrix, y0: Matrix, j: nat)
    returns (r: Matrix, y: Matrix)
    requires r0.Valid() && y0.Valid() && r0.rows == y0.rows && r0.cols == y0.cols && Shapes(w, h, b, dh, y0.rows)
    requires j < y0.cols && FilledBefore(w, h, b, dt, dh, expf, poisson, r0, y0, 0, j)
    ensures r.Valid() && y.Valid() && r.rows == y0.rows && r.cols == y0.cols && y.rows == y0.rows && y.cols == y0.cols
    ensures FilledBefore(w, h, b, dt, dh, expf, poisson, r, y, 0, j + 1)
  {
    r, y := r0, y0;
    var i := 0;
    while i < y0.rows
      invariant 0 <= i <= y0.rows
      invariant r.Valid() && y.Valid() && r.rows == y0.rows && r.cols == y0.cols && y.rows == y0.rows && y.cols == y0.cols
      invariant FilledBefore(w, h, b, dt, dh, expf, poisson, r, y, i, j)
    {
      r, y := SimulateCell(w, h, b, dt, dh, expf, poisson, r, y, i, j);
      i := i + 1;
    }
    StepFinished(w, h, b, dt, dh, expf, poisson, r, y, j);
  }

  /** `_gen_spikes`: an initial column from `normals` (the seeded `randn(N)`;
      only its first entry is used, and without `dt`), then the time/neuron
      loop that recomputes every column, column 0 included, from the drive.
      `expf` is the nonlinearity and `poisson(round, i, mean)` the seeded
      Poisson draw for neuron `i` in a round of draws (round 0 the initial
      column, round `j + 1` step `j`). With no neuron both arrays are empty;
      there must be at least one step, for column 0 to exist. */
  method GenSpikes(w: Matrix, h: Matrix, b: seq<real>, dt: real, dh: nat, n: nat, m: nat,
                   normals: seq<real>, expf: real -> real, poisson: (nat, nat, real) -> real)
    returns (r: Matrix, y: Matrix)
    requires Shapes(w, h, b, dh, n) && |normals| == n && m > 0
    ensures r.rows == n && r.cols == m && y.rows == n
    ensures Simulates(w, h, b, dt, dh, expf, poisson, r, y)
    ensures forall i :: 0 <= i < n ==> r.cells[i][0] == expf(b[i])
  {
    r := Zeros(n, m);
    y := Zeros(n, m);
    var init := seq(n, k requires 0 <= k < n => normals[k] * 0.1 - 1.0);
    r := SetColumn(r, 0, seq(n, k requires 0 <= k < n => expf(init[0])));
    y := SetColumn(y, 0, seq(n, k requires 0 <= k < n => poisson(0, k, r.cells[k][0])));

    var j := 0;
    while j < m
      invariant 0 <= j <= m
      invariant r.Valid() && y.Valid() && r.rows == n && r.cols == m && y.rows == n && y.cols == m
      invariant FilledBefore(w, h, b, dt, dh, expf, poisson, r, y, 0, j)
    {
      r, y := SimulateStep(w, h, b, dt, dh, expf, poisson, r, y, j);
      j := j + 1;
    }
    forall i | 0 <= i < n
      ensures r.cells[i][0] == expf(b[i])
    {
      assert StepHolds(w, h, b, dt, dh, expf, poisson, r, y, i, 0);
    }
  }
}
