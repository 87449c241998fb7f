# Streaming Poisson GLM fitters and network data generator, in Dafny

This project models the core of a streaming fitter for a Poisson
generalised linear model (GLM) of spiking neurons, and the generator of
synthetic network data it is tested on. The model covers three parts.

- **The GLM fitter** (`GLM/glm_jax.py`, modules `GlmJax`, `CausalTerms`,
  `Params`):
  - the checks made at construction;
  - the shape normaliser `_check_arrays`. It grows the neuron capacity
    `N_lim` by doubling until every row fits, then pads spikes, stimulus
    and mask to `N_lim x M_lim`;
  - `_increase_θ_size`, which zero-pads every tensor of θ and restarts
    the optimizer;
  - the history convolution `_convolve`;
  - the coupling term of `_predict`, shifted one step;
  - the `rpf` loop of `_fit`;
  - the `weights` property;
  - the synthetic-data subclass. It chooses each fit step's window: a
    random offline window, a growing window while `iter < M_lim`, then a
    sliding window.
- **The LNP fitter** (`LNP/glm_jax.py`, module `LnpJax`):
  - the same construction and growth;
  - padding by concatenation;
  - the `curr_mn` normaliser, the product of the unpadded dimensions;
  - a `_check_arrays` that advances `iter` on every successful call;
  - the offset redraw every 10000 iterations, and `fit`.
- **The generator** (`GLM/data_gen_network.py`, module `DataGen`):
  - `gen_theta`: the shuffled vector of neuron types, the baselines, the
    signed weights and the identical history filters;
  - the simulation loop of `_gen_spikes`.

Matrices are values with an explicit shape (`Matrices.Matrix`). A NumPy
array with zero rows still has a width, so the shape is stored rather
than derived. Classes model the objects whose fields the source updates:
`GlmJax.Model`, `GlmJax.Synthetic` and `LnpJax.Model`. Their methods
state the whole new state.

Pure computations are functions, with lemmas about them. Loops are
methods with invariants:
- the growth loop;
- `_convolve`'s lag loop;
- `_fit`'s repeat loop;
- the zero-buffer writes;
- the generator's masked assignments;
- the generator's time and neuron loops.

The following outside parts become parameters or arrow-typed fields:
- the first-order optimizer (`opt_update`; `opt_init` is modelled with
  zeroed accumulators);
- the gradient and the loss given by automatic differentiation;
- `exp`;
- the seeded random draws: `randint` batches, `shuffle`, Poisson draws,
  `randn`, and the Watts–Strogatz adjacency matrix.

Behaviour the model reproduces as the code has it:
- **Growing window:** it includes column `iter`. The sliding window that
  follows covers `iter - M_lim .. iter - 1`. So at `iter = M_lim - 1` and
  at `iter = M_lim` the batch is the same columns `0 .. M_lim - 1`.
- **Sliding and offline windows:** they bypass `_check_arrays`. They are
  neither grown nor padded, and report `(M_lim, N_lim)` whatever the data's
  height. Whether the training step that follows raises a shape error
  (`BatchShape`) in `_ll` is decided by NumPy's shape rules, which module
  `ShapeRules` follows step by step through `_predict`, `_convolve` and
  `_ll`:
  - For a window of full width, `_ll` accepts exactly when the data are
    `N_lim` rows high, `s` has `ds` rows, the history length fits, and
    the mask broadcasts onto the rates.
  - The default mask is the ones built at construction, which growth never
    resizes. After the growing window has raised the capacity, the sliding
    window trains on only if the construction-time `N_lim` was 1, so that
    the one-row mask broadcasts. Otherwise every sliding step raises.
  - A sliding window that has run past the end of the data is narrower
    than `M_lim` and may still be accepted by broadcasting
    (`ShapeRules.NarrowWindowAccepted`).
  - The LNP offline window is accepted exactly when the data are `N_lim`
    rows high, `s` has `ds` rows and the history length fits.
- **LNP `iter`:**
  - Every successful `_check_arrays` advances `iter`, so an online `fit`
    advances it by two. Its optimizer step runs under the already advanced
    value.
  - An online LNP fitter fails at every multiple of 10000, the first step
    included: the redraw reads offline data it does not have.
- **Generator history:** for steps `0 < j < dh` the generator weighs the
  first `j` spikes with the first `j` taps. The fitter sees no history
  before step `dh`. From step `dh` on, the generator's drive is the
  fitter's linear predictor without stimulus
  (`DataGen.DriveMatchesFitter`).
- **Generator's first column:** the initial rate column (from `randn`,
  without `dt`) is recomputed by the loop. Its draws still consume
  randomness, modelled as round 0 of the Poisson oracle.
- **GLM width check:** `GLM/glm_jax.py:161` cannot raise. A batch wider
  than `M_lim` fails earlier, when it is written into the `M_lim`-wide
  buffer at line 149. That write clips its target block to the buffer and
  broadcasts the data onto it. So a one-column batch is accepted even
  when `M_lim == 0`, and a caller's mask of one row or one column is
  repeated across the block (line 153). The model reports `TooWide` for
  the failed data write and `IndicatorShape` for the failed mask write.
- **Training with `rpf == 0`:** `_fit` then runs no step and never traces
  `_ll`, so no batch raises a shape error. θ stays as it is and `iter`
  still advances.

## Model

| member | source | states |
|---|---|---|
| Params.Configure | GLM/glm_jax.py:50-76 | construction fails, in this order, on a missing key of `p`, a missing θ, a θ of the wrong shape, a missing optimizer; on success θ is well shaped at `N_lim` and a vector `b` becomes the column with the same entries |
| Params.GrowTheta | GLM/glm_jax.py:175-180 | one doubling yields a θ well shaped at capacity `2 N_lim` with the widths `dh`, `ds`, 1 kept |
| Params.GrowThetaEmbeds | GLM/glm_jax.py:175-180 | one doubling is exactly zero-padding of every tensor of θ to the doubled capacity |
| Params.GrowThetaRecovers | GLM/glm_jax.py:175-182 | slicing the grown θ back to the old capacity gives the old `w`, `h`, `k`, `b` |
| Params.GrowThetaTimesEmbeds | GLM/glm_jax.py:136-138 | `k` successive doublings equal one zero-padding of the original θ to `N_lim * 2^k` |
| Params.GrowthKeepsWeights | GLM/glm_jax.py:136-138 | after any number of doublings the old coupling block is the top-left block of `w` |
| Params.GrowthStepsMinimal | GLM/glm_jax.py:136-138 | the growth loop stops at the smallest power-of-two multiple of `N_lim` that holds every row |
| Params.GrownParams | GLM/glm_jax.py:136-138 | after growth only `N_lim` has changed, it has not shrunk, and it holds every row |
| Params.GrownKeepsTheta | GLM/glm_jax.py:136-138 | the optimizer state after growth holds the old θ zero-padded to the new capacity, old coupling block intact |
| CausalTerms.Convolve | GLM/glm_jax.py:224-232 | each output entry is zero before column `dh` and afterwards the sum of tap `k` times the spike `dh - k` steps back |
| CausalTerms.HistTermCausal | GLM/glm_jax.py:228-232 | the history term at column `t` depends only on the neuron's own spikes before `t` |
| CausalTerms.Coupling | GLM/glm_jax.py:198-200 | the coupling term is zero before column `dh` and afterwards row `i` of `w` times the spikes of column `t - 1` |
| CausalTerms.CouplingCausal | GLM/glm_jax.py:198-200 | the coupling term at column `t` depends only on spikes before `t` |
| CausalTerms.LogRateCausal | GLM/glm_jax.py:196-202 | the log-rate at column `c` is unchanged by any change to spikes at or after `c` or to the stimulus at other columns (no future leakage) |
| ShapeRules.LagTermsFullWidth | GLM/glm_jax.py:228-231 | over a full-width window of `N_lim` rows every lag term of `_convolve` has the accumulator's shape `N_lim x (M_lim - dh)` |
| ShapeRules.PredictFullWidth | GLM/glm_jax.py:192-202 | on a full-width window the log-rate exists exactly when `y` has `N_lim` rows, `s` has `ds` rows and either `1 <= dh <= M_lim`, or `dh == 0` with `M_lim <= 1`; it is `N_lim x M_lim`, or `N_lim x 0` without history |
| ShapeRules.GlmLlFullWidth | GLM/glm_jax.py:207-220 | on a full-width window `_ll` raises no shape error exactly when the log-rate exists and the mask broadcasts onto it |
| ShapeRules.LnpLlFullWidth | LNP/glm_jax.py:188-210 | on a full-width window LNP's `_ll` raises no shape error exactly when `y` has `N_lim` rows, `s` has `ds` rows and the history length fits |
| ShapeRules.NarrowWindowAccepted | GLM/glm_jax.py:192-220 | with `dh = 1`, `M_lim = 2` a one-column window broadcasts through `_predict` to an `N_lim x 2` log-rate and `_ll` accepts it |
| GlmJax.Pad | GLM/glm_jax.py:140-162 | padding succeeds exactly for the exact shape, or when the data are no wider than `M_lim` or one column wide and the mask broadcasts onto the clipped block; otherwise `TooWide` for the data, then `IndicatorShape` for the mask; on success data no wider than `M_lim` sit zero-padded in the top-left block (a one-column batch with `M_lim == 0` leaves empty buffers), the mask is broadcast onto the block, the default one is the padded ones, and in the exact-shape case the mask passes through as given |
| GlmJax.PadMaskCount | GLM/glm_jax.py:141-155 | without a caller's mask the padded mask holds exactly `N * min(M, M_lim)` ones, on the part of the data block inside the buffer |
| GlmJax.PadAcceptsFittingData | GLM/glm_jax.py:144-162 | without a mask, data with rows that fit are accepted exactly when they are at most `M_lim` wide or one column wide |
| GlmJax.PadBuffer | GLM/glm_jax.py:145-153 | writing into the clipped block of a fresh zero buffer gives the zero-padded embedding of the source broadcast onto that block |
| GlmJax.PadBatch | GLM/glm_jax.py:140-164 | the imperative padding returns exactly what `Pad` specifies |
| GlmJax.RepeatCompose | GLM/glm_jax.py:107-111 | `a` steps then `b` steps on one batch equal `a + b` steps |
| GlmJax.RepeatKeepsShapes | GLM/glm_jax.py:107-111 | with a shape-keeping optimizer θ stays well shaped over any number of steps |
| GlmJax.FitSteps | GLM/glm_jax.py:107-111 | the loop returns `rpf` optimizer steps on the same batch under the same `iter` |
| GlmJax.Model.constructor | GLM/glm_jax.py:50-83 | the fitter starts from the configured θ in a fresh optimizer state, ones mask of `N_lim x M_lim`, counters at zero |
| GlmJax.Model.IncreaseThetaSize | GLM/glm_jax.py:166-183 | capacity doubles, θ is zero-padded and the optimizer restarts from it; nothing else changes |
| GlmJax.Model.GrowTo | GLM/glm_jax.py:133-138 | the loop ends with every row fitting, at the grown parameters and grown optimizer state |
| GlmJax.Model.CheckArrays | GLM/glm_jax.py:122-164 | failed assertions leave the state alone; otherwise the unpadded shape is recorded, capacity grows, and the result is the specified padding at the new capacity |
| GlmJax.Model.Train | GLM/glm_jax.py:299-308 | when `_ll` is traced (`return_ll`, or `rpf > 0`), a batch on which it raises a shape error under NumPy's rules fails with θ untouched; otherwise with `return_ll` the loss at the old θ and one step, else `rpf` steps (none when `rpf == 0`, whatever the batch); only the optimizer state changes |
| GlmJax.Model.Weights | GLM/glm_jax.py:238-240 | the weights are the `current_N x current_N` top-left block of `w` |
| GlmJax.WindowOffline | GLM/glm_jax.py:278-285 | offline the batch is the width-`M_lim` window at the drawn offset, with the construction-time ones as mask; it can be trained on exactly when the data are `N_lim` rows high, `s` has `ds` rows, the history length fits and the ones broadcast onto the rates |
| GlmJax.WindowGrowing | GLM/glm_jax.py:288-291 | while `iter < M_lim` the batch is columns `0..iter` zero-padded, reporting width `iter + 1`, with `N * (iter + 1)` ones in its mask; being padded, it can be trained on exactly when the history length fits |
| GlmJax.WindowSliding | GLM/glm_jax.py:292-297 | from `iter = M_lim` the batch is columns `iter - M_lim .. iter - 1`, unpadded, reporting `(M_lim, N_lim)`; it can be trained on exactly when the data are `N_lim` rows high, `s` has `ds` rows, the history length fits and the mask (the caller's, else the construction-time ones, possibly stale after growth) broadcasts onto the rates |
| GlmJax.Synthetic.constructor | GLM/glm_jax.py:250-274 | the base fitter is built from the given parameters, θ, optimizer, `rpf`, gradient and loss, with ones of `N_lim x M_lim`; offline the current shape is the full capacity and the offset batch is empty; online the counters are zero |
| GlmJax.Synthetic.NextWindow | GLM/glm_jax.py:277-297 | the window is the one specified for the mode and `iter`; offsets are redrawn every 10000 iterations offline; only the growing window changes capacity |
| GlmJax.Synthetic.Fit | GLM/glm_jax.py:276-308 | a failed window, or a batch a traced `_ll` cannot combine (`BatchShape`), leaves `iter` and θ as the window left them; otherwise one loss-and-step or `rpf` steps under the old `iter` (with `rpf == 0` and no `return_ll`, any batch, θ unchanged), then `iter` goes up by one |
| LnpJax.PadByConcatEmbeds | LNP/glm_jax.py:140-147 | appending zero rows and then zero columns is the zero-padded embedding of `y` and `s` |
| LnpJax.ConcatPad | LNP/glm_jax.py:140-150 | concatenation succeeds exactly for data no wider than `M_lim` (else `TooWide`) and gives the embedded `y` and `s` |
| LnpJax.Checked | LNP/glm_jax.py:128-153 | normalisation succeeds exactly when the widths agree, `s` has `ds` rows and the data are at most `M_lim` wide; errors in source order; `curr_mn` is `N * M` and the data are zero-padded |
| LnpJax.PadArgs | LNP/glm_jax.py:140-153 | the imperative padding and `curr_mn` return exactly what `Checked` specifies |
| LnpJax.OfflineArgsWindow | LNP/glm_jax.py:101-105 | an offset drawn from `[0, W - M_lim]` gives a width-`M_lim` window read from the data at that offset, which `_ll` accepts exactly when the data are `N_lim` rows high, `s` has `ds` rows and the history length fits |
| LnpJax.CheckedTrainable | LNP/glm_jax.py:188-222 | normalised arguments have the full shape, so `_ll` accepts them exactly when the history length fits: `1 <= dh <= M_lim`, or `dh == 0` with `M_lim <= 1` |
| LnpJax.OnlineFailsAtRedraw | LNP/glm_jax.py:97-107 | an online fitter succeeds exactly off the multiples of 10000 and when normalisation succeeds |
| LnpJax.Model.constructor | LNP/glm_jax.py:50-86 | the fitter starts from the configured θ, offline exactly when data are given, with no offsets and counters at zero |
| LnpJax.Model.IncreaseThetaSize | LNP/glm_jax.py:155-171 | capacity doubles, θ is zero-padded and the optimizer restarts from it; nothing else changes |
| LnpJax.Model.GrowTo | LNP/glm_jax.py:133-138 | the loop ends with every row fitting, at the grown parameters and grown optimizer state |
| LnpJax.Model.CheckArrays | LNP/glm_jax.py:122-153 | failed assertions leave the state alone; otherwise shape recorded, capacity grown, result as `Checked` specifies, and `iter` advanced exactly on success |
| LnpJax.Model.Ll | LNP/glm_jax.py:88-90 | the state after the normalisation (shape recorded, capacity and θ grown, `iter` advanced on success, offsets kept); the loss on the normalised arguments, or `BatchShape` when `_ll` cannot combine them |
| LnpJax.Model.NextArgs | LNP/glm_jax.py:97-107 | offsets redrawn every 10000 iterations; arguments as `Select` specifies (offline window, or normalised data); online success advances `iter` |
| LnpJax.Model.Fit | LNP/glm_jax.py:92-117 | a failed argument step leaves θ and `iter`; arguments `_ll` cannot combine (`BatchShape`) leave θ and the `iter` of the normalisation; otherwise one optimizer step under the already advanced `iter`, then `iter` up by one more (two in all online) |
| LnpJax.Model.Weights | LNP/glm_jax.py:228-230 | the weights are the `current_N x current_N` top-left block of `w` |
| DataGen.Trunc | GLM/data_gen_network.py:37 | `int()` truncates toward zero: within one of its argument, on the side of zero |
| DataGen.TypeVectorCounts | GLM/data_gen_network.py:37-38 | the unshuffled type vector has `n_inh` entries -1, `N - n_inh` entries +1 and nothing else |
| DataGen.ShuffledTypes | GLM/data_gen_network.py:38-39 | any shuffle keeps length `N`, the counts, and every entry ±1 |
| DataGen.Baselines | GLM/data_gen_network.py:42-44 | every baseline equals `base` |
| DataGen.Weights | GLM/data_gen_network.py:48-53 | weight `(i, j)` is `0.1` times edge `j -> i` times the type of neuron `i` |
| DataGen.WeightValues | GLM/data_gen_network.py:48-53 | with a 0/1 adjacency every weight is 0 or `0.1` times its row's type, so in `{-0.1, 0, 0.1}` |
| DataGen.Tau | GLM/data_gen_network.py:61 | the linspace points lie in `[0, 1]`, start at 1 and end at 0 |
| DataGen.TauEvenlySpaced | GLM/data_gen_network.py:61 | neighbouring linspace points are `1 / (dh - 1)` apart |
| DataGen.HistoryFilters | GLM/data_gen_network.py:60-63 | every row of `h` is the same filter `-0.1 exp(-3 tau)` |
| DataGen.GenTheta | GLM/data_gen_network.py:20-65 | fails exactly when `int(N p_inh)` is not in `[0, N]`; otherwise the types, baselines, signed weights and history filters above |
| DataGen.DriveCausal | GLM/data_gen_network.py:98-108 | the drive at step `j` depends only on spikes before `j` |
| DataGen.DriveMatchesFitter | GLM/data_gen_network.py:98-110 | from step `dh` on the drive is baseline plus the fitter's history term plus its coupling term |
| DataGen.EarlyHistoryDiffers | GLM/data_gen_network.py:100-101 | for `0 < j < dh` the fitter's history term is zero while the generator weighs the first `j` spikes; at `j == 1` with a nonzero first tap and first spike the two differ |
| DataGen.RunsAgreeBefore | GLM/data_gen_network.py:95-111 | two runs with the same draws agree on rates and spikes of every earlier step |
| DataGen.SimulationUnique | GLM/data_gen_network.py:86-111 | the rates and spikes are determined by the draws alone, whatever the initial column was |
| DataGen.SimulateCell | GLM/data_gen_network.py:97-111 | one neuron's rate is the nonlinearity of its drive and its count the draw at mean `rate * dt`, extending the simulated prefix by one cell |
| DataGen.SimulateStep | GLM/data_gen_network.py:96-111 | after the neuron loop every cell up to step `j` is simulated |
| DataGen.GenSpikes | GLM/data_gen_network.py:74-113 | `(r, y)` of `N x M` is a run of the generator (empty with no neuron) and the first rates are `exp(b)` |

## Left out

- Floating-point arithmetic is not modelled. Reals stand for floats, so
  there is no rounding, no `float32` buffers and no `isfinite` masking.
- The values of `_ll` and `_predict` are not modelled: the exponential,
  the logarithm, the regularisers and LNP's padding correction. The loss
  and the gradient are oracles. `CausalTerms.LogRate` gives only the
  linear predictor, and its contract states only its shape; what is
  proved about it is `LogRateCausal`. LNP's `_ll` slices θ to `N_lim`,
  which is θ itself, and multiplies by `dt` outside the exponential; it
  uses the same terms with offset 0.
- The optimizer is an oracle. It is assumed to keep the shapes of θ;
  its internal step rules are left out. `opt_init` is modelled with
  accumulators that start at zero. That is how `sgd`, `momentum` and `adam`
  start, not every rule the library offers.
- JIT compilation, the GPU and printing are left out.
- Random number generation is left out. Every draw is a parameter or an
  oracle.
- The following parts are not part of this model:
  - `GLMJax.fit`, `ll`, `grad` and `predict`. `fit` unpacks three results
    from `_fit_ll`, which returns two.
  - LNP `get_grad` and `log_zero`.
  - The generator's plotting, pickling and `gen_spikes` wrapper.
  - The Watts–Strogatz graph construction.
- GlmJax.Pad: a mask is a 2-D matrix. A 1-D or scalar mask, which NumPy
  would broadcast as a single row, is not modelled.
- `ShapeRules` tracks two-dimensional shapes only. `_ll` is given 2-D
  arrays throughout, so 1-D and scalar broadcasting never arises.
- Params.Configure: the regularisation weights `λ1` and `λ2` are not
  modelled. Construction does not check for them, and every `_ll` reads
  them, so a `p` without them raises `KeyError` on each `ll` or `fit`. In
  the model the loss is an oracle and the training steps succeed.
- GlmJax.Synthetic.constructor: the data are required. With the default
  `data=None` the source raises `TypeError` when unpacking it (line 266),
  which the model does not represent.
- Params.Configure: an unknown optimizer `name` (`AttributeError` from
  `getattr`) and an optimizer without a `name` (`KeyError`) are not
  modelled. The optimizer is given as a value.
- Params.Configure: a θ that lacks `w`, `h`, `k` or `b` (`KeyError`) is
  not modelled, because θ is a record with exactly those four. Extra keys of
  the source's θ dictionary, which it keeps without growing them, are not
  modelled either.
- Params.Configure: aliasing is not modelled. The source stores the
  caller's `p`, so growth also rewrites the caller's `p['N_lim']`, and the
  reshape of a vector `b` writes into the caller's θ dictionary. The model
  works on values and leaves the caller's records unchanged.
- GlmJax.Model.CheckArrays: when both shape assertions pass, `N_lim` is
  0 and the data have rows, the growth loop does not terminate. The
  contract requires that case away instead of modelling divergence. A
  failed assertion raises before the loop and is modelled.
- GlmJax.Synthetic.NextWindow: the same requirement, only for the growing
  window (online, `iter < M_lim`, `s` with `ds` rows). The offline and
  sliding windows never grow and are modelled for every capacity.
- GlmJax.Synthetic.Fit: the same requirement as `NextWindow`.
- LnpJax.Model.CheckArrays: the same requirement as the GLM fitter, only
  when both assertions pass.
- LnpJax.Model.Ll: the same requirement as `LnpJax.Model.CheckArrays`.
- LnpJax.Model.NextArgs: the same requirement, only for an online step
  off the redraw with both assertions passing. The offline steps and the
  online redraw never reach the growth loop.
- LnpJax.Model.Fit: the same requirement as `LnpJax.Model.NextArgs`.
- GlmJax.Synthetic.constructor: the source's two assertions on the data
  widths are preconditions rather than error results.
- DataGen.GenSpikes: it works on matrix values, not NumPy arrays updated
  in place. No other code holds the arrays while they are filled.
- DataGen.GenSpikes: it requires at least one step. `_gen_spikes` is
  compiled by numba without bounds checks. With `M == 0`, writing column 0
  is out of bounds and its effect is undefined, so there is nothing to
  model. With `N == 0` the unchecked read `init[0]` goes unused: both
  arrays are empty, as in the model.
- DataGen.GenTheta: the adjacency matrix is a parameter. The
  Watts–Strogatz graph's own properties (symmetric, 0/1) are not
  modelled; `WeightValues` takes 0/1 entries as a hypothesis.
