# One Euro filter — a Dafny model

This project models `one-euro-rs`, a One Euro adaptive smoothing filter for
streams of D-dimensional samples. The filter keeps a low-pass stage for the
signal and one for its finite-difference derivative. It raises the signal
stage's cutoff frequency with the speed of the signal, so jitter is smoothed
at rest while fast motion is followed with little lag.

Numbers are Dafny `real`. Vectors are `seq<real>` of a fixed length D (`dim`).
2π is the named constant `Alpha.TwoPi`; the proofs use only that it is
positive. A panic of the source (`assert!`, `assert_positive!`,
`assert_alpha!`) becomes a `Fail`/`Failure` that carries a `Fault` naming the
violated check. An `unsafe` (unchecked) function becomes a member whose
`requires` is the contract its documentation states.

The repository holds two generations of the filter, and both are modelled:

* Generation 1 (`src/lowpass.rs`, `src/oneeuro.rs`, wired up by `src/lib.rs`).
  * `LowPass.LowPassFilter` is a class whose `state: Option<…>` is `None` until
    the first sample arrives; the first call passes the sample through.
    `FilterMut` rewrites the caller's sample buffer (an `array<real>`) in place.
  * `OneEuro.OneEuroFilter` is a class. It owns its parameters, two
    `LowPassFilter` objects and the last raw sample.
  * `OneEuro.Builder` is a value, because `with_*` and `build` take `self` by
    value.
  * Each method is proved against pure functions (`Step`, `Derivative`,
    `Cutoff`, `Output`, `Next`) on value views of the objects (`Cfg()`,
    `Mem()`).
* Generation 2 (`src/alpha.rs`, `src/state.rs`, `src/filter.rs`).
  * `Alpha` holds the smoothing factor and the two validators.
  * `State.OneEuroState` is a class updated in place. It is eagerly seeded
    (`raw = filtered = sample`, derivative 0). Its methods are proved against
    `Next` (unchecked) and `CheckedUpdate` (checked) on the `Snapshot` view.
  * `Filter.OneEuroFilter` holds `beta`, `dcutoff` and `mincutoff` behind
    validated setters. It drives one state (`Filter`) or an array of distinct
    states (`FilterSlice`).
  * The seeded stage `LowPassState` that `src/state.rs` imports is not among
    the files modelled here. It is modelled in `SeededLowPass` as an
    **assumption**: `update(x, α)` sets the state to `x·α + state·(1−α)`, the
    same blend as `src/lowpass.rs:33-41`. The checked `update` is assumed to
    validate α with `assert_alpha!` (`src/alpha.rs:3-10`), so it rejects an α
    with a component outside (0, 1]. That macro is written for an identifier
    named `alpha` and is used by none of the files modelled here, and
    `src/state.rs:72` documents the same (0, 1] range for `update`.

Points where the code is easy to misread; the model follows the code:

* `Filter.OneEuroFilter.Default` sets `beta` to 1, as `src/filter.rs:99-105`
  does, matching its doc comment at `src/filter.rs:97`.
* The generation-2 filter has no stored rate and no `set_rate`. The rate is a
  per-call argument, and the derivative factor is recomputed on every call
  (`src/filter.rs:56-93`).
* The checked `OneEuroState::update` checks less than its documentation
  (`src/state.rs:68-74`) says. It checks only through the derivative stage's
  own check of α and through `get_alpha` on each computed cutoff. So it
  accepts a negative `beta` while the cutoffs stay positive, and a
  non-positive `mincutoff` whenever beta·|d| lifts the cutoff above zero. With
  D = 0 it never calls `get_alpha`, so even a rate of zero passes
  (`State.CheckedAcceptsBeyondDocumentation`).
* A failed checked update does not leave the state unmodified: the derivative
  stage has already been advanced when a `get_alpha` call panics
  (`State.CheckedUpdate`).
* In generation 1, `new` never checks `cutoff_slope`. A negative slope can
  drive a cutoff to zero, where `alpha` divides by zero
  (`OneEuro.NegativeSlopeBreaksAlpha`). `FilterMut` therefore requires that
  every adaptive cutoff gives a defined factor (`OneEuro.Filterable`), which a
  non-negative slope guarantees (`OneEuro.NonNegativeSlopeFilterable`).
* `set_cutoff_slope` demands a slope > 0 (`src/oneeuro.rs:63-66`), but the
  builder's default slope is 0 (`src/oneeuro.rs:135`). `new` accepts that
  default; the setter could not set it again (`OneEuro.DefaultBuildAccepted`).

## Model

| member | source | states |
|---|---|---|
| `Alpha.Positive` | src/alpha.rs:12-23 | `assert_positive!` accepts exactly the values > 0 and otherwise fails with the fault naming the argument |
| `Alpha.AssertAlpha` | src/alpha.rs:3-10 | accepts a vector iff every component is in (0, 1]; a failure is AlphaNotPositive or AlphaAboveOne, and some component really is ≤ 0 or > 1 respectively |
| `Alpha.SmoothingFactorForms` | src/alpha.rs:25-27 | the formula (1 + rate/(2π·cutoff))⁻¹ equals the textbook te/(te + τ) with te = 1/rate and τ = 1/(2π·cutoff), and lies strictly between 0 and 1 |
| `Alpha.GetAlphaUnchecked` | src/alpha.rs:48-52 | for a positive rate and cutoff the factor is in (0, 1) and equals te/(te + τ) |
| `Alpha.GetAlpha` | src/alpha.rs:40-46 | fails iff rate ≤ 0 or cutoff ≤ 0, the rate being checked first; otherwise returns the unchecked value, which is in (0, 1] |
| `Alpha.HalfAlpha` | src/alpha.rs:64-67 | get_alpha(1, 1/(2π)) is exactly 1/2 |
| `Alpha.AlphaIncreasingInCutoff` | src/alpha.rs:50-52 | for a fixed positive rate the factor is non-decreasing in the cutoff |
| `LowPass.Blend` | src/lowpass.rs:33-41 | the blend keeps the dimension; what it computes is stated by `BlendWithOnes`, `BlendWithZeros`, `BlendWithHalf` and `BlendApproachesSample` below |
| `LowPass.Step` | src/lowpass.rs:32-43 | one `filter_mut` output keeps the dimension; it is the sample when no state is held (`StepWithoutStatePassesThrough`) and the blend otherwise, which `FilterMut` is proved to compute |
| `LowPass.StepWithoutStatePassesThrough` | src/lowpass.rs:32-43 | with no stored state the output equals the sample whatever α is |
| `LowPass.BlendWithOnes` | src/lowpass.rs:33-41 | an all-ones α returns the sample |
| `LowPass.BlendWithZeros` | src/lowpass.rs:33-41 | an all-zeros α returns the previous state |
| `LowPass.BlendWithHalf` | src/lowpass.rs:33-41 | α = 1/2 returns the mean of sample and previous state |
| `LowPass.BlendApproachesSample` | src/lowpass.rs:33-41 | for α in [0, 1] the distance from output to sample is the previous distance times (1 − α), hence no larger |
| `LowPass.LowPassFilter.New` | src/lowpass.rs:22-24 | `new(s)` holds state s |
| `LowPass.LowPassFilter.Default` | src/lowpass.rs:55-64 | `default()` holds no state |
| `LowPass.LowPassFilter.FilterMut` | src/lowpass.rs:32-44 | the buffer becomes the sample when no state is held, otherwise sample·α + state·(1 − α) per component; the stored state becomes that output |
| `LowPass.LowPassFilter.Filter` | src/lowpass.rs:26-30 | returns what `filter_mut` produces on a copy, stores it as the state, and leaves the caller's sample alone |
| `LowPass.LowPassFilter.Reset` | src/lowpass.rs:50-52 | the state becomes empty, so the next call passes its sample through |
| `OneEuro.AlphaOf` | src/oneeuro.rs:93-100 | one component of `alpha` equals the `get_alpha_unchecked` value for a positive rate and cutoff |
| `OneEuro.AlphaVec` | src/oneeuro.rs:93-100 | `alpha(c)` has one factor per component, each the formula of its own cutoff, and in (0, 1) where rate and cutoff are positive |
| `OneEuro.CheckNew` | src/oneeuro.rs:28-37 | `new` passes iff rate > 0 and every component of both cutoff vectors is > 0, and it fails on the rate first |
| `OneEuro.RawDerivative` | src/oneeuro.rs:79-82 | the finite difference has one component per sample component, each (sample_i − last_i)·rate when a previous sample exists; without one it is zero (`FirstCall`) |
| `OneEuro.Derivative` | src/oneeuro.rs:84 | the smoothed derivative keeps the dimension and is zero while the derivative stage is empty; later calls are stated by `LaterCall` |
| `OneEuro.Cutoff` | src/oneeuro.rs:86 | each adaptive cutoff is min_cutoff_i + \|d_i\|·slope; with slope ≥ 0 it is at least min_cutoff_i (`NonNegativeSlopeFilterable`) and with slope 0 it equals it (`ZeroSlopeFixedCutoff`) |
| `OneEuro.Output` | src/oneeuro.rs:90 | the emitted vector keeps the dimension and is the sample itself while the signal stage is empty; later calls are stated by `LaterCall` |
| `OneEuro.Next` | src/oneeuro.rs:84-90 | after a call the three state parts are seeded together with the filter's dimension, and the stored sample is the raw input (`StateIsRawNotFiltered` shows it is not the output) |
| `OneEuro.FirstCall` | src/oneeuro.rs:72-90 | the first call after construction or reset has a zero derivative and cutoff `min_cutoff`, outputs the sample, and stores the sample in all three parts of the state |
| `OneEuro.LaterCall` | src/oneeuro.rs:78-91 | on later calls the derivative stage blends (sample − last)·rate, the cutoff is min_cutoff + slope·\|d\|, and the output blends the sample with alpha(cutoff) |
| `OneEuro.NonNegativeSlopeFilterable` | src/oneeuro.rs:84-90 | with slope ≥ 0 every cutoff is ≥ min_cutoff, every factor is defined and lies in (0, 1) |
| `OneEuro.NegativeSlopeBreaksAlpha` | src/oneeuro.rs:28-37 | a configuration `new` accepts, with slope −0.1, fed [0] and then [10/α_d] from a fresh filter, has a zero cutoff on the second call, where `alpha` is undefined |
| `OneEuro.ZeroSlopeFixedCutoff` | src/oneeuro.rs:86 | with slope 0 the cutoff is always `min_cutoff` |
| `OneEuro.StateIsRawNotFiltered` | src/oneeuro.rs:88-104 | the stored state is the last raw sample, which differs from the filtered output |
| `OneEuro.OneEuroFilter.New` | src/oneeuro.rs:28-47 | fails with `CheckNew`'s fault unless rate and every cutoff are positive; otherwise the filter holds the given parameters and no state |
| `OneEuro.OneEuroFilter.SetRate` | src/oneeuro.rs:58-61 | rejects values ≤ 0; otherwise only the rate changes |
| `OneEuro.OneEuroFilter.SetCutoffSlope` | src/oneeuro.rs:63-66 | rejects values ≤ 0, zero included; otherwise only the slope changes |
| `OneEuro.OneEuroFilter.FilterMut` | src/oneeuro.rs:78-91 | overwrites the sample with `Output` and moves the state to `Next`; parameters unchanged; the three state parts stay seeded together |
| `OneEuro.OneEuroFilter.Filter` | src/oneeuro.rs:72-76 | returns `Output` on a copy and moves the state to `Next` |
| `OneEuro.OneEuroFilter.Reset` | src/oneeuro.rs:106-110 | clears the stored sample and both inner stages and keeps the parameters, so the next call behaves like the first |
| `OneEuro.Builder.Resolved` | src/oneeuro.rs:132-139 | the `unwrap_or` defaults: a given rate is kept, missing cutoffs become all ones, and both cutoff vectors have dimension `dim`; the full defaults are stated by `DefaultBuilder` |
| `OneEuro.Builder.WithRate` | src/oneeuro.rs:141-144 | only the rate changes |
| `OneEuro.Builder.WithCutoffSlope` | src/oneeuro.rs:146-149 | only the slope changes |
| `OneEuro.Builder.WithMinCutoff` | src/oneeuro.rs:151-154 | only `min_cutoff` changes, with the scalar copied into every component |
| `OneEuro.Builder.WithDerivateCutoff` | src/oneeuro.rs:156-159 | only `derivate_cutoff` changes, with the scalar copied into every component |
| `OneEuro.Builder.Build` | src/oneeuro.rs:132-139 | builds exactly as `new` with the resolved arguments, failing where `new` fails |
| `OneEuro.DefaultBuilder` | src/oneeuro.rs:162-176 | the default builder resolves to rate 1, slope 0, all-ones cutoffs |
| `OneEuro.DefaultBuildAccepted` | src/oneeuro.rs:132-139 | the defaults pass `new`, but their slope 0 is a value `set_cutoff_slope` rejects |
| `SeededLowPass.LowPassState.UpdateUnchecked` | src/lowpass.rs:33-41 | assumed blend: α = 1 takes the input, α = 0 keeps the state |
| `SeededLowPass.LowPassState.Update` | src/state.rs:84-85 | assumed check `assert_alpha!(alpha)`: succeeds iff every α is in (0, 1], and then equals the unchecked update; otherwise fails with the fault `AssertAlpha` names |
| `State.Cutoff` | src/state.rs:54-56 | `get_cutoff` gives one cutoff per component, intercept + slope·\|d_i\|, and every cutoff equals the intercept when the derivative is zero; the bounds for beta ≥ 0 are stated by `DocumentedCutoffs` and `FasterMeansLessSmoothing` |
| `State.MapGetAlpha` | src/state.rs:87-89 | the checked map succeeds iff rate > 0 and every cutoff > 0, and then yields the per-component factors; its fault is the rate's when rate ≤ 0 |
| `State.SampleAlpha` | src/state.rs:118-120 | every per-component factor is in (0, 1] |
| `State.DocumentedCutoffs` | src/state.rs:54-56 | under the documented contract every cutoff is ≥ mincutoff > 0, every `get_alpha` call succeeds and every factor is in (0, 1] |
| `State.Advance` | src/state.rs:84-94 | a successful update stores the new raw sample and the derivative from the derivative stage, in that stage-first order; the signal stage is stated by `NextComponents` |
| `State.Next` | src/state.rs:107-125 | the unchecked update stores the new raw sample and the derivative stage fed (raw − previous raw)·rate with the caller's α; the filtered value is stated by `NextComponents` |
| `State.NextComponents` | src/state.rs:115-122 | per component: d_i = ((raw_i − previous raw_i)·rate)·α_i + previous d_i·(1 − α_i), the cutoff mincutoff + beta·\|d_i\| is at least mincutoff, and filtered_i = raw_i·a + previous filtered_i·(1 − a) with a = alpha(rate, cutoff) |
| `State.CheckedUpdate` | src/state.rs:76-95 | passes iff α is in (0, 1] and every computed cutoff gets a factor; then the full update; on an α failure nothing changes and the fault is `assert_alpha!`'s; on a cutoff failure only the derivative has advanced |
| `State.CheckedAgreesWithUnchecked` | src/state.rs:97-105 | when the documented contract holds, `update` passes and gives the same state as `update_unchecked` |
| `State.CheckedRejectsRate` | src/state.rs:87-89 | with D ≥ 1 and α in (0, 1], a rate ≤ 0 makes `update` fail with the rate fault |
| `State.CheckedRejectsMinCutoffAtRest` | src/state.rs:84-89 | at rest (same raw, zero derivative) the derivative stays zero and mincutoff ≤ 0 makes `update` fail |
| `State.CheckedAcceptsBeyondDocumentation` | src/state.rs:68-95 | `update` passes with a negative beta (α = 1), with a negative mincutoff, and with D = 0 and a rate of zero, all of which the documentation excludes |
| `State.FasterMeansLessSmoothing` | src/state.rs:54-56 | with beta ≥ 0 a larger \|d_i\| gives a cutoff ≥ mincutoff that is no smaller, and a factor that is no smaller |
| `State.ConstantInputConverges` | src/state.rs:84-92 | for an unchanged raw sample the smoothed derivative does not grow in magnitude and the filtered value does not move away from the sample |
| `State.OneEuroState.Data` | src/state.rs:31-35 | `data()` returns the filtered part of the state, of dimension `dim` |
| `State.OneEuroState.Raw` | src/state.rs:37-41 | `raw()` returns the last raw sample, of dimension `dim` |
| `State.OneEuroState.Derivate` | src/state.rs:25-29 | `derivate()` returns the smoothed derivative, of dimension `dim` |
| `State.OneEuroState.constructor` | src/state.rs:17-23 | `new(s)`: `raw()` = s, `data()` = s, `derivate()` = 0 |
| `State.OneEuroState.Update` | src/state.rs:76-95 | the new state and the outcome are those of `CheckedUpdate` |
| `State.OneEuroState.UpdateUnchecked` | src/state.rs:107-125 | the new state is `Next` of the old one |
| `Filter.OneEuroFilter.Default` | src/filter.rs:96-105 | `dcutoff` = `mincutoff` = `beta` = 1, and the parameter invariant holds |
| `Filter.OneEuroFilter.SetDcutoff` | src/filter.rs:33-38 | rejects values ≤ 0; otherwise only `dcutoff` changes; the invariant mincutoff > 0, dcutoff > 0, beta ≥ 0 is kept |
| `Filter.OneEuroFilter.SetMincutoff` | src/filter.rs:40-45 | rejects values ≤ 0; otherwise only `mincutoff` changes; the invariant is kept |
| `Filter.OneEuroFilter.SetBeta` | src/filter.rs:47-52 | rejects negative values and accepts 0; otherwise only `beta` changes; the invariant is kept |
| `Filter.OneEuroFilter.GetAlpha` | src/filter.rs:90-93 | every component is alpha(rate, dcutoff), in (0, 1] |
| `Filter.OneEuroFilter.Filter` | src/filter.rs:54-71 | exactly one unchecked update with (get_alpha(rate), rate, mincutoff, beta); the parameters are untouched |
| `Filter.OneEuroFilter.FilterSlice` | src/filter.rs:73-88 | for each i < min(#states, #raws), state i becomes `Next` of its own old state and `raws[i]` with the shared factor, as `filter` would make it; later states are unchanged |

## Left out

- Floating-point behaviour is not modelled: infinities, NaN propagation, the `f64::EPSILON` and infinite-argument tests of src/alpha.rs (lines 59-72), and the "not finite" panic its documentation mentions, which the code does not implement. Reals replace floats; `TwoPi` is a finite decimal.
- The `LowPassState` type of the second generation (its source file is not among the files modelled here) is an assumption of the model, described above; in particular its checked `update` is assumed to apply `assert_alpha!`.
- `tests/main.rs` (CSV fixtures, serde, `Duration` handling, comparison within 1e-6) and `benches/filter_bench.rs` (a benchmark driver): I/O and data that are not part of this model.
- `src/lib.rs`: module declarations and re-exports only.
- The nalgebra generics (`RealField`, `DimName`, `DefaultAllocator`, `OVector`/`SVector`) are replaced by `real` and `seq<real>` of length `dim`. A type-level dimension D becomes a `dim` field or argument.
- The `AsRef`/`From` conversions of src/state.rs:128-154; `From` is `new`, and the `AsRef<[T; D]>` reinterpretation of memory has no counterpart. The derives (`Debug`, `Clone`, `Copy`) are left out too.
- The plain getters (`get_rate`, `get_cutoff_slope`, `get_state` in src/oneeuro.rs; `beta`, `dcutoff`, `mincutoff` in src/filter.rs; `get_state` in src/lowpass.rs) are reads of the class fields. `OneEuroFilter::builder()` is `OneEuro.DefaultBuilder`.
- OneEuro.OneEuroFilter.FilterMut: requires every adaptive cutoff to give a defined factor (`Filterable`), because the slope is never checked and real division by zero has no value.
- OneEuro.OneEuroFilter.Filter: the same requirement as `FilterMut`.
- Filter.OneEuroFilter.GetAlpha: requires rate > 0, which the source never checks. A rate of −2π·dcutoff divides by zero, and `update_unchecked`'s documented contract asks for a positive rate.
- Filter.OneEuroFilter.Filter: requires rate > 0, for the same reason as `GetAlpha`.
- Filter.OneEuroFilter.FilterSlice: requires rate > 0, for the same reason as `GetAlpha`. It also requires the states to be distinct objects, which a Rust slice of values guarantees.
- State.OneEuroState.UpdateUnchecked: requires the documented safety contract (α in (0, 1], rate > 0, mincutoff > 0, beta ≥ 0); outside it the source's result is unspecified.
