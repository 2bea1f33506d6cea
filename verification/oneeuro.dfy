/** The first-generation adaptive filter of src/oneeuro.rs: a One Euro filter
    over vectors of dimension `dim` that owns its parameters, two optional-state
    low-pass stages (signal and derivative) and the last raw sample, plus the
    builder that supplies default parameters. */
module OneEuro {
  import opened Wrappers
  import opened Vectors
  import opened LowPass
  import Alpha

  /** The divisions in `alpha` are defined for this cutoff: 2π·c is not zero
      and neither is 1 + rate/(2π·c). */
  predicate AlphaDefined(rate: real, cutoff: real)
  {
    cutoff != 0.0 && Alpha.TwoPi * cutoff + rate != 0.0
  }

  lemma DenominatorNonZero(rate: real, cutoff: real)
    requires AlphaDefined(rate, cutoff)
    ensures rate / (cutoff * Alpha.TwoPi) + 1.0 != 0.0
  {
    var tau := cutoff * Alpha.TwoPi;
    assert (rate / tau + 1.0) * tau == rate + tau;
  }

  /** One component of `alpha`: tau = 2π·c, k = rate/tau, result 1/(k + 1). */
  function AlphaOf(rate: real, cutoff: real): (a: real)
    requires AlphaDefined(rate, cutoff)
    ensures rate > 0.0 && cutoff > 0.0 ==> a == Alpha.GetAlphaUnchecked(rate, cutoff)
  {
    DenominatorNonZero(rate, cutoff);
    1.0 / (rate / (cutoff * Alpha.TwoPi) + 1.0)
  }

  /** `alpha(cutoff)`: the per-component smoothing factor for the filter's rate. */
  function AlphaVec(rate: real, cutoff: Vector): (a: Vector)
    requires forall i :: 0 <= i < |cutoff| ==> AlphaDefined(rate, cutoff[i])
    ensures |a| == |cutoff|
    ensures forall i :: 0 <= i < |cutoff| ==> a[i] == AlphaOf(rate, cutoff[i])
    ensures rate > 0.0 ==> forall i :: 0 <= i < |cutoff| && cutoff[i] > 0.0 ==> 0.0 < a[i] < 1.0
  {
    seq(|cutoff|, i requires 0 <= i < |cutoff| => AlphaOf(rate, cutoff[i]))
  }

  /** The filter's parameters: `rate`, `cutoff_slope`, `min_cutoff`, `derivate_cutoff`. */
  datatype Config = Config(rate: real, cutoffSlope: real, minCutoff: Vector, derivateCutoff: Vector)

  /** What `new` checks: a positive rate and positive cutoffs. The slope is not checked. */
  ghost predicate ValidConfig(c: Config, dim: nat)
  {
    && c.rate > 0.0
    && |c.minCutoff| == dim && |c.derivateCutoff| == dim
    && (forall i :: 0 <= i < dim ==> c.minCutoff[i] > 0.0)
    && (forall i :: 0 <= i < dim ==> c.derivateCutoff[i] > 0.0)
  }

  /** The state the filter carries between calls: the last raw sample and the
      states of its signal and derivative stages. */
  datatype Memory = Memory(last: Option<Vector>, sampleStage: Option<Vector>, derivateStage: Option<Vector>)

  /** After construction or `reset`. */
  const Empty := Memory(None, None, None)

  /** The three parts are seeded together and have the filter's dimension. */
  ghost predicate ValidMemory(m: Memory, dim: nat)
  {
    && (m.last.Some? ==> |m.last.value| == dim)
    && (m.sampleStage.Some? ==> |m.sampleStage.value| == dim)
    && (m.derivateStage.Some? ==> |m.derivateStage.value| == dim)
    && (m.last.None? <==> m.sampleStage.None?)
    && (m.last.None? <==> m.derivateStage.None?)
  }

  /** The finite-difference derivative fed to the derivative stage: zero without a
      previous sample, otherwise (sample − last)·rate. */
  function RawDerivative(c: Config, m: Memory, sample: Vector): (d: Vector)
    requires m.last.Some? ==> |m.last.value| == |sample|
    ensures |d| == |sample|
    ensures m.last.Some? ==> forall i :: 0 <= i < |d| ==> d[i] == (sample[i] - m.last.value[i]) * c.rate
  {
    match m.last
    case None => Zeros(|sample|)
    case Some(value) => Scale(Sub(sample, value), c.rate)
  }

  /** The smoothed derivative: the derivative stage's output for this call. */
  function Derivative(c: Config, m: Memory, sample: Vector): (d: Vector)
    requires ValidConfig(c, |sample|) && ValidMemory(m, |sample|)
    ensures |d| == |sample|
    ensures m.derivateStage.None? ==> d == Zeros(|sample|)
  {
    Step(m.derivateStage, RawDerivative(c, m, sample), AlphaVec(c.rate, c.derivateCutoff))
  }

  /** The adaptive cutoff min_cutoff + slope·|d|. */
  function Cutoff(c: Config, d: Vector): (k: Vector)
    requires |c.minCutoff| == |d|
    ensures |k| == |d|
    ensures forall i :: 0 <= i < |d| ==> k[i] == c.minCutoff[i] + AbsReal(d[i]) * c.cutoffSlope
  {
    Add(c.minCutoff, Scale(Abs(d), c.cutoffSlope))
  }

  /** Every adaptive cutoff of this call gives a defined smoothing factor. */
  ghost predicate Filterable(c: Config, m: Memory, sample: Vector)
  {
    && ValidConfig(c, |sample|) && ValidMemory(m, |sample|)
    && forall i :: 0 <= i < |sample| ==> AlphaDefined(c.rate, Cutoff(c, Derivative(c, m, sample))[i])
  }

  /** What one call of `filter_mut` writes into the sample. */
  function Output(c: Config, m: Memory, sample: Vector): (y: Vector)
    requires Filterable(c, m, sample)
    ensures |y| == |sample|
    ensures m.sampleStage.None? ==> y == sample
  {
    Step(m.sampleStage, sample, AlphaVec(c.rate, Cutoff(c, Derivative(c, m, sample))))
  }

  /** The memory after one call of `filter_mut`. */
  function Next(c: Config, m: Memory, sample: Vector): (n: Memory)
    requires Filterable(c, m, sample)
    ensures ValidMemory(n, |sample|) && n.last == Some(sample)
    ensures n.sampleStage.Some? && n.derivateStage.Some?
  {
    Memory(Some(sample), Some(Output(c, m, sample)), Some(Derivative(c, m, sample)))
  }

  /** `new`'s checks, in order: the rate, each `min_cutoff`, each `derivate_cutoff`. */
  function CheckNew(rate: real, minCutoff: Vector, derivateCutoff: Vector): (r: Outcome<Fault>)
    ensures r.Pass? <==>
      rate > 0.0 && (forall i :: 0 <= i < |minCutoff| ==> minCutoff[i] > 0.0)
                 && (forall i :: 0 <= i < |derivateCutoff| ==> derivateCutoff[i] > 0.0)
    ensures r == Fail(RateNotPositive) <==> rate <= 0.0
  {
    if rate <= 0.0 then Fail(RateNotPositive)
    else if exists i :: 0 <= i < |minCutoff| && minCutoff[i] <= 0.0 then Fail(MinCutoffNotPositive)
    else if exists i :: 0 <= i < |derivateCutoff| && derivateCutoff[i] <= 0.0 then Fail(DerivateCutoffNotPositive)
    else Pass
  }

  /** The first call after construction or `reset`: the derivative is zero, the
      cutoff is `min_cutoff`, the output is the sample itself, and the sample
      becomes the state of all three parts. */
  lemma FirstCall(c: Config, sample: Vector)
    requires ValidConfig(c, |sample|)
    ensures Filterable(c, Empty, sample)
    ensures Derivative(c, Empty, sample) == Zeros(|sample|)
    ensures Cutoff(c, Zeros(|sample|)) == c.minCutoff
    ensures Output(c, Empty, sample) == sample
    ensures Next(c, Empty, sample) == Memory(Some(sample), Some(sample), Some(Zeros(|sample|)))
  {
    var n := |sample|;
    assert Derivative(c, Empty, sample) == Zeros(n);
    var k := Cutoff(c, Zeros(n));
    assert forall i :: 0 <= i < n ==> k[i] == c.minCutoff[i];
    assert k == c.minCutoff;
  }

  /** A later call, component by component: the derivative stage blends
      (sample − last)·rate into its state with alpha(derivate_cutoff), the
      cutoff is min_cutoff + slope·|d|, and the signal stage blends the sample
      with alpha(cutoff). */
  lemma LaterCall(c: Config, m: Memory, sample: Vector, i: nat)
    requires Filterable(c, m, sample) && m.last.Some? && i < |sample|
    ensures var ad := AlphaOf(c.rate, c.derivateCutoff[i]);
      Derivative(c, m, sample)[i]
        == ((sample[i] - m.last.value[i]) * c.rate) * ad + m.derivateStage.value[i] * (1.0 - ad)
    ensures Cutoff(c, Derivative(c, m, sample))[i]
      == c.minCutoff[i] + AbsReal(Derivative(c, m, sample)[i]) * c.cutoffSlope
    ensures var a := AlphaVec(c.rate, Cutoff(c, Derivative(c, m, sample)))[i];
      Output(c, m, sample)[i] == sample[i] * a + m.sampleStage.value[i] * (1.0 - a)
  {
  }

  /** A non-negative slope keeps every cutoff at or above `min_cutoff`, so every
      factor is defined and lies strictly between 0 and 1. */
  lemma NonNegativeSlopeFilterable(c: Config, m: Memory, sample: Vector)
    requires ValidConfig(c, |sample|) && ValidMemory(m, |sample|) && c.cutoffSlope >= 0.0
    ensures forall i :: 0 <= i < |sample| ==> Cutoff(c, Derivative(c, m, sample))[i] >= c.minCutoff[i]
    ensures Filterable(c, m, sample)
    ensures forall i :: 0 <= i < |sample| ==>
      0.0 < AlphaVec(c.rate, Cutoff(c, Derivative(c, m, sample)))[i] < 1.0
  {
    var d := Derivative(c, m, sample);
    forall i | 0 <= i < |sample|
      ensures Cutoff(c, d)[i] >= c.minCutoff[i]
    {
      ProductOfNonNegatives(AbsReal(d[i]), c.cutoffSlope);
    }
  }

  /** Nothing checks the slope: a filter that `new` accepts with slope −0.1,
      fed [0] and then the jump [10/α_d] (α_d the derivative stage's factor),
      smooths the derivative to 10, so the cutoff 1 − 0.1·10 is zero and
      `alpha` divides by zero on the second call. */
  lemma NegativeSlopeBreaksAlpha()
    ensures var c := Config(1.0, -0.1, [1.0], [1.0]);
      var m := Next(c, Empty, [0.0]);
      ValidConfig(c, 1) && CheckNew(c.rate, c.minCutoff, c.derivateCutoff) == Pass
      && !Filterable(c, m, [10.0 / AlphaOf(1.0, 1.0)])
  {
    var c := Config(1.0, -0.1, [1.0], [1.0]);
    FirstCall(c, [0.0]);
    var m := Next(c, Empty, [0.0]);
    var ad := AlphaOf(1.0, 1.0);
    assert 0.0 < ad < 1.0;
    var x := [10.0 / ad];
    assert RawDerivative(c, m, x)[0] == 10.0 / ad;
    assert Derivative(c, m, x)[0] == (10.0 / ad) * ad + 0.0 * (1.0 - ad);
    assert Derivative(c, m, x)[0] == 10.0;
    assert Cutoff(c, Derivative(c, m, x))[0] == 0.0;
  }

  /** With a zero slope the cutoff is always `min_cutoff`: a plain low-pass filter. */
  lemma ZeroSlopeFixedCutoff(c: Config, d: Vector)
    requires |c.minCutoff| == |d| && c.cutoffSlope == 0.0
    ensures Cutoff(c, d) == c.minCutoff
  {
    assert forall i :: 0 <= i < |d| ==> Cutoff(c, d)[i] == c.minCutoff[i];
  }

  /** The stored state is the last raw sample, not the filtered output: after
      [0] the sample [1] gives an output below 1 while the state becomes [1]. */
  lemma StateIsRawNotFiltered()
    ensures var c := Config(1.0, 0.0, [1.0], [1.0]);
      var m := Next(c, Empty, [0.0]);
      ValidConfig(c, 1) && Filterable(c, m, [1.0])
      && Next(c, m, [1.0]).last == Some([1.0])
      && Output(c, m, [1.0]) != [1.0]
  {
    var c := Config(1.0, 0.0, [1.0], [1.0]);
    FirstCall(c, [0.0]);
    var m := Next(c, Empty, [0.0]);
    NonNegativeSlopeFilterable(c, m, [1.0]);
    ZeroSlopeFixedCutoff(c, Derivative(c, m, [1.0]));
    var a := AlphaOf(1.0, 1.0);
    assert 0.0 < a < 1.0;
    assert Output(c, m, [1.0])[0] == 1.0 * a + 0.0 * (1.0 - a);
  }

  /** `OneEuroFilter<T, D>` of src/oneeuro.rs. */
  class OneEuroFilter {
    const dim: nat
    var rate: real
    var cutoffSlope: real
    var minCutoff: Vector
    var derivateCutoff: Vector
    const sampleFilter: LowPassFilter
    const derivateFilter: LowPassFilter
    var state: Option<Vector>

    function Cfg(): Config
      reads this
    {
      Config(rate, cutoffSlope, minCutoff, derivateCutoff)
    }

    function Mem(): Memory
      reads this, sampleFilter, derivateFilter
    {
      Memory(state, sampleFilter.state, derivateFilter.state)
    }

    ghost predicate Valid()
      reads this, sampleFilter, derivateFilter
    {
      && sampleFilter != derivateFilter
      && sampleFilter.dim == dim && derivateFilter.dim == dim
      && sampleFilter.Valid() && derivateFilter.Valid()
      && ValidConfig(Cfg(), dim)
      && ValidMemory(Mem(), dim)
    }

    constructor Init(c: Config, dim: nat)
      requires ValidConfig(c, dim)
      ensures Valid() && this.dim == dim && fresh(sampleFilter) && fresh(derivateFilter)
      ensures Cfg() == c && Mem() == Empty
    {
      this.dim := dim;
      rate, cutoffSlope, minCutoff, derivateCutoff := c.rate, c.cutoffSlope, c.minCutoff, c.derivateCutoff;
      sampleFilter := new LowPassFilter.Default(dim);
      derivateFilter := new LowPassFilter.Default(dim);
      state := None;
    }

    /** `new`: fails unless the rate and every cutoff component are positive;
        the new filter holds no state. */
    static method New(rate: real, cutoffSlope: real, minCutoff: Vector, derivateCutoff: Vector)
      returns (r: Result<OneEuroFilter, Fault>)
      requires |minCutoff| == |derivateCutoff|
      ensures CheckNew(rate, minCutoff, derivateCutoff).Fail? ==>
        r == Failure(CheckNew(rate, minCutoff, derivateCutoff).error)
      ensures CheckNew(rate, minCutoff, derivateCutoff).Pass? ==> r.Success?
      ensures r.Success? ==> fresh(r.value) && fresh(r.value.sampleFilter) && fresh(r.value.derivateFilter)
      ensures r.Success? ==> r.value.Valid() && r.value.dim == |minCutoff|
      ensures r.Success? ==> r.value.Cfg() == Config(rate, cutoffSlope, minCutoff, derivateCutoff)
      ensures r.Success? ==> r.value.Mem() == Empty
    {
      var check := CheckNew(rate, minCutoff, derivateCutoff);
      if check.Fail? {
        return Failure(check.error);
      }
      var f := new OneEuroFilter.Init(Config(rate, cutoffSlope, minCutoff, derivateCutoff), |minCutoff|);
      r := Success(f);
    }

    /** `set_rate`: rejects values <= 0 and otherwise changes only the rate. */
    method SetRate(value: real) returns (outcome: Outcome<Fault>)
      requires Valid()
      modifies this
      ensures Valid() && Mem() == old(Mem())
      ensures outcome == Alpha.Positive(value, ValueNotPositive)
      ensures Cfg() == if outcome.Pass? then old(Cfg()).(rate := value) else old(Cfg())
    {
      outcome := Alpha.Positive(value, ValueNotPositive);
      if outcome.Pass? {
        rate := value;
      }
    }

    /** `set_cutoff_slope`: rejects values <= 0 (zero included) and otherwise
        changes only the slope. */
    method SetCutoffSlope(value: real) returns (outcome: Outcome<Fault>)
      requires Valid()
      modifies this
      ensures Valid() && Mem() == old(Mem())
      ensures outcome == Alpha.Positive(value, ValueNotPositive)
      ensures Cfg() == if outcome.Pass? then old(Cfg()).(cutoffSlope := value) else old(Cfg())
    {
      outcome := Alpha.Positive(value, ValueNotPositive);
      if outcome.Pass? {
        cutoffSlope := value;
      }
    }

    /** `filter_mut`: smooths the derivative, derives the adaptive cutoff, records
        the raw sample as the state and overwrites `sample` with the output of
        the signal stage. The slope is never checked, so the caller guarantees
        that every adaptive cutoff gives a defined smoothing factor. */
    method FilterMut(sample: array<real>)
      requires Valid() && sample.Length == dim
      requires Filterable(Cfg(), Mem(), sample[..])
      modifies this, sampleFilter, derivateFilter, sample
      ensures Valid() && Cfg() == old(Cfg())
      ensures sample[..] == Output(old(Cfg()), old(Mem()), old(sample[..]))
      ensures Mem() == Next(old(Cfg()), old(Mem()), old(sample[..]))
    {
      ghost var c, m, input := Cfg(), Mem(), sample[..];
      var derivate: array<real>;
      match state {
        case Some(value) =>
          derivate := ToArray(Scale(Sub(sample[..], value), rate));
        case None =>
          derivate := ToArray(Zeros(dim));
      }
      assert derivate[..] == RawDerivative(c, m, input);
      derivateFilter.FilterMut(derivate, AlphaVec(rate, derivateCutoff));
      assert derivate[..] == Derivative(c, m, input);
      var cutoff := Add(minCutoff, Scale(Abs(derivate[..]), cutoffSlope));
      assert cutoff == Cutoff(c, Derivative(c, m, input));
      state := Some(sample[..]);
      sampleFilter.FilterMut(sample, AlphaVec(rate, cutoff));
    }

    /** `filter`: runs `filter_mut` on a copy of `sample` and returns it. */
    method Filter(sample: Vector) returns (output: Vector)
      requires Valid() && |sample| == dim
      requires Filterable(Cfg(), Mem(), sample)
      modifies this, sampleFilter, derivateFilter
      ensures Valid() && Cfg() == old(Cfg())
      ensures output == Output(old(Cfg()), old(Mem()), sample)
      ensures Mem() == Next(old(Cfg()), old(Mem()), sample)
    {
      var buffer := ToArray(sample);
      FilterMut(buffer);
      output := buffer[..];
    }

    /** `reset`: clears the state and both inner stages; parameters stay. */
    method Reset()
      requires Valid()
      modifies this, sampleFilter, derivateFilter
      ensures Valid() && Cfg() == old(Cfg())
      ensures Mem() == Empty
    {
      state := None;
      sampleFilter.Reset();
      derivateFilter.Reset();
    }
  }

  /** `OneEuroFilterBuilder<T, D>`: optional parameters for dimension `dim`,
      filled in by the `with_*` methods and defaulted by `build`. */
  datatype Builder = Builder(
    dim: nat,
    rate: Option<real>,
    cutoffSlope: Option<real>,
    minCutoff: Option<Vector>,
    derivateCutoff: Option<Vector>)
  {
    ghost predicate Valid()
    {
      && (minCutoff.Some? ==> |minCutoff.value| == dim)
      && (derivateCutoff.Some? ==> |derivateCutoff.value| == dim)
    }

    /** The arguments `build` passes to `new`: each given value, or its default
        (rate 1, slope 0, all-ones cutoffs). */
    function Resolved(): (c: Config)
      requires Valid()
      ensures |c.minCutoff| == dim && |c.derivateCutoff| == dim
      ensures rate.Some? ==> c.rate == rate.value
      ensures minCutoff.None? ==> forall i :: 0 <= i < dim ==> c.minCutoff[i] == 1.0
      ensures derivateCutoff.None? ==> forall i :: 0 <= i < dim ==> c.derivateCutoff[i] == 1.0
    {
      Config(
        if rate.Some? then rate.value else 1.0,
        if cutoffSlope.Some? then cutoffSlope.value else 0.0,
        if minCutoff.Some? then minCutoff.value else Repeat(1.0, dim),
        if derivateCutoff.Some? then derivateCutoff.value else Repeat(1.0, dim))
    }

    /** `with_rate`: sets the rate and nothing else. */
    function WithRate(value: real): (b: Builder)
      requires Valid()
      ensures b.Valid() && b.dim == dim
      ensures b.Resolved() == Resolved().(rate := value)
    {
      this.(rate := Some(value))
    }

    /** `with_cutoff_slope`: sets the slope and nothing else; not validated. */
    function WithCutoffSlope(value: real): (b: Builder)
      requires Valid()
      ensures b.Valid() && b.dim == dim
      ensures b.Resolved() == Resolved().(cutoffSlope := value)
    {
      this.(cutoffSlope := Some(value))
    }

    /** `with_min_cutoff`: copies one scalar into every component. */
    function WithMinCutoff(value: real): (b: Builder)
      requires Valid()
      ensures b.Valid() && b.dim == dim
      ensures b.Resolved() == Resolved().(minCutoff := b.Resolved().minCutoff)
      ensures forall i :: 0 <= i < dim ==> b.Resolved().minCutoff[i] == value
    {
      this.(minCutoff := Some(Repeat(value, dim)))
    }

    /** `with_derivate_cutoff`: copies one scalar into every component. */
    function WithDerivateCutoff(value: real): (b: Builder)
      requires Valid()
      ensures b.Valid() && b.dim == dim
      ensures b.Resolved() == Resolved().(derivateCutoff := b.Resolved().derivateCutoff)
      ensures forall i :: 0 <= i < dim ==> b.Resolved().derivateCutoff[i] == value
    {
      this.(derivateCutoff := Some(Repeat(value, dim)))
    }

    /** `build`: calls `new` with the resolved arguments, so it fails exactly
        where `new` fails. */
    method Build() returns (r: Result<OneEuroFilter, Fault>)
      requires Valid()
      ensures var c := Resolved();
        CheckNew(c.rate, c.minCutoff, c.derivateCutoff).Fail? ==>
          r == Failure(CheckNew(c.rate, c.minCutoff, c.derivateCutoff).error)
      ensures var c := Resolved();
        CheckNew(c.rate, c.minCutoff, c.derivateCutoff).Pass? ==> r.Success?
      ensures r.Success? ==> fresh(r.value) && r.value.Valid() && r.value.dim == dim
      ensures r.Success? ==> r.value.Cfg() == Resolved() && r.value.Mem() == Empty
    {
      var c := Resolved();
      r := OneEuroFilter.New(c.rate, c.cutoffSlope, c.minCutoff, c.derivateCutoff);
    }
  }

  /** `OneEuroFilterBuilder::default()`: nothing given yet. */
  function DefaultBuilder(dim: nat): (b: Builder)
    ensures b.Valid() && b.dim == dim
    ensures b.Resolved() == Config(1.0, 0.0, Repeat(1.0, dim), Repeat(1.0, dim))
  {
    Builder(dim, None, None, None, None)
  }

  /** The default parameters pass `new`'s checks. Its slope of 0, however, is a
      value `set_cutoff_slope` rejects, so it cannot be restored by the setter. */
  lemma DefaultBuildAccepted(dim: nat)
    ensures var c := DefaultBuilder(dim).Resolved();
      CheckNew(c.rate, c.minCutoff, c.derivateCutoff) == Pass
      && Alpha.Positive(c.cutoffSlope, ValueNotPositive).Fail?
  {
  }
}
