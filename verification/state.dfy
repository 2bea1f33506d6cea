/** The second-generation filter state of src/state.rs: an eagerly seeded
    `OneEuroState` holding the last raw sample and two seeded low-pass stages
    (the filtered signal and the smoothed derivative), with the adaptive-cutoff
    update in checked and unchecked forms. */
module State {
  import opened Wrappers
  import opened Vectors
  import opened Alpha
  import LowPass
  import opened SeededLowPass

  /** What the accessors `raw()`, `data()` and `derivate()` return. */
  datatype Snapshot = Snapshot(raw: Vector, filtered: Vector, derivate: Vector)

  ghost predicate Shaped(s: Snapshot, dim: nat)
  {
    |s.raw| == dim && |s.filtered| == dim && |s.derivate| == dim
  }

  /** `new(sample)`: raw and filtered are the sample, the derivative is zero. */
  function Seed(sample: Vector): Snapshot
  {
    Snapshot(sample, sample, Zeros(|sample|))
  }

  /** `get_cutoff(intercept, slope)`: intercept + slope·|d| for the derivative
      `d`; a zero derivative leaves every cutoff at the intercept. */
  function Cutoff(derivate: Vector, intercept: real, slope: real): (c: Vector)
    ensures |c| == |derivate|
    ensures forall i :: 0 <= i < |c| ==> c[i] == intercept + slope * AbsReal(derivate[i])
    ensures derivate == Zeros(|derivate|) ==> c == Repeat(intercept, |derivate|)
  {
    assert derivate == Zeros(|derivate|) ==>
      AddScalar(Scale(Abs(derivate), slope), intercept) == Repeat(intercept, |derivate|) by {
      if derivate == Zeros(|derivate|) {
        var c := AddScalar(Scale(Abs(derivate), slope), intercept);
        assert forall i :: 0 <= i < |derivate| ==> c[i] == intercept;
      }
    }

    AddScalar(Scale(Abs(derivate), slope), intercept)
  }

  /** The finite difference (raw − previous raw)·rate fed to the derivative stage. */
  function DerivativeInput(s: Snapshot, newRaw: Vector, rate: real): Vector
    requires |s.raw| == |newRaw|
  {
    Scale(Sub(newRaw, s.raw), rate)
  }

  /** The derivative after this step's update of the derivative stage. */
  function NextDerivative(s: Snapshot, newRaw: Vector, alpha: Vector, rate: real): Vector
    requires Shaped(s, |newRaw|) && |alpha| == |newRaw|
  {
    LowPass.Blend(DerivativeInput(s, newRaw, rate), s.derivate, alpha)
  }

  /** `get_alpha(rate, cutoff_i)` succeeds for every component. */
  ghost predicate Accepted(rate: real, cutoff: Vector)
  {
    forall i :: 0 <= i < |cutoff| ==> rate > 0.0 && cutoff[i] > 0.0
  }

  /** Every call of `get_alpha(rate, cutoff_i)` that `update` makes succeeds. */
  ghost predicate CutoffsAccepted(s: Snapshot, newRaw: Vector, alpha: Vector, rate: real, mincutoff: real, beta: real)
    requires Shaped(s, |newRaw|) && |alpha| == |newRaw|
  {
    Accepted(rate, Cutoff(NextDerivative(s, newRaw, alpha, rate), mincutoff, beta))
  }

  /** The per-component factors alpha(rate, cutoff_i). */
  function SampleAlpha(rate: real, cutoff: Vector): (a: Vector)
    requires Accepted(rate, cutoff)
    ensures |a| == |cutoff| && InAlphaRange(a)
  {
    seq(|cutoff|, i requires 0 <= i < |cutoff| => GetAlphaUnchecked(rate, cutoff[i]))
  }

  /** `.map(|v| get_alpha(rate, v))`: the checked factor of each component in
      order; the first failure ends the map. */
  function MapGetAlpha(rate: real, cutoff: Vector): (r: Result<Vector, Fault>)
    ensures r.Success? <==> Accepted(rate, cutoff)
    ensures r.Success? ==> r.value == SampleAlpha(rate, cutoff)
    ensures r.Failure? ==> r.error == if rate <= 0.0 then RateNotPositive else CutoffNotPositive
  {
    if cutoff == [] then Success([])
    else
      match GetAlpha(rate, cutoff[0])
      case Failure(e) => Failure(e)
      case Success(a) =>
        match MapGetAlpha(rate, cutoff[1..])
        case Failure(e) => Failure(e)
        case Success(rest) =>
          assert forall i :: 1 <= i < |cutoff| ==> cutoff[i] == cutoff[1..][i - 1];
          Success([a] + rest)
  }

  /** One successful update: derivative stage first, then the cutoff from the
      updated derivative, then the signal stage, then the raw sample. */
  function Advance(s: Snapshot, newRaw: Vector, alpha: Vector, rate: real, mincutoff: real, beta: real): (n: Snapshot)
    requires Shaped(s, |newRaw|) && |alpha| == |newRaw|
    requires CutoffsAccepted(s, newRaw, alpha, rate, mincutoff, beta)
    ensures Shaped(n, |newRaw|) && n.raw == newRaw
    ensures n.derivate == NextDerivative(s, newRaw, alpha, rate)
  {
    var d := NextDerivative(s, newRaw, alpha, rate);
    var factors := SampleAlpha(rate, Cutoff(d, mincutoff, beta));
    Snapshot(newRaw, LowPass.Blend(newRaw, s.filtered, factors), d)
  }

  /** The safety contract documented for `update_unchecked`. */
  ghost predicate Documented(alpha: Vector, rate: real, mincutoff: real, beta: real)
  {
    InAlphaRange(alpha) && rate > 0.0 && mincutoff > 0.0 && beta >= 0.0
  }

  /** Under the documented contract every cutoff is at least `mincutoff`, so
      every `get_alpha` call succeeds and every per-component factor is in (0, 1). */
  lemma DocumentedCutoffs(s: Snapshot, newRaw: Vector, alpha: Vector, rate: real, mincutoff: real, beta: real)
    requires Shaped(s, |newRaw|) && |alpha| == |newRaw|
    requires Documented(alpha, rate, mincutoff, beta)
    ensures forall i :: 0 <= i < |newRaw| ==>
      Cutoff(NextDerivative(s, newRaw, alpha, rate), mincutoff, beta)[i] >= mincutoff
    ensures CutoffsAccepted(s, newRaw, alpha, rate, mincutoff, beta)
    ensures InAlphaRange(SampleAlpha(rate, Cutoff(NextDerivative(s, newRaw, alpha, rate), mincutoff, beta)))
  {
    var d := NextDerivative(s, newRaw, alpha, rate);
    forall i | 0 <= i < |newRaw|
      ensures Cutoff(d, mincutoff, beta)[i] >= mincutoff
    {
      LowPass.ProductOfNonNegatives(AbsReal(d[i]), beta);
    }
  }

  /** What `update_unchecked` computes, under its documented contract. */
  function Next(s: Snapshot, newRaw: Vector, alpha: Vector, rate: real, mincutoff: real, beta: real): (n: Snapshot)
    requires Shaped(s, |newRaw|) && |alpha| == |newRaw|
    requires Documented(alpha, rate, mincutoff, beta)
    ensures Shaped(n, |newRaw|) && n.raw == newRaw
    ensures n.derivate == NextDerivative(s, newRaw, alpha, rate)
  {
    DocumentedCutoffs(s, newRaw, alpha, rate, mincutoff, beta);
    Advance(s, newRaw, alpha, rate, mincutoff, beta)
  }

  /** One unchecked update, component by component: the derivative stage blends
      (raw − previous raw)·rate with the caller's α, the cutoff is
      mincutoff + beta·|d| for the updated derivative d, and the signal stage
      blends the new raw sample with alpha(rate, cutoff). */
  lemma NextComponents(s: Snapshot, newRaw: Vector, alpha: Vector, rate: real, mincutoff: real, beta: real, i: nat)
    requires Shaped(s, |newRaw|) && |alpha| == |newRaw| && i < |newRaw|
    requires Documented(alpha, rate, mincutoff, beta)
    ensures var n := Next(s, newRaw, alpha, rate, mincutoff, beta);
      n.derivate[i] == ((newRaw[i] - s.raw[i]) * rate) * alpha[i] + s.derivate[i] * (1.0 - alpha[i])
    ensures var n := Next(s, newRaw, alpha, rate, mincutoff, beta);
      mincutoff + beta * AbsReal(n.derivate[i]) >= mincutoff
      && var a := GetAlphaUnchecked(rate, mincutoff + beta * AbsReal(n.derivate[i]));
         n.filtered[i] == newRaw[i] * a + s.filtered[i] * (1.0 - a)
  {
    var n := Next(s, newRaw, alpha, rate, mincutoff, beta);
    var cutoff := Cutoff(n.derivate, mincutoff, beta);
    assert cutoff[i] == mincutoff + beta * AbsReal(n.derivate[i]) >= mincutoff;
    DocumentedCutoffs(s, newRaw, alpha, rate, mincutoff, beta);
    assert n.filtered == LowPass.Blend(newRaw, s.filtered, SampleAlpha(rate, cutoff));
  }

  /** The state after a checked `update`, and whether it panicked. */
  datatype Attempt = Attempt(after: Snapshot, outcome: Outcome<Fault>)

  /** What the checked `update` does: the derivative stage checks its alpha with
      `assert_alpha!` and leaves everything unchanged if that fails; otherwise the derivative is
      updated BEFORE the `get_alpha` calls, so a failing cutoff leaves the new
      derivative in place with the filtered value and raw sample untouched. */
  function CheckedUpdate(s: Snapshot, newRaw: Vector, alpha: Vector, rate: real, mincutoff: real, beta: real): (r: Attempt)
    requires Shaped(s, |newRaw|) && |alpha| == |newRaw|
    ensures r.outcome.Pass? <==>
      InAlphaRange(alpha) && CutoffsAccepted(s, newRaw, alpha, rate, mincutoff, beta)
    ensures r.outcome.Pass? ==> r.after == Advance(s, newRaw, alpha, rate, mincutoff, beta)
    ensures !InAlphaRange(alpha) ==> r == Attempt(s, AssertAlpha(alpha))
    ensures InAlphaRange(alpha) && r.outcome.Fail? ==>
      r.after == s.(derivate := NextDerivative(s, newRaw, alpha, rate))
      && r.outcome.error == (if rate <= 0.0 then RateNotPositive else CutoffNotPositive)
  {
    var stage := LowPassState(s.derivate).Update(DerivativeInput(s, newRaw, rate), alpha);
    if stage.Failure? then Attempt(s, Fail(stage.error))
    else
      var d := stage.value.value;
      assert d == NextDerivative(s, newRaw, alpha, rate);
      var factors := MapGetAlpha(rate, Cutoff(d, mincutoff, beta));
      if factors.Failure? then Attempt(s.(derivate := d), Fail(factors.error))
      else Attempt(Snapshot(newRaw, LowPassState(s.filtered).UpdateUnchecked(newRaw, factors.value).value, d), Pass)
  }

  /** When the documented contract holds, `update` and `update_unchecked` agree. */
  lemma CheckedAgreesWithUnchecked(s: Snapshot, newRaw: Vector, alpha: Vector, rate: real, mincutoff: real, beta: real)
    requires Shaped(s, |newRaw|) && |alpha| == |newRaw|
    requires Documented(alpha, rate, mincutoff, beta)
    ensures CheckedUpdate(s, newRaw, alpha, rate, mincutoff, beta)
      == Attempt(Next(s, newRaw, alpha, rate, mincutoff, beta), Pass)
  {
    DocumentedCutoffs(s, newRaw, alpha, rate, mincutoff, beta);
  }

  /** A non-positive rate makes the checked `update` fail (given at least one
      component; with none, `get_alpha` is never called). */
  lemma CheckedRejectsRate(s: Snapshot, newRaw: Vector, alpha: Vector, rate: real, mincutoff: real, beta: real)
    requires Shaped(s, |newRaw|) && |alpha| == |newRaw| && |newRaw| > 0
    requires InAlphaRange(alpha)
    requires rate <= 0.0
    ensures CheckedUpdate(s, newRaw, alpha, rate, mincutoff, beta).outcome == Fail(RateNotPositive)
  {
  }

  /** At rest (same raw sample, zero derivative) the cutoff is `mincutoff`, so a
      non-positive `mincutoff` makes the checked `update` fail. */
  lemma CheckedRejectsMinCutoffAtRest(s: Snapshot, alpha: Vector, rate: real, mincutoff: real, beta: real)
    requires Shaped(s, |s.raw|) && |alpha| == |s.raw| && |s.raw| > 0
    requires s.derivate == Zeros(|s.raw|)
    requires InAlphaRange(alpha)
    requires rate > 0.0 && mincutoff <= 0.0
    ensures NextDerivative(s, s.raw, alpha, rate) == Zeros(|s.raw|)
    ensures CheckedUpdate(s, s.raw, alpha, rate, mincutoff, beta).outcome == Fail(CutoffNotPositive)
  {
    var d := NextDerivative(s, s.raw, alpha, rate);
    assert forall i :: 0 <= i < |s.raw| ==> d[i] == 0.0;
    assert d == Zeros(|s.raw|);
    assert Cutoff(d, mincutoff, beta)[0] == mincutoff;
  }

  /** The checked `update` performs fewer checks than documented: it accepts a
      negative `beta` while the cutoffs stay positive (first case), a negative
      `mincutoff` whenever beta·|d| lifts the cutoff above zero (second case),
      and, with no components, a rate of zero (third case). */
  lemma CheckedAcceptsBeyondDocumentation()
    ensures var s := Seed([0.0]);
      CheckedUpdate(s, [0.0], [1.0], 1.0, 1.0, -1.0).outcome == Pass
      && !Documented([1.0], 1.0, 1.0, -1.0)
    ensures var s := Seed([0.0]);
      CheckedUpdate(s, [1.0], [1.0], 1.0, -1.0, 3.0).outcome == Pass
      && !Documented([1.0], 1.0, -1.0, 3.0)
    ensures CheckedUpdate(Seed([]), [], [], 0.0, 1.0, 0.0).outcome == Pass
      && !Documented([], 0.0, 1.0, 0.0)
  {
    var s := Seed([0.0]);
    assert NextDerivative(s, [0.0], [1.0], 1.0)[0] == 0.0;
    assert Cutoff(NextDerivative(s, [0.0], [1.0], 1.0), 1.0, -1.0)[0] == 1.0;
    assert NextDerivative(s, [1.0], [1.0], 1.0)[0] == 1.0;
    assert Cutoff(NextDerivative(s, [1.0], [1.0], 1.0), -1.0, 3.0)[0] == 2.0;
  }

  /** A faster-moving signal is smoothed less: with beta >= 0 a larger |d_i|
      gives a cutoff and a factor that are at least as large. */
  lemma FasterMeansLessSmoothing(d1: Vector, d2: Vector, rate: real, mincutoff: real, beta: real, i: nat)
    requires |d1| == |d2| && i < |d1|
    requires rate > 0.0 && mincutoff > 0.0 && beta >= 0.0
    requires AbsReal(d1[i]) <= AbsReal(d2[i])
    ensures mincutoff <= Cutoff(d1, mincutoff, beta)[i] <= Cutoff(d2, mincutoff, beta)[i]
    ensures GetAlphaUnchecked(rate, Cutoff(d1, mincutoff, beta)[i])
         <= GetAlphaUnchecked(rate, Cutoff(d2, mincutoff, beta)[i])
  {
    LowPass.ProductOfNonNegatives(AbsReal(d1[i]), beta);
    LowPass.ProductOfNonNegatives(AbsReal(d2[i]) - AbsReal(d1[i]), beta);
    AlphaIncreasingInCutoff(rate, Cutoff(d1, mincutoff, beta)[i], Cutoff(d2, mincutoff, beta)[i]);
  }

  /** For a constant input the smoothed derivative shrinks towards 0 and the
      filtered value moves towards the input, component by component. */
  lemma ConstantInputConverges(s: Snapshot, alpha: Vector, rate: real, mincutoff: real, beta: real, i: nat)
    requires Shaped(s, |s.raw|) && |alpha| == |s.raw| && i < |s.raw|
    requires Documented(alpha, rate, mincutoff, beta)
    ensures AbsReal(Next(s, s.raw, alpha, rate, mincutoff, beta).derivate[i]) <= AbsReal(s.derivate[i])
    ensures AbsReal(Next(s, s.raw, alpha, rate, mincutoff, beta).filtered[i] - s.raw[i])
         <= AbsReal(s.filtered[i] - s.raw[i])
  {
    var n := Next(s, s.raw, alpha, rate, mincutoff, beta);
    var input := DerivativeInput(s, s.raw, rate);
    assert input[i] == 0.0;
    LowPass.BlendApproachesSample(input, s.derivate, alpha, i);
    DocumentedCutoffs(s, s.raw, alpha, rate, mincutoff, beta);
    var factors := SampleAlpha(rate, Cutoff(n.derivate, mincutoff, beta));
    assert n.filtered == LowPass.Blend(s.raw, s.filtered, factors);
    LowPass.BlendApproachesSample(s.raw, s.filtered, factors, i);
  }

  /** `OneEuroState<T, D>`: updated in place through `&mut self`. */
  class OneEuroState {
    const dim: nat
    var raw: Vector
    var filtered: LowPassState
    var derivate: LowPassState

    ghost predicate Valid()
      reads this
    {
      |raw| == dim && |filtered.value| == dim && |derivate.value| == dim
    }

    function View(): (v: Snapshot)
      reads this
      ensures Valid() ==> Shaped(v, dim)
    {
      Snapshot(raw, filtered.value, derivate.value)
    }

    /** `data()`: the filtered value. */
    function Data(): (v: Vector)
      reads this
      ensures v == View().filtered && (Valid() ==> |v| == dim)
    {
      filtered.value
    }

    /** `raw()`: the last raw sample. */
    function Raw(): (v: Vector)
      reads this
      ensures v == View().raw && (Valid() ==> |v| == dim)
    {
      raw
    }

    /** `derivate()`: the smoothed derivative. */
    function Derivate(): (v: Vector)
      reads this
      ensures v == View().derivate && (Valid() ==> |v| == dim)
    {
      derivate.value
    }

    /** `new(state)`: raw = filtered = the sample, derivative zero. */
    constructor (state: Vector)
      ensures Valid() && dim == |state| && View() == Seed(state)
      ensures Raw() == state && Data() == state && Derivate() == Zeros(|state|)
    {
      dim := |state|;
      raw := state;
      filtered := LowPassState(state);
      derivate := LowPassState(Zeros(|state|));
    }

    /** `update`: the checked update; see `CheckedUpdate` for where a failure
        leaves the state. */
    method Update(newRaw: Vector, alpha: Vector, rate: real, mincutoff: real, beta: real)
      returns (outcome: Outcome<Fault>)
      requires Valid() && |newRaw| == dim && |alpha| == dim
      modifies this
      ensures Valid()
      ensures Attempt(View(), outcome) == CheckedUpdate(old(View()), newRaw, alpha, rate, mincutoff, beta)
    {
      var d := derivate.Update(Scale(Sub(newRaw, raw), rate), alpha);
      if d.Failure? {
        return Fail(d.error);
      }
      derivate := d.value;
      var factors := MapGetAlpha(rate, Cutoff(derivate.value, mincutoff, beta));
      if factors.Failure? {
        return Fail(factors.error);
      }
      // get_alpha is checked
      filtered := filtered.UpdateUnchecked(newRaw, factors.value);
      raw := newRaw;
      outcome := Pass;
    }

    /** `update_unchecked`: the same steps without checks, under the documented contract. */
    method UpdateUnchecked(newRaw: Vector, alpha: Vector, rate: real, mincutoff: real, beta: real)
      requires Valid() && |newRaw| == dim && |alpha| == dim
      requires Documented(alpha, rate, mincutoff, beta)
      modifies this
      ensures Valid()
      ensures View() == Next(old(View()), newRaw, alpha, rate, mincutoff, beta)
    {
      ghost var s := View();
      derivate := derivate.UpdateUnchecked(Scale(Sub(newRaw, raw), rate), alpha);
      DocumentedCutoffs(s, newRaw, alpha, rate, mincutoff, beta);
      var factors := SampleAlpha(rate, Cutoff(derivate.value, mincutoff, beta));
      filtered := filtered.UpdateUnchecked(newRaw, factors);
      raw := newRaw;
    }
  }
}
