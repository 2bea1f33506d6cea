/** The smoothing factor of an exponential low-pass stage (src/alpha.rs):
    alpha = (1 + rate / (2π·cutoff))⁻¹, checked and unchecked, and the two
    validators `assert_alpha!` and `assert_positive!`. */
module Alpha {
  import opened Wrappers

  /** 2π as the f64 constant the source uses; the proofs rely only on it being positive. */
  const TwoPi: real := 6.283185307179586

  /** `assert_positive!`: accepts exactly the strictly positive values. */
  function Positive(value: real, fault: Fault): (r: Outcome<Fault>)
    ensures r.Pass? <==> value > 0.0
    ensures r.Fail? ==> r.error == fault
  {
    if value > 0.0 then Pass else Fail(fault)
  }

  /** Every component lies in the half-open interval (0, 1]. */
  ghost predicate InAlphaRange(alpha: seq<real>)
  {
    forall i :: 0 <= i < |alpha| ==> 0.0 < alpha[i] <= 1.0
  }

  /** `assert_alpha!`: walks the components in order and fails at the first one
      that is not positive or that exceeds one. */
  function AssertAlpha(alpha: seq<real>): (r: Outcome<Fault>)
    ensures r.Pass? <==> InAlphaRange(alpha)
    ensures r == Fail(AlphaNotPositive) ==> exists k :: 0 <= k < |alpha| && alpha[k] <= 0.0
    ensures r == Fail(AlphaAboveOne) ==> exists k :: 0 <= k < |alpha| && alpha[k] > 1.0
    ensures r.Fail? ==> r.error == AlphaNotPositive || r.error == AlphaAboveOne
  {
    if alpha == [] then Pass
    else if alpha[0] <= 0.0 then Fail(AlphaNotPositive)
    else if alpha[0] > 1.0 then Fail(AlphaAboveOne)
    else
      var rest := AssertAlpha(alpha[1..]);
      assert forall i :: 1 <= i < |alpha| ==> alpha[i] == alpha[1..][i - 1];
      rest
  }

  /** The time constant of a first-order low-pass filter with the given cutoff. */
  function Tau(cutoff: real): real
    requires cutoff > 0.0
  {
    1.0 / (TwoPi * cutoff)
  }

  /** The textbook form te / (te + tau) with te = 1/rate the sampling period and
      the formula of src/alpha.rs agree, and both lie strictly between 0 and 1. */
  lemma SmoothingFactorForms(rate: real, cutoff: real)
    requires rate > 0.0 && cutoff > 0.0
    ensures 1.0 + rate / (TwoPi * cutoff) > 1.0
    ensures 0.0 < 1.0 / (1.0 + rate / (TwoPi * cutoff)) < 1.0
    ensures 1.0 / (1.0 + rate / (TwoPi * cutoff)) == (1.0 / rate) / (1.0 / rate + Tau(cutoff))
  {
    var w := TwoPi * cutoff;
    assert w > 0.0;
    var k := rate / w;
    assert k > 0.0;
    var te := 1.0 / rate;
    assert te > 0.0 && te * rate == 1.0;
    assert te * (rate * w) == w;
    assert Tau(cutoff) == 1.0 / w;
    // both forms equal w / (w + rate)
    assert (1.0 + k) * w == w + rate;
    assert 1.0 / (1.0 + k) == w / (w + rate);
    assert (te + 1.0 / w) * (rate * w) == w + rate;
    assert te / (te + 1.0 / w) == te * (rate * w) / (w + rate);
  }

  /** `get_alpha_unchecked`: the same arithmetic as `get_alpha` without the
      argument checks; its caller guarantees a positive rate and cutoff. */
  function GetAlphaUnchecked(rate: real, cutoff: real): (a: real)
    requires rate > 0.0 && cutoff > 0.0
    ensures 0.0 < a < 1.0
    ensures a == (1.0 / rate) / (1.0 / rate + Tau(cutoff))
  {
    SmoothingFactorForms(rate, cutoff);
    1.0 / (1.0 + rate / (TwoPi * cutoff))
  }

  /** `get_alpha`: checks the rate, then the cutoff, then computes the factor. */
  function GetAlpha(rate: real, cutoff: real): (r: Result<real, Fault>)
    ensures r.Failure? <==> rate <= 0.0 || cutoff <= 0.0
    ensures r.Failure? ==> r.error == (if rate <= 0.0 then RateNotPositive else CutoffNotPositive)
    ensures r.Success? ==> 0.0 < r.value <= 1.0 && r.value == GetAlphaUnchecked(rate, cutoff)
  {
    match Positive(rate, RateNotPositive)
    case Fail(e) => Failure(e)
    case Pass =>
      match Positive(cutoff, CutoffNotPositive)
      case Fail(e) => Failure(e)
      case Pass => Success(GetAlphaUnchecked(rate, cutoff))
  }

  /** A rate of 1 and a cutoff of 1/(2π) give exactly one half. */
  lemma HalfAlpha()
    ensures GetAlpha(1.0, 1.0 / TwoPi) == Success(0.5)
  {
    assert TwoPi * (1.0 / TwoPi) == 1.0;
  }

  /** A larger cutoff gives a larger factor: less smoothing, less lag. */
  lemma AlphaIncreasingInCutoff(rate: real, c1: real, c2: real)
    requires rate > 0.0 && 0.0 < c1 <= c2
    ensures GetAlphaUnchecked(rate, c1) <= GetAlphaUnchecked(rate, c2)
  {
    SmoothingFactorForms(rate, c1);
    SmoothingFactorForms(rate, c2);
    var w1, w2 := TwoPi * c1, TwoPi * c2;
    assert w1 <= w2;
    assert 1.0 / (1.0 + rate / w1) == w1 / (w1 + rate) by {
      assert (1.0 + rate / w1) * w1 == w1 + rate;
    }
    assert 1.0 / (1.0 + rate / w2) == w2 / (w2 + rate) by {
      assert (1.0 + rate / w2) * w2 == w2 + rate;
    }
    assert w1 / (w1 + rate) == 1.0 - rate / (w1 + rate);
    assert w2 / (w2 + rate) == 1.0 - rate / (w2 + rate);
    assert rate / (w2 + rate) <= rate / (w1 + rate) by {
      assert rate * (w1 + rate) <= rate * (w2 + rate);
    }
  }
}
