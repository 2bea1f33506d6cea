/** The seeded low-pass stage `LowPassState<T, D>` that src/state.rs imports.
    Its source is not part of this model; it is modelled as a stage that always
    holds a vector and whose `update(x, α)` replaces it by x·α + state·(1 − α),
    the blend of src/lowpass.rs. The checked `update` is assumed to validate α
    with `assert_alpha!` (src/alpha.rs:3-10), the validator the crate defines
    for an identifier named `alpha` and uses nowhere else, so it accepts exactly
    the α whose components lie in (0, 1], the range src/state.rs:72 documents. */
module SeededLowPass {
  import opened Wrappers
  import opened Vectors
  import LowPass
  import Alpha

  datatype LowPassState = LowPassState(value: Vector)
  {
    /** `update_unchecked`: blend `x` into the stored vector. */
    function UpdateUnchecked(x: Vector, alpha: Vector): (s: LowPassState)
      requires |x| == |value| == |alpha|
      ensures |s.value| == |value|
      ensures forall i :: 0 <= i < |x| && alpha[i] == 1.0 ==> s.value[i] == x[i]
      ensures forall i :: 0 <= i < |x| && alpha[i] == 0.0 ==> s.value[i] == value[i]
    {
      LowPassState(LowPass.Blend(x, value, alpha))
    }

    /** `update`: `assert_alpha!(alpha)`, then the same blend. */
    function Update(x: Vector, alpha: Vector): (r: Result<LowPassState, Fault>)
      requires |x| == |value| == |alpha|
      ensures r.Success? <==> Alpha.InAlphaRange(alpha)
      ensures r.Success? ==> r.value == UpdateUnchecked(x, alpha)
      ensures r.Failure? ==> Fail(r.error) == Alpha.AssertAlpha(alpha)
      ensures r.Failure? ==> r.error == AlphaNotPositive || r.error == AlphaAboveOne
    {
      match Alpha.AssertAlpha(alpha)
      case Fail(e) => Failure(e)
      case Pass => Success(UpdateUnchecked(x, alpha))
    }
  }
}
