/** The exponential low-pass stage of src/lowpass.rs, whose state is optional:
    the first call passes the sample through and seeds the state, later calls
    blend the sample with the stored state. */
module LowPass {
  import opened Wrappers
  import opened Vectors

  /** sample·α + prev·(1 − α), component by component. */
  function Blend(sample: Vector, prev: Vector, alpha: Vector): (r: Vector)
    requires |sample| == |prev| == |alpha|
    ensures |r| == |sample|
  {
    seq(|sample|, i requires 0 <= i < |sample| => sample[i] * alpha[i] + prev[i] * (1.0 - alpha[i]))
  }

  /** The vector one call of `filter_mut` emits from the stored `state`. */
  function Step(state: Option<Vector>, sample: Vector, alpha: Vector): (r: Vector)
    requires |sample| == |alpha|
    requires state.Some? ==> |state.value| == |sample|
    ensures |r| == |sample|
  {
    match state
    case None => sample
    case Some(prev) => Blend(sample, prev, alpha)
  }

  /** Without stored state the output is the input, whatever alpha is. */
  lemma StepWithoutStatePassesThrough(sample: Vector, alpha: Vector)
    requires |sample| == |alpha|
    ensures Step(None, sample, alpha) == sample
  {
  }

  /** An all-ones alpha trusts the new sample completely. */
  lemma BlendWithOnes(sample: Vector, prev: Vector)
    requires |sample| == |prev|
    ensures Blend(sample, prev, Repeat(1.0, |sample|)) == sample
  {
    var r := Blend(sample, prev, Repeat(1.0, |sample|));
    assert forall i :: 0 <= i < |sample| ==> r[i] == sample[i];
  }

  /** An all-zeros alpha keeps the previous state. */
  lemma BlendWithZeros(sample: Vector, prev: Vector)
    requires |sample| == |prev|
    ensures Blend(sample, prev, Zeros(|sample|)) == prev
  {
    var r := Blend(sample, prev, Zeros(|sample|));
    assert forall i :: 0 <= i < |sample| ==> r[i] == prev[i];
  }

  /** An alpha of one half gives the mean of sample and previous state. */
  lemma BlendWithHalf(sample: Vector, prev: Vector)
    requires |sample| == |prev|
    ensures Blend(sample, prev, Repeat(0.5, |sample|)) == Scale(Add(sample, prev), 0.5)
  {
    var r := Blend(sample, prev, Repeat(0.5, |sample|));
    assert forall i :: 0 <= i < |sample| ==> r[i] == (sample[i] + prev[i]) * 0.5;
  }

  /** With every alpha in [0, 1] the output lies between the previous state and
      the sample: its distance to the sample shrinks by the factor 1 − α. A
      constant input is therefore approached monotonically. */
  lemma BlendApproachesSample(sample: Vector, prev: Vector, alpha: Vector, i: nat)
    requires |sample| == |prev| == |alpha| && i < |sample|
    requires 0.0 <= alpha[i] <= 1.0
    ensures Blend(sample, prev, alpha)[i] - sample[i] == (prev[i] - sample[i]) * (1.0 - alpha[i])
    ensures AbsReal(Blend(sample, prev, alpha)[i] - sample[i]) <= AbsReal(prev[i] - sample[i])
  {
    var b, s, p, a := Blend(sample, prev, alpha)[i], sample[i], prev[i], alpha[i];
    assert b - s == (p - s) * (1.0 - a);
    var d, m := p - s, 1.0 - a;
    assert d * m == d - d * a;
    if d >= 0.0 {
      ProductOfNonNegatives(d, a);
      ProductOfNonNegatives(d, m);
    } else {
      ProductOfNonNegatives(-d, a);
      ProductOfNonNegatives(-d, m);
    }
  }

  lemma ProductOfNonNegatives(x: real, y: real)
    requires x >= 0.0 && y >= 0.0
    ensures x * y >= 0.0
  {
  }

  /** `LowPassFilter<T, D>`: a stage over vectors of dimension `dim` whose
      `state` is `None` until the first sample arrives. */
  class LowPassFilter {
    const dim: nat
    var state: Option<Vector>

    ghost predicate Valid()
      reads this
    {
      state.Some? ==> |state.value| == dim
    }

    /** `new(sample)`: a stage seeded with `sample`. */
    constructor New(sample: Vector)
      ensures Valid() && dim == |sample|
      ensures state == Some(sample)
    {
      dim := |sample|;
      state := Some(sample);
    }

    /** `default()`: a stage that holds no state. */
    constructor Default(dim: nat)
      ensures Valid() && this.dim == dim
      ensures state == None
    {
      this.dim := dim;
      state := None;
    }

    /** `filter_mut`: overwrites `sample` with the stage output and stores it.
        `alpha` is taken by value; its complement 1 − α is formed in a local copy. */
    method FilterMut(sample: array<real>, alpha: Vector)
      requires Valid() && sample.Length == dim && |alpha| == dim
      modifies this, sample
      ensures Valid()
      ensures sample[..] == Step(old(state), old(sample[..]), alpha)
      ensures state == Some(sample[..])
    {
      ghost var input := sample[..];
      if state.Some? {
        var value := state.value;
        // sample.component_mul_assign(&alpha)
        var i := 0;
        while i < dim
          invariant 0 <= i <= dim
          invariant forall k :: 0 <= k < i ==> sample[k] == input[k] * alpha[k]
          invariant forall k :: i <= k < dim ==> sample[k] == input[k]
        {
          sample[i] := sample[i] * alpha[i];
          i := i + 1;
        }
        // alpha.neg_mut(); alpha.add_scalar_mut(1)
        var complement := Scale(alpha, -1.0);
        complement := AddScalar(complement, 1.0);
        // sample.add_assign(value.component_mul(&alpha))
        i := 0;
        while i < dim
          invariant 0 <= i <= dim
          invariant forall k :: 0 <= k < i ==>
            sample[k] == input[k] * alpha[k] + value[k] * (1.0 - alpha[k])
          invariant forall k :: i <= k < dim ==> sample[k] == input[k] * alpha[k]
        {
          sample[i] := sample[i] + value[i] * complement[i];
          i := i + 1;
        }
        assert forall k :: 0 <= k < dim ==> sample[..][k] == Blend(input, value, alpha)[k];
      }
      state := Some(sample[..]);
    }

    /** `filter`: runs `filter_mut` on a copy of `sample` and returns the copy;
        the caller's sample is a value and stays as it was. */
    method Filter(sample: Vector, alpha: Vector) returns (output: Vector)
      requires Valid() && |sample| == dim && |alpha| == dim
      modifies this
      ensures Valid()
      ensures output == Step(old(state), sample, alpha)
      ensures state == Some(output)
    {
      var buffer := ToArray(sample);
      FilterMut(buffer, alpha);
      output := buffer[..];
    }

    /** `reset`: forgets the state, so the next call passes its sample through. */
    method Reset()
      requires Valid()
      modifies this
      ensures Valid()
      ensures state == None
    {
      state := None;
    }
  }
}
