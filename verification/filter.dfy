/** The second-generation parameter holder of src/filter.rs: `beta`, `dcutoff`
    and `mincutoff` behind validated setters, driving any number of
    independent `OneEuroState`s with a per-call sampling rate. */
module Filter {
  import opened Wrappers
  import opened Vectors
  import opened Alpha
  import opened State

  /** `OneEuroFilter<T>`; the getters `beta()`, `dcutoff()` and `mincutoff()`
      are reads of the fields. */
  class OneEuroFilter {
    var beta: real
    var dcutoff: real
    var mincutoff: real

    /** The parameter invariant every setter keeps. */
    ghost predicate Valid()
      reads this
    {
      mincutoff > 0.0 && dcutoff > 0.0 && beta >= 0.0
    }

    /** `default()`: each parameter is 1. */
    constructor Default()
      ensures Valid()
      ensures dcutoff == 1.0 && mincutoff == 1.0 && beta == 1.0
    {
      dcutoff, mincutoff, beta := 1.0, 1.0, 1.0;
    }

    /** `set_dcutoff`: rejects values <= 0, otherwise changes only `dcutoff`. */
    method SetDcutoff(value: real) returns (outcome: Outcome<Fault>)
      requires Valid()
      modifies this
      ensures Valid()
      ensures outcome == Positive(value, ValueNotPositive)
      ensures dcutoff == if outcome.Pass? then value else old(dcutoff)
      ensures mincutoff == old(mincutoff) && beta == old(beta)
    {
      outcome := Positive(value, ValueNotPositive);
      if outcome.Pass? {
        dcutoff := value;
      }
    }

    /** `set_mincutoff`: rejects values <= 0, otherwise changes only `mincutoff`. */
    method SetMincutoff(value: real) returns (outcome: Outcome<Fault>)
      requires Valid()
      modifies this
      ensures Valid()
      ensures outcome == Positive(value, ValueNotPositive)
      ensures mincutoff == if outcome.Pass? then value else old(mincutoff)
      ensures dcutoff == old(dcutoff) && beta == old(beta)
    {
      outcome := Positive(value, ValueNotPositive);
      if outcome.Pass? {
        mincutoff := value;
      }
    }

    /** `set_beta`: rejects negative values, accepts zero, changes only `beta`. */
    method SetBeta(value: real) returns (outcome: Outcome<Fault>)
      requires Valid()
      modifies this
      ensures Valid()
      ensures outcome.Pass? <==> value >= 0.0
      ensures outcome.Fail? ==> outcome.error == BetaNegative
      ensures beta == if outcome.Pass? then value else old(beta)
      ensures dcutoff == old(dcutoff) && mincutoff == old(mincutoff)
    {
      if value >= 0.0 {
        beta := value;
        outcome := Pass;
      } else {
        outcome := Fail(BetaNegative);
      }
    }

    /** `get_alpha(rate)`: the derivative-stage factor alpha(rate, dcutoff) in
        every component. The rate is never checked, so the caller supplies a
        positive one. */
    function GetAlpha(rate: real, dim: nat): (a: Vector)
      requires Valid() && rate > 0.0
      reads this
      ensures |a| == dim && InAlphaRange(a)
      ensures forall i :: 0 <= i < dim ==> a[i] == GetAlphaUnchecked(rate, dcutoff)
    {
      Repeat(GetAlphaUnchecked(rate, dcutoff), dim)
    }

    /** `filter`: one unchecked update of `state` with the derivative factor, the
        given rate and the current `mincutoff` and `beta`; the parameters are
        only read. */
    method Filter(state: OneEuroState, newRaw: Vector, rate: real)
      requires Valid() && state.Valid() && |newRaw| == state.dim && rate > 0.0
      modifies state
      ensures state.Valid()
      ensures state.View() == Next(old(state.View()), newRaw, GetAlpha(rate, state.dim), rate, mincutoff, beta)
    {
      state.UpdateUnchecked(newRaw, GetAlpha(rate, state.dim), rate, mincutoff, beta);
    }

    /** `filter_slice`: walks the (state, raw) pairs of the two slices zipped,
        updating each state exactly as `filter` would with one shared factor;
        states beyond the shorter slice are left alone. The states of a Rust
        slice are distinct values, hence distinct objects here. */
    method FilterSlice(states: array<OneEuroState>, raws: seq<Vector>, rate: real, dim: nat)
      requires Valid() && rate > 0.0
      requires forall k :: 0 <= k < states.Length ==> states[k].Valid() && states[k].dim == dim
      requires forall k :: 0 <= k < |raws| ==> |raws[k]| == dim
      requires forall j, k :: 0 <= j < k < states.Length ==> states[j] != states[k]
      modifies set k | 0 <= k < states.Length :: states[k]
      ensures forall k :: 0 <= k < states.Length ==> states[k].Valid()
      ensures forall k :: 0 <= k < states.Length && k < |raws| ==>
        states[k].View() == Next(old(states[k].View()), raws[k], GetAlpha(rate, dim), rate, mincutoff, beta)
      ensures forall k :: |raws| <= k < states.Length ==> states[k].View() == old(states[k].View())
    {
      var alpha := GetAlpha(rate, dim);
      var i := 0;
      while i < states.Length && i < |raws|
        invariant 0 <= i <= states.Length && i <= |raws|
        invariant forall k :: 0 <= k < states.Length ==> states[k].Valid() && states[k].dim == dim
        invariant forall k :: 0 <= k < i && k < |raws| ==>
          states[k].View() == Next(old(states[k].View()), raws[k], alpha, rate, mincutoff, beta)
        invariant forall k :: i <= k < states.Length ==> states[k].View() == old(states[k].View())
      {
        states[i].UpdateUnchecked(raws[i], alpha, rate, mincutoff, beta);
        i := i + 1;
      }
    }
  }
}
