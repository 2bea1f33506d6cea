/** Fixed-length real vectors: the component-wise operations the filter
    borrows from its vector library, on `seq<real>` of a common length D. */
module Vectors {

  type Vector = seq<real>

  function Zeros(n: nat): Vector { seq(n, _ => 0.0) }

  /** `repeat(x)`: every component equal to `x`. */
  function Repeat(x: real, n: nat): Vector { seq(n, _ => x) }

  function Add(a: Vector, b: Vector): Vector
    requires |a| == |b|
  { seq(|a|, i requires 0 <= i < |a| => a[i] + b[i]) }

  function Sub(a: Vector, b: Vector): Vector
    requires |a| == |b|
  { seq(|a|, i requires 0 <= i < |a| => a[i] - b[i]) }

  function Scale(a: Vector, k: real): Vector
  { seq(|a|, i requires 0 <= i < |a| => a[i] * k) }

  function AddScalar(a: Vector, k: real): Vector
  { seq(|a|, i requires 0 <= i < |a| => a[i] + k) }

  function AbsReal(x: real): real { if x < 0.0 then -x else x }

  function Abs(a: Vector): Vector
  { seq(|a|, i requires 0 <= i < |a| => AbsReal(a[i])) }

  /** A fresh buffer holding a copy of `v` (a `clone()` of a vector). */
  method ToArray(v: Vector) returns (a: array<real>)
    ensures fresh(a) && a[..] == v
  {
    a := new real[|v|](i requires 0 <= i < |v| => v[i]);
  }
}
