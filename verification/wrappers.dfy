/** Option/Result/Outcome wrappers and the faults the filter raises.
    A Rust panic from `assert!`, `assert_positive!` or `assert_alpha!` is modelled as a
    `Fail`/`Failure` carrying the fault that names the violated condition. */
module Wrappers {

  datatype Option<+T> = None | Some(value: T)

  datatype Result<+R, +E> = Success(value: R) | Failure(error: E)

  datatype Outcome<+E> = Pass | Fail(error: E)

  /** One constructor per assertion of the source that can panic. */
  datatype Fault =
    | RateNotPositive            // assert_positive!(rate), assert!(rate > 0)
    | CutoffNotPositive          // assert_positive!(cutoff)
    | AlphaNotPositive           // assert_alpha!: a component <= 0
    | AlphaAboveOne              // assert_alpha!: a component > 1
    | ValueNotPositive           // assert_positive!(value) / assert!(value > 0) in a setter
    | BetaNegative               // "beta should be zero or positive."
    | MinCutoffNotPositive       // a component of min_cutoff <= 0
    | DerivateCutoffNotPositive  // a component of derivate_cutoff <= 0
}
