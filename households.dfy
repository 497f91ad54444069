/** The entity the engine scores, and the one wrapper type the model needs. */
module Households {

  /** An optional argument: Python's `None` or a supplied value. */
  datatype Option<T> = None | Some(value: T)

  /**
   * A household: its identity, its ordered feature vector (demographics,
   * location data, income, ...) and a validation label that no computation
   * of the engine reads.
   */
  datatype Household = Household(id: int, features: seq<real>, groundTruthImpact: real)

  /** Every household has a feature at position `index`. */
  predicate AllHaveIndex(households: seq<Household>, index: nat)
  {
    forall k :: 0 <= k < |households| ==> index < |households[k].features|
  }
}
