/**
 * Optional values, what the gateways hand back instead of raising, and the
 * one fact about sequences that the step-by-step proofs keep citing.
 */
module Wrappers {

  datatype Option<+T> = None | Some(value: T)

  /** Appending in two steps is appending the two parts at once. */
  lemma AppendAssoc<T>(a: seq<T>, b: seq<T>, c: seq<T>)
    ensures a + (b + c) == (a + b) + c
  {
  }
}
