/** What several parts of the model share. */
module Basics {

  /** The address of a heap object; every allocation gets a new one.  0 is the null pointer. */
  type Ptr = nat

  const NULL: Ptr := 0

  newtype byte = x: int | 0 <= x < 256

  /** No entry occurs twice. */
  ghost predicate Distinct(xs: seq<nat>) {
    forall i, j :: 0 <= i < j < |xs| ==> xs[i] != xs[j]
  }
}
