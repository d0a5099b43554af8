/** Facts about sequences of numbers shared by the hooks' progress records. */
module Sequences {
  /** Each value is at least every value before it. */
  predicate NonDecreasing(xs: seq<int>) {
    forall i, j :: 0 <= i < j < |xs| ==> xs[i] <= xs[j]
  }
}
