/** Facts about sequences shared by several components. */
module Seqs {
  /** No value occurs twice: what React asks of the keys of a rendered list. */
  predicate NoDuplicates<T(==)>(xs: seq<T>) {
    forall i, j :: 0 <= i < j < |xs| ==> xs[i] != xs[j]
  }
}
