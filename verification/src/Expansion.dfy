/**
Two ways to carry a large definition along without expanding it in every proof.

A predicate written as `forall k :: Expanded(k) ==> P` is equivalent to P, and is expanded only in proofs that mention
`Expanded(0)` or prove such a predicate.

A fact `F(folds)` that is defined as `Fact(P)` for zero folds and as `F(folds - 1)` otherwise is equivalent to P, and is
expanded only by a lemma that says so.
*/
module Expansion {

  ghost predicate Expanded(k: int) {
    true
  }

  datatype Fact = Fact(holds: bool)
}
