/** Large invariants are carried whole: a predicate behind a quantifier that only a `Seal` term opens. */
module Seals {
  ghost predicate Seal(k: nat) {
    true
  }
}
