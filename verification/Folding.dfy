module Folding {
  /** Says nothing about its argument. A definition under a quantifier over it stays
      out of the verifier's sight until a proof mentions it. */
  predicate Fold(folded: bool) {
    true
  }
}
