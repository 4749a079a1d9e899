/** Keeping definitions folded. `forall u | Unfold(u) && u == Part :: fact` says
    no more and no less than `fact`, but a proof sees it only where it writes
    `assert Unfold(Part)`; elsewhere the recursive functions and multisets in it
    stay out of the way. */
module Folding {
  /** One component's facts, or those of the state put together. */
  datatype Scope = Part | Together

  predicate Unfold(scope: Scope) { true }
}
