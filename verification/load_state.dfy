/**
 The five lifecycle states of a query-node segment's residency lock, and the
 state predicates that readers hand to the lock's conditional read gate.
 */
module LoadState {

  /** How much of the segment is resident. `DataLoading` and `DataReleasing`
      are the transient states of a transition in flight; `Released` is
      terminal. */
  datatype LoadState = OnlyMeta | DataLoading | DataLoaded | DataReleasing | Released {

    /** A load or a partial release is in flight. */
    predicate IsTransient() {
      this == DataLoading || this == DataReleasing
    }
  }

  /** The predicates a reader passes to `RLockIf`. */
  datatype StatePredicate = IsNotReleased | IsDataLoaded

  /** Whether predicate `p` accepts state `s`. Neither predicate admits a
      released segment, both admit loaded data, and `IsDataLoaded` is the
      stricter of the two. */
  predicate Holds(p: StatePredicate, s: LoadState): (b: bool)
    ensures s == Released ==> !b
    ensures s == DataLoaded ==> b
    ensures b && p == IsDataLoaded ==> s != Released && s != OnlyMeta && !s.IsTransient()
    ensures p == IsNotReleased ==> (b <==> s != Released)
  {
    match p
    case IsNotReleased => s != Released
    case IsDataLoaded => s == DataLoaded
  }
}
