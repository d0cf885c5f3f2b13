# Segment load-state lock

A model of the residency lock that a Milvus query node keeps for each segment
(`LoadStateLock` in `internal/querynodev2/segments/state`). The lock tracks
how much of a segment is resident: `OnlyMeta`, `DataLoading`, `DataLoaded`,
`DataReleasing` and `Released`. A caller starts a transition with
`StartLoadData`, `StartReleaseData` or `StartReleaseAll`, and each start hands
back a guard. Calling `Done` on that guard commits or rolls back the
transition. Readers can block until the data is loaded or released
(`BlockUntilDataLoadedOrReleased`). They can take a read hold that depends on
the state (`RLockIf` with `IsNotReleased` or `IsDataLoaded`, then `RUnlock`).
They can also pin the segment (`PinIfNotReleased` / `Unpin`), which holds off
a full release.

The lock's implementation file (`load_state_lock.go`) is not part of this
model. The model captures the transition table and counter rules that the
package's unit tests (`load_state_lock_test.go`) assert. Where the tests are
silent, the model makes the choices listed below, each with its reason.

- `load_state.dfy` (module `LoadState`): the five states and the two reader
  predicates.
- `load_state_lock.dfy` (module `LoadStateLock`): the lock as an immutable
  record `Lock(state, pins, readers)` and the guard type
  `Transition(failure, success) | Nop`, with one pure function per operation.
  An operation that blocks in Go is modelled as the step it takes once its
  wait is over. Its precondition (`CanStartReleaseData`,
  `CanStartReleaseAll`, `DataLoadedOrReleased`) says when that is. Fatal
  misuse is also a precondition: unpinning with no pin outstanding, or
  unlocking with no read hold.
- `lifecycle.dfy` (module `Lifecycle`): the lock driven by callers. It pairs
  the lock with the guard that is currently outstanding. It defines one event
  per operation, an enabledness predicate, a step function and runs of events.
  The invariant `Inv` says:
  - the pin and reader counts are non-negative;
  - a released lock holds no pins;
  - the lock is in a transient state exactly while the matching load or
    partial-release guard is outstanding.

  The lemmas show that this invariant holds on every run, that `Released` is
  terminal, and that a waiting release can always proceed.
- `scenarios.dfy` (module `Scenarios`): the unit tests' call sequences,
  replayed as runs.
- `wrappers.dfy` (module `Wrappers`): `Option`, standing for a nil-able guard.

Choices the model makes:

- In `TestStartReleaseAll`, the test's comment and its assertion disagree.
  The comment says a full release from `OnlyMeta` has "nothing to do", but
  the assertion expects a non-nil guard and the state `Released`. The model
  follows the assertion.
- A partial release waits while either transition is in flight, not only a
  load. This way at most one transition is ever active. The tests never start
  a partial release during another one.
- A full release waits only for in-flight transitions when the lock is
  already `Released`. In every other state it also waits for the pins to
  drain. A released lock never holds pins (see `Inv`), so both readings
  agree on every reachable state.

## Model

| member | source | states |
|---|---|---|
| LoadState.Holds | internal/querynodev2/segments/state/load_state_lock_test.go:186-201 | IsNotReleased accepts every state but Released; IsDataLoaded accepts DataLoaded and nothing else, so it is the stricter predicate; neither accepts Released |
| LoadStateLock.NewLoadStateLock | internal/querynodev2/segments/state/load_state_lock_test.go:12 | a new lock has the requested settled state, no pins and no readers, and satisfies the lock's well-formedness invariant |
| LoadStateLock.Done | internal/querynodev2/segments/state/load_state_lock_test.go:18-27 | finalizing with an error restores the guard's rollback state, and finalizing without one commits its target state; a full-release guard changes nothing; counters are untouched |
| LoadStateLock.StartLoadData | internal/querynodev2/segments/state/load_state_lock_test.go:11-44 | a guard comes back iff the state was OnlyMeta, and an error iff it was DataLoading, DataReleasing or Released, never both; from DataLoaded it is a no-op; with a guard the state is DataLoading, rollback restores the lock exactly as it was, and commit yields DataLoaded |
| LoadStateLock.StartReleaseData | internal/querynodev2/segments/state/load_state_lock_test.go:46-73 | a guard comes back iff the state was DataLoaded; OnlyMeta and Released are left untouched; with a guard the state is DataReleasing, rollback restores the loaded lock exactly, and commit yields OnlyMeta |
| LoadStateLock.CanStartReleaseData | internal/querynodev2/segments/state/load_state_lock_test.go:88-103 | a partial release may go on exactly in OnlyMeta, DataLoaded or Released, so it is held off during a load; it is never held off when a full release or the blocking wait could go on |
| LoadStateLock.StartReleaseAll | internal/querynodev2/segments/state/load_state_lock_test.go:124-153 | the state is Released afterwards in every case; a guard comes back iff the lock was not already released; finalizing that guard, with or without an error, leaves it Released |
| LoadStateLock.CanStartReleaseAll | internal/querynodev2/segments/state/load_state_lock_test.go:155-236 | a full release is held off while a transition is in flight and, unless already Released, while pins are outstanding; on a well-formed lock it may go on exactly when no transition is in flight and no pin is held |
| LoadStateLock.BlockUntilDataLoadedOrReleased | internal/querynodev2/segments/state/load_state_lock_test.go:106-122 | returns only in DataLoaded or Released and changes nothing |
| LoadStateLock.DataLoadedOrReleased | internal/querynodev2/segments/state/load_state_lock_test.go:106-121 | the wait is over exactly when IsDataLoaded holds or IsNotReleased fails, and then no transition is in flight |
| LoadStateLock.RLockIf | internal/querynodev2/segments/state/load_state_lock_test.go:186-202 | succeeds iff the predicate holds of the current state (IsNotReleased: any state but Released; IsDataLoaded: DataLoaded only); on failure nothing is held; on success exactly one reader is added and RUnlock undoes it |
| LoadStateLock.RUnlock | internal/querynodev2/segments/state/load_state_lock_test.go:188-196 | needs a read hold; removes exactly one reader and leaves state and pins alone |
| LoadStateLock.PinIfNotReleased | internal/querynodev2/segments/state/load_state_lock_test.go:204-213 | succeeds iff the state is not Released; on success the pin count grows by one and Unpin undoes it; on failure nothing changes |
| LoadStateLock.Unpin | internal/querynodev2/segments/state/load_state_lock_test.go:235-241 | needs an outstanding pin (an extra unpin panics); the count drops by one and stays non-negative |
| Lifecycle.Init | internal/querynodev2/segments/state/load_state_lock_test.go:192 | a new lock with no guard outstanding satisfies the system invariant |
| Lifecycle.StepPreservesInv | internal/querynodev2/segments/state/load_state_lock_test.go:155-183 | every enabled operation preserves the invariant; a new guard is handed out only when none is outstanding, so at most one transition is in flight; Released is never left; finalizing consumes the guard |
| Lifecycle.RunPreservesInv | internal/querynodev2/segments/state/load_state_lock_test.go:204-241 | along any sequence of operations the pin and reader counts stay non-negative, a released lock holds no pins, and the transient state matches the one outstanding guard |
| Lifecycle.ReleasedIsAbsorbing | internal/querynodev2/segments/state/load_state_lock_test.go:124-153 | from Released every sequence of operations ends in Released with no pins |
| Lifecycle.ReleasedRefusesEverything | internal/querynodev2/segments/state/load_state_lock_test.go:198-210 | on a released lock StartLoadData errors and hands out no guard, neither release hands out a guard, pins are refused and neither predicate grants a read hold |
| Lifecycle.DrainPins | internal/querynodev2/segments/state/load_state_lock_test.go:227-236 | giving back every outstanding pin is always allowed and changes only the pin count, which reaches zero |
| Lifecycle.ReleasesCanAlwaysProceed | internal/querynodev2/segments/state/load_state_lock_test.go:155-183 | from any reachable state, committing the outstanding guard and returning all pins enables both releases; a full release then ends in Released and releases the blocking wait |
| Lifecycle.LoadInFlightHoldsOffWaiters | internal/querynodev2/segments/state/load_state_lock_test.go:75-103 | while a load is in flight both releases and the blocking wait are held off; a committed load lets them through; a rolled-back load lets the partial release through as a no-op and keeps the wait blocked |
| Lifecycle.PinsHoldOffReleaseAll | internal/querynodev2/segments/state/load_state_lock_test.go:212-234 | with pins outstanding a full release is held off, yet another pin is still granted and keeps it held off |
| Scenarios.LoadDataScenario | internal/querynodev2/segments/state/load_state_lock_test.go:11-32 | the test's load, rollback, load, commit and repeat-load sequence ends in the asserted states |
| Scenarios.ReleaseDataWaitsForLoad | internal/querynodev2/segments/state/load_state_lock_test.go:75-103 | a partial release is held off by an in-flight load, then starts and commits to OnlyMeta |
| Scenarios.BlockUntilLoadedScenario | internal/querynodev2/segments/state/load_state_lock_test.go:106-122 | the wait is held off on OnlyMeta and released by a committed load |
| Scenarios.ReleaseAllScenario | internal/querynodev2/segments/state/load_state_lock_test.go:124-153 | a full release from OnlyMeta or DataLoaded hands out a guard and is Released at once; finalizing keeps it Released |
| Scenarios.ReleaseAllWaitsForLoad | internal/querynodev2/segments/state/load_state_lock_test.go:155-183 | a full release is held off by an in-flight load and completes, ending Released, after the load commits |
| Scenarios.ReadLockScenario | internal/querynodev2/segments/state/load_state_lock_test.go:186-202 | read holds granted and refused exactly as the test asserts, before and after a full release |
| Scenarios.PinGrantedScenario | internal/querynodev2/segments/state/load_state_lock_test.go:204-207 | a pin on a lock that is not released is granted and counted |
| Scenarios.PinRefusedAfterRelease | internal/querynodev2/segments/state/load_state_lock_test.go:204-210 | a pin returned before a full release lets it through to Released, after which a pin is refused |
| Scenarios.PinHoldsOffReleaseAllScenario | internal/querynodev2/segments/state/load_state_lock_test.go:212-226 | with one pin outstanding on a loaded lock a full release is held off |
| Scenarios.PinsHoldOffReleaseAllScenario | internal/querynodev2/segments/state/load_state_lock_test.go:227-234 | a second pin is granted while the full release waits, and after one unpin the remaining pin still holds it off |
| Scenarios.ReleaseAllAfterUnpinsScenario | internal/querynodev2/segments/state/load_state_lock_test.go:235-241 | once both pins are returned the full release ends Released, and a further unpin is not enabled |

## Left out

- Goroutines, channels and timeouts: a blocking operation is modelled only by when it is enabled, not by scheduling, fairness or timing.
- The mutex, condition variable and broadcasts: every operation is one atomic step, and waking a waiter is represented by its operation becoming enabled.
- Write-side exclusion of the reader/writer mutex behind `RLockIf`: the model counts read holds, but transitions do not wait for readers to leave, because the implementation that would show this is not part of this model.
- Error values and messages: `StartLoadData`'s error is a boolean, and `Done`'s error argument is the boolean `failed`.
- Overflow of the Go pin counter: pins are unbounded integers, so overflow is not modelled.
- Finalizing a guard twice, or finalizing one that is not outstanding: the lock-level `Done` accepts any guard, while `Lifecycle` allows exactly one finalize per outstanding guard and rules out the rest.
- Rollback of a full release: its guard is `Nop`, so `Done` with an error leaves the lock `Released`. The tests never finalize it with an error.
- LoadStateLock.NewLoadStateLock: requires a state that is not transient, because a lock created mid-transition would have no guard to finish it. The tests only construct `OnlyMeta` and `DataLoaded`.
- The tests' direct writes to the private state field (`l.state = ...`): these are covered by the lock-level functions, whose contracts hold for every `Lock` value, rather than by runs.
