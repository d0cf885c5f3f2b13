/**
 The residency lock of one segment as an immutable record, with one pure
 function per operation. An operation that blocks in Go is given
 as the function it performs once it may proceed, with a precondition
 (`CanStart...`, `DataLoadedOrReleased`) that says when the wait is over.
 */
module LoadStateLock {
  import opened Wrappers
  import opened LoadState

  /** The lifecycle state, the number of outstanding pins and the number of
      readers holding the conditional read gate. */
  datatype Lock = Lock(state: LoadState, pins: int, readers: int)

  /** The token a transition start hands out. `Done` on a `Transition` guard
      commits to `success` or rolls back to `failure`; the guard of a full
      release is `Nop`, because the state is already `Released`. */
  datatype Guard =
    | Transition(failure: LoadState, success: LoadState)
    | Nop

  /** The guard of a load: rolls back to metadata only, commits to loaded. */
  const LoadGuard: Guard := Transition(OnlyMeta, DataLoaded)

  /** The guard of a partial release: rolls back to loaded, commits to
      metadata only. */
  const ReleaseDataGuard: Guard := Transition(DataLoaded, OnlyMeta)

  /** What `StartLoadData` returns: the new lock, a guard or nil, an error flag. */
  datatype LoadOutcome = LoadOutcome(lock: Lock, guard: Option<Guard>, err: bool)

  /** What the release starts return: the new lock and a guard or nil. */
  datatype ReleaseOutcome = ReleaseOutcome(lock: Lock, guard: Option<Guard>)

  /** What the non-blocking gates return: the new lock and whether they succeeded. */
  datatype GateOutcome = GateOutcome(lock: Lock, ok: bool)

  /** Neither counter is negative, and a released lock holds no pins. */
  predicate WellFormed(l: Lock) {
    && l.pins >= 0
    && l.readers >= 0
    && (l.state == Released ==> l.pins == 0)
  }

  /** A fresh lock in a settled state, with no pins and no readers. */
  function NewLoadStateLock(s: LoadState): (l: Lock)
    requires !s.IsTransient()
    ensures WellFormed(l)
    ensures l.state == s && l.pins == 0 && l.readers == 0
  {
    Lock(s, 0, 0)
  }

  /** Finalizes a guard: a failed `Transition` restores its `failure` state,
      a successful one commits its `success` state, and `Nop` changes nothing. */
  function Done(l: Lock, g: Guard, failed: bool): (r: Lock)
    ensures r.pins == l.pins && r.readers == l.readers
    ensures g.Nop? ==> r == l
    ensures g.Transition? && failed ==> r.state == g.failure
    ensures g.Transition? && !failed ==> r.state == g.success
  {
    match g
    case Nop => l
    case Transition(failure, success) => l.(state := if failed then failure else success)
  }

  /** Starts a load. Never blocks: from `OnlyMeta` it enters `DataLoading`
      and hands out a load guard, from `DataLoaded` there is nothing to do,
      and from any other state it reports an error. */
  function StartLoadData(l: Lock): (r: LoadOutcome)
    ensures r.guard.Some? <==> l.state == OnlyMeta
    ensures r.err <==> (l.state == DataLoading || l.state == DataReleasing || l.state == Released)
    ensures !(r.guard.Some? && r.err)
    ensures r.guard.None? ==> r.lock == l
    ensures r.guard.Some? ==> r.guard.value == LoadGuard && r.lock.state == DataLoading
    ensures r.guard.Some? ==> Done(r.lock, r.guard.value, true) == l
    ensures r.guard.Some? ==> Done(r.lock, r.guard.value, false) == l.(state := DataLoaded)
    ensures WellFormed(l) ==> WellFormed(r.lock)
  {
    match l.state
    case OnlyMeta => LoadOutcome(l.(state := DataLoading), Some(LoadGuard), false)
    case DataLoaded => LoadOutcome(l, None, false)
    case _ => LoadOutcome(l, None, true)
  }

  /** A partial release may start once no transition is in flight: in a
      settled state, and whenever a full release or the blocking wait could
      go on. */
  predicate CanStartReleaseData(l: Lock): (b: bool)
    ensures b <==> (l.state == OnlyMeta || l.state == DataLoaded || l.state == Released)
    ensures CanStartReleaseAll(l) ==> b
    ensures DataLoadedOrReleased(l) ==> b
  {
    !l.state.IsTransient()
  }

  /** Starts a partial release: from `DataLoaded` it enters `DataReleasing`
      and hands out a release guard; from `OnlyMeta` or `Released` there is
      nothing to do. It never reports an error. */
  function StartReleaseData(l: Lock): (r: ReleaseOutcome)
    requires CanStartReleaseData(l)
    ensures r.guard.Some? <==> l.state == DataLoaded
    ensures r.guard.None? ==> r.lock == l
    ensures r.guard.Some? ==> r.guard.value == ReleaseDataGuard && r.lock.state == DataReleasing
    ensures r.guard.Some? ==> Done(r.lock, r.guard.value, true) == l
    ensures r.guard.Some? ==> Done(r.lock, r.guard.value, false) == l.(state := OnlyMeta)
    ensures WellFormed(l) ==> WellFormed(r.lock)
  {
    if l.state == DataLoaded then
      ReleaseOutcome(l.(state := DataReleasing), Some(ReleaseDataGuard))
    else
      ReleaseOutcome(l, None)
  }

  /** A full release may start once no transition is in flight and, unless
      the lock is already released, once every pin has been returned. */
  predicate CanStartReleaseAll(l: Lock): (b: bool)
    ensures b ==> l.state != DataLoading && l.state != DataReleasing
    ensures b && l.state != Released ==> l.pins == 0
    ensures WellFormed(l) ==> (b <==> !l.state.IsTransient() && l.pins == 0)
  {
    !l.state.IsTransient() && (l.state == Released || l.pins == 0)
  }

  /** Starts a full release. The state is `Released` when it returns; a guard
      is handed out exactly when the lock was not released already, and
      finalizing it, with or without an error, keeps the lock released. */
  function StartReleaseAll(l: Lock): (r: ReleaseOutcome)
    requires CanStartReleaseAll(l)
    ensures r.lock.state == Released
    ensures r.lock.pins == l.pins && r.lock.readers == l.readers
    ensures r.guard.Some? <==> l.state != Released
    ensures r.guard.Some? ==> r.guard.value == Nop
    ensures r.guard.Some? ==> forall failed: bool :: Done(r.lock, r.guard.value, failed).state == Released
    ensures r.guard.None? ==> r.lock == l
    ensures WellFormed(l) ==> WellFormed(r.lock)
  {
    if l.state == Released then
      ReleaseOutcome(l, None)
    else
      ReleaseOutcome(l.(state := Released), Some(Nop))
  }

  /** The wait in `BlockUntilDataLoadedOrReleased` is over: the data may be
      read, or the segment is gone. No transition is in flight then. */
  predicate DataLoadedOrReleased(l: Lock): (b: bool)
    ensures b <==> Holds(IsDataLoaded, l.state) || !Holds(IsNotReleased, l.state)
    ensures b ==> !l.state.IsTransient()
  {
    l.state == DataLoaded || l.state == Released
  }

  /** Returns once the data is resident or the segment is gone, without
      changing anything. */
  function BlockUntilDataLoadedOrReleased(l: Lock): (r: Lock)
    requires DataLoadedOrReleased(l)
    ensures r == l
    ensures r.state == DataLoaded || r.state == Released
  {
    l
  }

  /** Takes a read hold exactly when `p` accepts the current state; on
      failure nothing is held. `RUnlock` undoes a successful call. */
  function RLockIf(l: Lock, p: StatePredicate): (r: GateOutcome)
    ensures r.ok <==> Holds(p, l.state)
    ensures r.lock.state == l.state && r.lock.pins == l.pins
    ensures !r.ok ==> r.lock == l
    ensures r.ok ==> r.lock.readers == l.readers + 1
    ensures r.ok && l.readers >= 0 ==> RUnlock(r.lock) == l
    ensures WellFormed(l) ==> WellFormed(r.lock)
  {
    if Holds(p, l.state) then GateOutcome(l.(readers := l.readers + 1), true)
    else GateOutcome(l, false)
  }

  /** Gives back a read hold; there must be one. */
  function RUnlock(l: Lock): (r: Lock)
    requires l.readers > 0
    ensures r.state == l.state && r.pins == l.pins
    ensures r.readers == l.readers - 1 && r.readers >= 0
    ensures WellFormed(l) ==> WellFormed(r)
  {
    l.(readers := l.readers - 1)
  }

  /** Pins the segment unless it is released; any number of pins may be
      outstanding. `Unpin` undoes a successful call. */
  function PinIfNotReleased(l: Lock): (r: GateOutcome)
    ensures r.ok <==> l.state != Released
    ensures r.lock.state == l.state && r.lock.readers == l.readers
    ensures !r.ok ==> r.lock == l
    ensures r.ok ==> r.lock.pins == l.pins + 1
    ensures r.ok && l.pins >= 0 ==> Unpin(r.lock) == l
    ensures WellFormed(l) ==> WellFormed(r.lock)
  {
    if l.state != Released then GateOutcome(l.(pins := l.pins + 1), true)
    else GateOutcome(l, false)
  }

  /** Returns a pin; unpinning with no pin outstanding is a fatal error. */
  function Unpin(l: Lock): (r: Lock)
    requires l.pins > 0
    ensures r.state == l.state && r.readers == l.readers
    ensures r.pins == l.pins - 1 && r.pins >= 0
    ensures WellFormed(l) ==> WellFormed(r)
  {
    l.(pins := l.pins - 1)
  }
}
