/**
 The lock as a system driven by callers: the lock record together with the
 guard currently handed out, one event per public operation, a step relation
 in which a blocking operation is only enabled once its wait is over, and
 runs of events. The invariant `Inv` says that at most one guard is
 outstanding and that it matches the state the lock is in.
 */
module Lifecycle {
  import opened Wrappers
  import opened LoadState
  import opened LoadStateLock

  /** One call of a public operation. `Finish` is `Done` on the outstanding guard. */
  datatype Event =
    | LoadData
    | ReleaseData
    | ReleaseAll
    | Finish(failed: bool)
    | AwaitLoadedOrReleased
    | ReadLock(pred: StatePredicate)
    | ReadUnlock
    | PinCall
    | UnpinCall

  /** The lock and the guard handed out and not yet finalized, if any. */
  datatype Sys = Sys(lock: Lock, pending: Option<Guard>)

  /** Guard `g` belongs to a transition that left the lock in state `s`. */
  predicate GuardMatches(s: LoadState, g: Guard) {
    match g
    case Nop => s == Released
    case Transition(_, _) =>
      (s == DataLoading && g == LoadGuard) || (s == DataReleasing && g == ReleaseDataGuard)
  }

  /** The counters are well formed; the lock is in a transient state exactly
      while a load or partial-release guard is outstanding; and the only
      other guard that can be outstanding is that of a finished full release. */
  predicate Inv(s: Sys) {
    && WellFormed(s.lock)
    && match s.pending
       case None => !s.lock.state.IsTransient()
       case Some(g) => GuardMatches(s.lock.state, g)
  }

  /** A freshly constructed lock with no guard outstanding. */
  function Init(st: LoadState): (s: Sys)
    requires !st.IsTransient()
    ensures Inv(s)
    ensures s.lock.state == st && s.pending.None?
  {
    Sys(NewLoadStateLock(st), None)
  }

  /** Whether event `e` can take effect in `s`: a blocking operation waits
      until its condition holds, and finalizing a guard, giving back a read
      hold or a pin needs one to be outstanding. */
  predicate Enabled(s: Sys, e: Event) {
    match e
    case LoadData => true
    case ReleaseData => CanStartReleaseData(s.lock)
    case ReleaseAll => CanStartReleaseAll(s.lock)
    case Finish(_) => s.pending.Some?
    case AwaitLoadedOrReleased => DataLoadedOrReleased(s.lock)
    case ReadLock(_) => true
    case ReadUnlock => s.lock.readers > 0
    case PinCall => true
    case UnpinCall => s.lock.pins > 0
  }

  /** The effect of one enabled event. A start that hands out a guard records
      it as outstanding; `Finish` finalizes and forgets it. */
  function Step(s: Sys, e: Event): (t: Sys)
    requires Enabled(s, e)
  {
    match e
    case LoadData =>
      var o := StartLoadData(s.lock);
      Sys(o.lock, if o.guard.Some? then o.guard else s.pending)
    case ReleaseData =>
      var o := StartReleaseData(s.lock);
      Sys(o.lock, if o.guard.Some? then o.guard else s.pending)
    case ReleaseAll =>
      var o := StartReleaseAll(s.lock);
      Sys(o.lock, if o.guard.Some? then o.guard else s.pending)
    case Finish(failed) => Sys(Done(s.lock, s.pending.value, failed), None)
    case AwaitLoadedOrReleased => s.(lock := BlockUntilDataLoadedOrReleased(s.lock))
    case ReadLock(p) => s.(lock := RLockIf(s.lock, p).lock)
    case ReadUnlock => s.(lock := RUnlock(s.lock))
    case PinCall => s.(lock := PinIfNotReleased(s.lock).lock)
    case UnpinCall => s.(lock := Unpin(s.lock))
  }

  /** Every enabled event keeps the invariant. A new guard is handed out
      only when none is outstanding, so at most one transition is ever in
      flight; `Released` is never left; and finalizing consumes the guard. */
  lemma StepPreservesInv(s: Sys, e: Event)
    requires Inv(s) && Enabled(s, e)
    ensures Inv(Step(s, e))
    ensures Step(s, e).pending.Some? && Step(s, e).pending != s.pending ==> s.pending.None?
    ensures s.lock.state == Released ==> Step(s, e).lock.state == Released
    ensures e.Finish? ==> Step(s, e).pending.None?
  {
  }

  /** Runs the events in order; `None` when one of them is not enabled (the
      caller would block forever or break the lock's contract). */
  function Run(s: Sys, es: seq<Event>): Option<Sys>
    decreases |es|
  {
    if |es| == 0 then Some(s)
    else if Enabled(s, es[0]) then Run(Step(s, es[0]), es[1..])
    else None
  }

  /** A run takes its first event's step, then runs the rest. */
  lemma RunCons(s: Sys, e: Event, es: seq<Event>)
    requires Enabled(s, e)
    ensures Run(s, [e] + es) == Run(Step(s, e), es)
  {
    assert ([e] + es)[0] == e;
    assert ([e] + es)[1..] == es;
  }

  /** A run of one enabled event is that event's step. */
  lemma RunOne(s: Sys, e: Event)
    requires Enabled(s, e)
    ensures Run(s, [e]) == Some(Step(s, e))
  {
    RunCons(s, e, []);
    assert [e] + [] == [e];
  }

  /** Running two sequences one after the other is running their concatenation. */
  lemma {:induction false} RunAppend(s: Sys, a: seq<Event>, b: seq<Event>)
    ensures Run(s, a + b) == (if Run(s, a).Some? then Run(Run(s, a).value, b) else None)
    decreases |a|
  {
    if |a| == 0 {
      assert a + b == b;
    } else {
      assert (a + b)[0] == a[0];
      assert (a + b)[1..] == a[1..] + b;
      if Enabled(s, a[0]) {
        RunAppend(Step(s, a[0]), a[1..], b);
      }
    }
  }

  /** Every run from a state satisfying the invariant ends in one: the pin
      and reader counts never go negative, a released lock holds no pins, and
      at most one transition is ever in flight. */
  lemma {:induction false} RunPreservesInv(s: Sys, es: seq<Event>)
    requires Inv(s)
    requires Run(s, es).Some?
    ensures Inv(Run(s, es).value)
    decreases |es|
  {
    if |es| > 0 && Enabled(s, es[0]) {
      StepPreservesInv(s, es[0]);
      RunPreservesInv(Step(s, es[0]), es[1..]);
    }
  }

  /** `Released` is terminal: no run leaves it, and no pin is ever taken
      again after it. */
  lemma {:induction false} ReleasedIsAbsorbing(s: Sys, es: seq<Event>)
    requires Inv(s) && s.lock.state == Released
    requires Run(s, es).Some?
    ensures Run(s, es).value.lock.state == Released
    ensures Run(s, es).value.lock.pins == 0
    decreases |es|
  {
    if |es| > 0 && Enabled(s, es[0]) {
      StepPreservesInv(s, es[0]);
      ReleasedIsAbsorbing(Step(s, es[0]), es[1..]);
    }
  }

  /** From a released lock no start operation hands out a guard, no pin is
      taken and no read hold is granted for either predicate. */
  lemma ReleasedRefusesEverything(l: Lock)
    requires l.state == Released
    ensures StartLoadData(l).guard.None? && StartLoadData(l).err
    ensures StartReleaseData(l).guard.None? && StartReleaseAll(l).guard.None?
    ensures !PinIfNotReleased(l).ok
    ensures !RLockIf(l, IsNotReleased).ok && !RLockIf(l, IsDataLoaded).ok
  {
  }

  /** `n` unpin calls in a row. */
  function UnpinCalls(n: nat): (es: seq<Event>)
    ensures |es| == n
    ensures forall i :: 0 <= i < n ==> es[i] == UnpinCall
  {
    if n == 0 then [] else [UnpinCall] + UnpinCalls(n - 1)
  }

  /** Giving back every outstanding pin is always possible and changes
      nothing but the pin count. */
  lemma {:induction false} DrainPins(s: Sys)
    requires Inv(s)
    ensures Run(s, UnpinCalls(s.lock.pins)) == Some(s.(lock := s.lock.(pins := 0)))
    decreases s.lock.pins
  {
    var n := s.lock.pins;
    if n > 0 {
      var es := UnpinCalls(n);
      assert es[0] == UnpinCall && es[1..] == UnpinCalls(n - 1);
      var t := Step(s, UnpinCall);
      assert t == s.(lock := s.lock.(pins := n - 1));
      DrainPins(t);
    }
  }

  /** Finalizing the outstanding guard, if there is one, successfully. */
  function FinishPending(s: Sys): seq<Event> {
    if s.pending.Some? then [Finish(false)] else []
  }

  /** No caller of a release waits forever: once the outstanding guard is
      finalized and every pin is given back, both releases can start, the
      blocking wait returns after a full release, and a full release ends
      in `Released`. */
  lemma ReleasesCanAlwaysProceed(s: Sys)
    requires Inv(s)
    ensures var es := FinishPending(s) + UnpinCalls(s.lock.pins);
      && Run(s, es).Some?
      && Enabled(Run(s, es).value, ReleaseData)
      && Enabled(Run(s, es).value, ReleaseAll)
      && Run(s, es + [ReleaseAll]).Some?
      && Run(s, es + [ReleaseAll]).value.lock.state == Released
      && Run(s, es + [ReleaseAll, AwaitLoadedOrReleased]).Some?
  {
    var f := FinishPending(s);
    var u := if s.pending.Some? then Step(s, Finish(false)) else s;
    assert Run(s, f) == Some(u) by {
      if s.pending.Some? {
        assert Run(s, f) == Run(Step(s, Finish(false)), []);
      }
    }
    DrainPins(u);
    RunAppend(s, f, UnpinCalls(s.lock.pins));
    var es := f + UnpinCalls(s.lock.pins);
    var v := u.(lock := u.lock.(pins := 0));
    assert Run(s, es) == Some(v);
    RunAppend(s, es, [ReleaseAll]);
    assert Run(v, [ReleaseAll]) == Run(Step(v, ReleaseAll), []);
    var w := Step(v, ReleaseAll);
    RunAppend(s, es, [ReleaseAll, AwaitLoadedOrReleased]);
    assert [ReleaseAll, AwaitLoadedOrReleased][1..] == [AwaitLoadedOrReleased];
    assert Run(w, [AwaitLoadedOrReleased]) == Run(Step(w, AwaitLoadedOrReleased), []);
  }

  /** While a load is in flight, both releases and the blocking wait are held
      off. Committing the load lets all three through (a full release once
      the pins are back); rolling it back lets the partial release through,
      which then has nothing to do, and keeps the wait blocked. */
  lemma LoadInFlightHoldsOffWaiters(s: Sys)
    requires Inv(s) && s.lock.state == DataLoading
    ensures s.pending == Some(LoadGuard)
    ensures !Enabled(s, ReleaseData) && !Enabled(s, ReleaseAll) && !Enabled(s, AwaitLoadedOrReleased)
    ensures var t := Step(s, Finish(false));
      && t.lock.state == DataLoaded
      && Enabled(t, ReleaseData) && Enabled(t, AwaitLoadedOrReleased)
      && (t.lock.pins == 0 ==> Enabled(t, ReleaseAll))
    ensures var t := Step(s, Finish(true));
      && t.lock.state == OnlyMeta
      && Enabled(t, ReleaseData) && StartReleaseData(t.lock).guard.None?
      && !Enabled(t, AwaitLoadedOrReleased)
  {
  }

  /** While pins are outstanding a full release waits, yet further pins are
      still granted because the lock is not released yet. */
  lemma PinsHoldOffReleaseAll(s: Sys)
    requires Inv(s) && !s.lock.state.IsTransient() && s.lock.state != Released
    requires s.lock.pins > 0
    ensures !Enabled(s, ReleaseAll)
    ensures PinIfNotReleased(s.lock).ok
    ensures Step(s, PinCall).lock.pins == s.lock.pins + 1
    ensures !Enabled(Step(s, PinCall), ReleaseAll)
  {
  }
}
