/**
 The call sequences of the lock's unit tests, replayed as runs of the model.
 Where a test blocks a goroutine on an operation, the run shows that the
 operation is not enabled at that point and becomes enabled after the event
 that unblocks it. Each run is written as its first event followed by the
 rest, and each proof names the intermediate states and takes one event at
 a time.
 */
module Scenarios {
  import opened Wrappers
  import opened LoadState
  import opened LoadStateLock
  import opened Lifecycle

  /** A load that fails rolls back to metadata only, one that succeeds ends
      loaded, and loading again is a no-op without error. */
  lemma LoadDataScenario()
    ensures Run(Init(OnlyMeta), [LoadData]) == Some(Sys(Lock(DataLoading, 0, 0), Some(LoadGuard)))
    ensures Run(Init(OnlyMeta), [LoadData] + [Finish(true)]) == Some(Sys(Lock(OnlyMeta, 0, 0), None))
    ensures Run(Init(OnlyMeta), [LoadData] + ([Finish(true)] + ([LoadData] + [Finish(false)])))
      == Some(Sys(Lock(DataLoaded, 0, 0), None))
    ensures StartLoadData(Lock(DataLoaded, 0, 0)).guard.None?
    ensures !StartLoadData(Lock(DataLoaded, 0, 0)).err
  {
    var i := Init(OnlyMeta);
    var a := Sys(Lock(DataLoading, 0, 0), Some(LoadGuard));
    var b := Sys(Lock(OnlyMeta, 0, 0), None);
    var c := Sys(Lock(DataLoaded, 0, 0), None);
    assert Run(i, [LoadData]) == Some(a) by {
      RunOne(i, LoadData);
    }
    assert Run(i, [LoadData] + [Finish(true)]) == Some(b) by {
      RunOne(a, Finish(true));
      RunCons(i, LoadData, [Finish(true)]);
    }
    assert Run(b, [LoadData] + [Finish(false)]) == Some(c) by {
      RunOne(a, Finish(false));
      RunCons(b, LoadData, [Finish(false)]);
    }
    assert Run(i, [LoadData] + ([Finish(true)] + ([LoadData] + [Finish(false)]))) == Some(c) by {
      RunCons(a, Finish(true), [LoadData] + [Finish(false)]);
      RunCons(i, LoadData, [Finish(true)] + ([LoadData] + [Finish(false)]));
    }
  }

  /** A partial release waits for an in-flight load; once the load commits
      it starts, and committing it leaves metadata only. */
  lemma ReleaseDataWaitsForLoad()
    ensures Run(Init(OnlyMeta), [LoadData]) == Some(Sys(Lock(DataLoading, 0, 0), Some(LoadGuard)))
    ensures !Enabled(Sys(Lock(DataLoading, 0, 0), Some(LoadGuard)), ReleaseData)
    ensures Run(Init(OnlyMeta), [LoadData] + ([Finish(false)] + [ReleaseData]))
      == Some(Sys(Lock(DataReleasing, 0, 0), Some(ReleaseDataGuard)))
    ensures Run(Init(OnlyMeta), [LoadData] + ([Finish(false)] + ([ReleaseData] + [Finish(false)])))
      == Some(Sys(Lock(OnlyMeta, 0, 0), None))
  {
    var i := Init(OnlyMeta);
    var a := Sys(Lock(DataLoading, 0, 0), Some(LoadGuard));
    var b := Sys(Lock(DataLoaded, 0, 0), None);
    var c := Sys(Lock(DataReleasing, 0, 0), Some(ReleaseDataGuard));
    var d := Sys(Lock(OnlyMeta, 0, 0), None);
    assert Run(i, [LoadData]) == Some(a) by {
      RunOne(i, LoadData);
    }
    assert Run(a, [Finish(false)] + [ReleaseData]) == Some(c) by {
      RunOne(b, ReleaseData);
      RunCons(a, Finish(false), [ReleaseData]);
    }
    assert Run(i, [LoadData] + ([Finish(false)] + [ReleaseData])) == Some(c) by {
      RunCons(i, LoadData, [Finish(false)] + [ReleaseData]);
    }
    assert Run(b, [ReleaseData] + [Finish(false)]) == Some(d) by {
      RunOne(c, Finish(false));
      RunCons(b, ReleaseData, [Finish(false)]);
    }
    assert Run(i, [LoadData] + ([Finish(false)] + ([ReleaseData] + [Finish(false)]))) == Some(d) by {
      RunCons(a, Finish(false), [ReleaseData] + [Finish(false)]);
      RunCons(i, LoadData, [Finish(false)] + ([ReleaseData] + [Finish(false)]));
    }
  }

  /** The blocking wait is held off on metadata only and released by a
      committed load. */
  lemma BlockUntilLoadedScenario()
    ensures !Enabled(Init(OnlyMeta), AwaitLoadedOrReleased)
    ensures Run(Init(OnlyMeta), [LoadData] + ([Finish(false)] + [AwaitLoadedOrReleased]))
      == Some(Sys(Lock(DataLoaded, 0, 0), None))
  {
    var i := Init(OnlyMeta);
    var a := Sys(Lock(DataLoading, 0, 0), Some(LoadGuard));
    var b := Sys(Lock(DataLoaded, 0, 0), None);
    assert Run(a, [Finish(false)] + [AwaitLoadedOrReleased]) == Some(b) by {
      RunOne(b, AwaitLoadedOrReleased);
      RunCons(a, Finish(false), [AwaitLoadedOrReleased]);
    }
    assert Run(i, [LoadData] + ([Finish(false)] + [AwaitLoadedOrReleased])) == Some(b) by {
      RunCons(i, LoadData, [Finish(false)] + [AwaitLoadedOrReleased]);
    }
  }

  /** A full release from metadata only or from loaded hands out a guard and
      is released at once; finalizing keeps it released. */
  lemma ReleaseAllScenario()
    ensures Run(Init(OnlyMeta), [ReleaseAll]) == Some(Sys(Lock(Released, 0, 0), Some(Nop)))
    ensures Run(Init(DataLoaded), [ReleaseAll] + [Finish(false)]) == Some(Sys(Lock(Released, 0, 0), None))
  {
    var r := Sys(Lock(Released, 0, 0), Some(Nop));
    assert Run(Init(OnlyMeta), [ReleaseAll]) == Some(r) by {
      RunOne(Init(OnlyMeta), ReleaseAll);
    }
    assert Run(Init(DataLoaded), [ReleaseAll] + [Finish(false)]) == Some(Sys(Lock(Released, 0, 0), None)) by {
      RunOne(r, Finish(false));
      RunCons(Init(DataLoaded), ReleaseAll, [Finish(false)]);
    }
  }

  /** A full release waits for an in-flight load and completes once the
      load commits. */
  lemma ReleaseAllWaitsForLoad()
    ensures Run(Init(OnlyMeta), [LoadData]) == Some(Sys(Lock(DataLoading, 0, 0), Some(LoadGuard)))
    ensures !Enabled(Sys(Lock(DataLoading, 0, 0), Some(LoadGuard)), ReleaseAll)
    ensures Run(Init(OnlyMeta), [LoadData] + ([Finish(false)] + ([ReleaseAll] + [Finish(false)])))
      == Some(Sys(Lock(Released, 0, 0), None))
  {
    var i := Init(OnlyMeta);
    var a := Sys(Lock(DataLoading, 0, 0), Some(LoadGuard));
    var b := Sys(Lock(DataLoaded, 0, 0), None);
    var r := Sys(Lock(Released, 0, 0), Some(Nop));
    var f := Sys(Lock(Released, 0, 0), None);
    assert Run(i, [LoadData]) == Some(a) by {
      RunOne(i, LoadData);
    }
    assert Run(b, [ReleaseAll] + [Finish(false)]) == Some(f) by {
      RunOne(r, Finish(false));
      RunCons(b, ReleaseAll, [Finish(false)]);
    }
    assert Run(i, [LoadData] + ([Finish(false)] + ([ReleaseAll] + [Finish(false)]))) == Some(f) by {
      RunCons(a, Finish(false), [ReleaseAll] + [Finish(false)]);
      RunCons(i, LoadData, [Finish(false)] + ([ReleaseAll] + [Finish(false)]));
    }
  }

  /** Read holds follow the state predicates before and after a full release. */
  lemma ReadLockScenario()
    ensures RLockIf(Init(OnlyMeta).lock, IsNotReleased).ok
    ensures !RLockIf(Init(OnlyMeta).lock, IsDataLoaded).ok
    ensures RLockIf(Init(DataLoaded).lock, IsNotReleased).ok
    ensures RLockIf(Init(DataLoaded).lock, IsDataLoaded).ok
    ensures Run(Init(OnlyMeta), [ReleaseAll] + [Finish(false)]) == Some(Sys(Lock(Released, 0, 0), None))
    ensures !RLockIf(Lock(Released, 0, 0), IsNotReleased).ok
    ensures !RLockIf(Lock(Released, 0, 0), IsDataLoaded).ok
  {
    var r := Sys(Lock(Released, 0, 0), Some(Nop));
    assert Run(Init(OnlyMeta), [ReleaseAll] + [Finish(false)]) == Some(Sys(Lock(Released, 0, 0), None)) by {
      RunOne(r, Finish(false));
      RunCons(Init(OnlyMeta), ReleaseAll, [Finish(false)]);
    }
  }

  /** A pin is granted on a lock that is not released. */
  lemma PinGrantedScenario()
    ensures Run(Init(OnlyMeta), [PinCall]) == Some(Sys(Lock(OnlyMeta, 1, 0), None))
  {
    RunOne(Init(OnlyMeta), PinCall);
    assert Step(Init(OnlyMeta), PinCall) == Sys(Lock(OnlyMeta, 1, 0), None);
  }

  /** A pin given back before a full release lets it through, and a pin is
      refused after it. */
  lemma PinRefusedAfterRelease()
    ensures Run(Init(OnlyMeta), [PinCall] + ([UnpinCall] + ([ReleaseAll] + [Finish(false)])))
      == Some(Sys(Lock(Released, 0, 0), None))
    ensures !PinIfNotReleased(Lock(Released, 0, 0)).ok
  {
    var i := Init(OnlyMeta);
    var a := Sys(Lock(OnlyMeta, 1, 0), None);
    var r := Sys(Lock(Released, 0, 0), Some(Nop));
    var f := Sys(Lock(Released, 0, 0), None);
    assert Run(i, [ReleaseAll] + [Finish(false)]) == Some(f) by {
      RunOne(r, Finish(false));
      assert Step(r, Finish(false)) == f;
      RunCons(i, ReleaseAll, [Finish(false)]);
      assert Step(i, ReleaseAll) == r;
    }
    assert Run(a, [UnpinCall] + ([ReleaseAll] + [Finish(false)])) == Some(f) by {
      RunCons(a, UnpinCall, [ReleaseAll] + [Finish(false)]);
      assert Step(a, UnpinCall) == i;
    }
    RunCons(i, PinCall, [UnpinCall] + ([ReleaseAll] + [Finish(false)]));
    assert Step(i, PinCall) == a;
  }

  /** With one pin outstanding a full release is held off. */
  lemma PinHoldsOffReleaseAllScenario()
    ensures Run(Init(DataLoaded), [PinCall]) == Some(Sys(Lock(DataLoaded, 1, 0), None))
    ensures !Enabled(Sys(Lock(DataLoaded, 1, 0), None), ReleaseAll)
  {
  }

  /** A further pin is still granted while a full release waits, and after
      one of the two pins is returned it is still held off. */
  lemma PinsHoldOffReleaseAllScenario()
    ensures Run(Init(DataLoaded), [PinCall] + ([PinCall] + [UnpinCall]))
      == Some(Sys(Lock(DataLoaded, 1, 0), None))
    ensures !Enabled(Sys(Lock(DataLoaded, 1, 0), None), ReleaseAll)
  {
    var i := Init(DataLoaded);
    var a := Sys(Lock(DataLoaded, 1, 0), None);
    var b := Sys(Lock(DataLoaded, 2, 0), None);
    assert Run(a, [PinCall] + [UnpinCall]) == Some(a) by {
      RunOne(b, UnpinCall);
      assert Step(b, UnpinCall) == a;
      RunCons(a, PinCall, [UnpinCall]);
      assert Step(a, PinCall) == b;
    }
    RunCons(i, PinCall, [PinCall] + [UnpinCall]);
    assert Step(i, PinCall) == a;
  }

  /** Once the last pin is back the waiting full release goes through, and
      an extra unpin is not allowed. */
  lemma ReleaseAllAfterUnpinsScenario()
    ensures Run(Init(DataLoaded), [PinCall] + ([PinCall] + ([UnpinCall] + ([UnpinCall] + ([ReleaseAll] + [Finish(false)])))))
      == Some(Sys(Lock(Released, 0, 0), None))
    ensures !Enabled(Sys(Lock(Released, 0, 0), None), UnpinCall)
  {
    var i := Init(DataLoaded);
    var a := Sys(Lock(DataLoaded, 1, 0), None);
    var b := Sys(Lock(DataLoaded, 2, 0), None);
    var r := Sys(Lock(Released, 0, 0), Some(Nop));
    var f := Sys(Lock(Released, 0, 0), None);
    assert Run(i, [ReleaseAll] + [Finish(false)]) == Some(f) by {
      RunOne(r, Finish(false));
      RunCons(i, ReleaseAll, [Finish(false)]);
    }
    assert Run(b, [UnpinCall] + ([UnpinCall] + ([ReleaseAll] + [Finish(false)]))) == Some(f) by {
      RunCons(a, UnpinCall, [ReleaseAll] + [Finish(false)]);
      RunCons(b, UnpinCall, [UnpinCall] + ([ReleaseAll] + [Finish(false)]));
    }
    assert Run(i, [PinCall] + ([PinCall] + ([UnpinCall] + ([UnpinCall] + ([ReleaseAll] + [Finish(false)])))))
        == Some(f) by {
      RunCons(a, PinCall, [UnpinCall] + ([UnpinCall] + ([ReleaseAll] + [Finish(false)])));
      RunCons(i, PinCall, [PinCall] + ([UnpinCall] + ([UnpinCall] + ([ReleaseAll] + [Finish(false)]))));
    }
  }
}
