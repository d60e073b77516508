/** Runs in which a write overtakes a read that its worker dequeued earlier. The pipeline counts a read
    that it downgrades as launched before the read has the lock, so that a writer no longer waits for
    it. */
module RWOvertaken {
  import opened RWMachine
  import opened RWLocal
  import opened RWInvariant
  import opened RWFixed
  import opened RWRetired
  import opened RWSwitch
  import opened RWTheorems
  import opened RWCounterexamples
  import opened RWSteps
  import RWMutualWait
  import RWStoreRace

  /** A write is in ExecuteJob on the main loop while a read dequeued before it has still to run. */
  ghost predicate Overtakes(s: State, id: WorkerId, write: Job, read: Job)
  {
    && id in s.workers && s.workers[id].main == MainWrite(write, Hold(true))
    && Dequeued(s.workers[id], read) && !OverAndDone(s.workers[id], read)
  }

  lemma StillToRun(s: State, j: Job)
    requires Two(s) && s.workers[0].pipe == PipeWrite(j, LoadTarget)
    ensures Dequeued(s.workers[0], j) && !OverAndDone(s.workers[0], j)
  {
    hide Reachable, AllFixed, Switch, Counters, Locks, Life, Crowded, Owned, Flags, Emptied, PlacedUsed;
    ReachableSound(Plain, true, s);
    assert Local(Plain, true, s.g, 0, s.workers[0]) && s.workers[0].ledger.At(j, AtPipe);
  }

  // ---- With the mode on, after a rollback

  lemma BackOn() returns (s: State)
    ensures Two(s) && s.g == Calm.(writer := MainOf(0)) && s.torn == {} && s.flips == 1 && s.rolledBack
    ensures var w := s.workers[0];
            && w.main == MainWrite(RWMutualWait.WriteW, Hold(true))
            && w.pipe == PipeWrite(RWMutualWait.ReadA, LoadTarget)
            && !w.closed && !w.timedOut && w.flow.launched == w.flow.dispatched
  {
    hide Step, Reachable, WorkerStep;
    s := RWMutualWait.RolledBack();
    s := TakenWrite(s, 0, RWMutualWait.WriteW);
    s := MainLocks(s, 0, RWMutualWait.WriteW);
    s := MainTries(s, 0, RWMutualWait.WriteW, Hold(false), false);
  }

  /** The order of reads before a later write fails with RW mode on, without a torn test or a
      timeout, once a switch has rolled back. */
  lemma RollbackOvertakes()
    ensures exists s :: && Reachable(Plain, true, s) && s.g.enabled && !s.g.disabling && s.rolledBack
                        && s.torn == {} && s.flips == 1 && Overtakes(s, 0, RWMutualWait.WriteW, RWMutualWait.ReadA)
                        && !s.workers[0].closed && !s.workers[0].timedOut
  {
    var s := BackOn();
    StillToRun(s, RWMutualWait.ReadA);
  }

  lemma WriteOver() returns (s: State)
    ensures Two(s) && s.g == Calm
    ensures var w := s.workers[0];
            && w.pipe == PipeWrite(RWMutualWait.ReadA, LoadTarget) && w.flow.launched == w.flow.dispatched
            && w.ledger.At(RWMutualWait.WriteW, Settled(Executed))
  {
    hide Step, Reachable, WorkerStep;
    s := BackOn();
    s := MainTries(s, 0, RWMutualWait.WriteW, Hold(true), false);
    s := MainTries(s, 0, RWMutualWait.WriteW, Unlock, false);
  }

  lemma ReadRuns() returns (s: State)
    ensures Two(s) && s.g.enabled && !s.g.disabling && PipeRuns(s, 0)
    ensures s.workers[0].pipe.job == RWMutualWait.ReadA
    ensures s.workers[0].ledger.At(RWMutualWait.WriteW, Settled(Executed))
  {
    hide Step, Reachable, WorkerStep;
    s := WriteOver();
    s := PipeRequests(s, 0, RWMutualWait.ReadA);
    s := PipeTries(s, 0, RWMutualWait.ReadA, TryLock);
    s := PipeTries(s, 0, RWMutualWait.ReadA, Hold(false));
  }

  /** And the read does execute after the write. */
  lemma OvertakenReadRuns()
    ensures exists s :: && Reachable(Plain, true, s) && s.g.enabled && !s.g.disabling
                        && PipeRuns(s, 0) && s.workers[0].pipe.job == RWMutualWait.ReadA
                        && s.workers[0].ledger.At(RWMutualWait.WriteW, Settled(Executed))
  {
    var s := ReadRuns();
  }

  // ---- While the mode is being switched off

  lemma SwitchingOff() returns (s: State)
    ensures Two(s) && !s.g.enabled && s.g.disabling && s.torn == {} && s.flips == 1 && !s.rolledBack
    ensures var w := s.workers[0];
            w.main == MainWrite(RWStoreRace.Write, Hold(true)) && w.pipe == PipeWrite(First, LoadTarget)
  {
    hide Step, Reachable, WorkerStep;
    s := RWStoreRace.Sends();
    s := TakenWrite(s, 0, RWStoreRace.Write);
    s := FlipsOff(s);
    s := Downgrades(s, 0, First);
    s := MainLocks(s, 0, RWStoreRace.Write);
    s := MainTries(s, 0, RWStoreRace.Write, Hold(false), false);
  }

  /** Without a rollback it fails only then: a write overtakes the straggler while the mode is off. */
  lemma SwitchOvertakes()
    ensures exists s :: && Reachable(Plain, true, s) && !s.g.enabled && s.g.disabling && !s.rolledBack
                        && s.torn == {} && Overtakes(s, 0, RWStoreRace.Write, First)
  {
    var s := SwitchingOff();
    StillToRun(s, First);
  }
}
