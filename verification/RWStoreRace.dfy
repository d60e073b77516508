/** Two runs in which storePending loses a race. RW mode was switched off while worker 0 had a
    straggler in its pipeline, and the worker is stopped while worker 1 holds the lock, so that
    both its main loop and its pipeline give up and park. */
module RWStoreRace {
  import opened RWMachine
  import opened RWLocal
  import opened RWCounterexamples
  import opened RWSteps

  const Write := Job(3, false)

  const Blocker := Job(4, false)

  /** One flip, and no rollback or torn test. */
  predicate Flipped1(s: State) { s.flips == 1 && s.torn == {} && !s.rolledBack }

  /** Worker 0 has a read and a write queued, worker 1 a write. */
  lemma Loaded() returns (s: State)
    ensures Two(s) && s.snap == {0, 1} && s.control == Idle && s.g == Calm && s.torn == {}
    ensures s.flips == 0 && !s.rolledBack
    ensures var w := s.workers[0];
            && w == NewWorker(true).(ledger := w.ledger) && w.ledger.queue == {First, Write}
            && w.ledger.pending == Empty && w.ledger.releases == map[]
    ensures var v := s.workers[1]; v == NewWorker(true).(ledger := v.ledger) && Blocker in v.ledger.queue
  {
    hide Step, Reachable, WorkerStep;
    s := Start();
    s := Submits(s, 0, First);
    s := Submits(s, 0, Write);
    s := Submits(s, 1, Blocker);
    assert s.workers[0].ledger.queue == {First, Write};
  }

  /** The scan of SetRWEnabled(false) passes while the main loop is past the test with its read,
      which then becomes a straggler. */
  lemma Sends() returns (s: State)
    ensures Two(s) && s.control == DisableLock && s.g == Calm.(disabling := true) && s.torn == {} && s.flips == 0
    ensures !s.rolledBack
    ensures var w := s.workers[0];
            && w.main == Loop && w.flow == Flow(1, 0, [First], false) && w.ledger.queue == {Write} && w.pipe == Recv
            && !w.closed && !w.timedOut && w.writeRequested == 0 && w.ledger.pending == Empty
            && w.ledger.releases == map[]
    ensures var v := s.workers[1]; v == NewWorker(true).(ledger := v.ledger) && Blocker in v.ledger.queue
  {
    hide Step, Reachable, WorkerStep;
    s := Loaded();
    s := Taken(s, 0, First);
    assert s.workers[0].ledger.queue == {Write};
    s := Scans(s);
    s := SentOn(s, 0, First);
  }

  /** The write of worker 0 waits for the straggler. */
  predicate Held(w: Worker)
  {
    && w.main == MainWrite(Write, AwaitLaunch(1)) && w.flow == Flow(1, 0, [First], false) && w.ledger.queue == {}
    && w.pipe == Recv && !w.timedOut && w.writeRequested == 0 && w.ledger.pending == Empty && w.ledger.releases == map[]
  }

  /** Worker 1 stands before TryLock with its write. */
  lemma Poised() returns (s: State)
    ensures Two(s) && s.control == DisableLock && s.g == Calm.(disabling := true) && s.torn == {} && s.flips == 0
    ensures !s.rolledBack
    ensures Held(s.workers[0]) && s.workers[1].main == MainWrite(Blocker, TryLock)
  {
    hide Step, Reachable, WorkerStep;
    s := Sends();
    s := TakenWrite(s, 0, Write);
    s := MainTries(s, 0, Write, LoadTarget, false);
    s := TakenWrite(s, 1, Blocker);
    s := MainRequests(s, 1, Blocker);
  }

  /** RW mode is off, and worker 0 is told to stop. */
  lemma Stopped() returns (s: State)
    ensures Two(s) && Flipped1(s) && s.g == Shared(false, true, Nobody, {}, {})
    ensures Held(s.workers[0]) && s.workers[0].closed && s.workers[1].main == MainWrite(Blocker, TryLock)
  {
    hide Step, Reachable, WorkerStep;
    s := Poised();
    s := FlipsOff(s);
    s := Stops(s);
  }

  /** From the straggler in the channel to storePending: the pipeline loses the lock to worker 1. */
  lemma PipeParks(s0: State) returns (s: State)
    requires Two(s0) && Flipped1(s0) && s0.g == Shared(false, true, Nobody, {}, {})
    requires s0.workers[1].main == MainWrite(Blocker, TryLock)
    requires var w := s0.workers[0];
             w.closed && w.pipe == Recv && w.flow == Flow(1, 0, [First], w.flow.shut) && w.writeRequested == 0
    ensures Two(s) && Flipped1(s) && !s.g.enabled
    ensures var w := s0.workers[0];
            s.workers[0] == w.(flow := w.flow.(launched := 1, channel := []), ledger := w.ledger.Move(First, AtPipe),
                               downgrades := w.downgrades + 1, pipe := PipeWrite(First, Park))
  {
    hide Step, Reachable, WorkerStep;
    s := Downgrades(s0, 0, First);
    s := PipeRequests(s, 0, First);
    s := MainTries(s, 1, Blocker, TryLock, false);
    s := PipeGivesUp(s, 0, First);
  }

  // ---- The stop times out, and a job is released twice

  /** The write gives up and is parked. */
  lemma ParkedWrite() returns (s: State)
    ensures Two(s) && Flipped1(s) && s.g == Shared(false, true, Nobody, {}, {})
    ensures s.workers[1].main == MainWrite(Blocker, TryLock)
    ensures var w := s.workers[0];
            && w.main == Loop && w.flow == Flow(1, 0, [First], false) && w.closed && w.writeRequested == 0
            && w.pipe == Recv
            && w.ledger.pending == Full(Write) && w.ledger.Releases(Write) == 0
  {
    hide Step, Reachable, WorkerStep;
    s := Stopped();
    s := MainGivesUp(s, 0, Write, 1);
    s := MainTries(s, 0, Write, Park, false);
    s := MainTries(s, 0, Write, ParkSet, false);
  }

  /** The drain does not wait for the pipeline and takes the parked job; the pipeline finds it too. */
  lemma BothFind() returns (s: State)
    ensures Two(s) && Flipped1(s)
    ensures var w := s.workers[0];
            && w.main == Drain(Residue(DrainMode(false, false), SettlePending(Write, false)))
            && w.pipe == PipeWrite(First, ParkOld(Write)) && w.timedOut && w.ledger.Releases(Write) == 0
  {
    hide Step, Reachable, WorkerStep;
    s := ParkedWrite();
    s := Leaves0(s);
    s := Waited(s, true);
    s := Residues(s, Write);
    s := PipeParks(s);
    s := PipeTries(s, 0, First, Park);
  }

  lemma TwiceRun() returns (s: State)
    ensures Two(s) && Flipped1(s) && s.workers[0].timedOut && s.workers[0].ledger.Releases(Write) == 2
  {
    hide Step, Reachable, WorkerStep;
    s := BothFind();
    s := PipeTries(s, 0, First, ParkOld(Write));
    s := SettlesParked(s, Write);
  }

  // ---- No timeout: the parked write is overwritten

  /** Both have seen pendingJob empty. */
  lemma BothPark() returns (s: State)
    ensures Two(s) && Flipped1(s) && !s.g.enabled
    ensures var w := s.workers[0];
            && w.closed && !w.timedOut && w.flow == Flow(1, 1, [], false) && w.ledger.queue == {}
            && w.ledger.pending == Empty
            && w.main == MainWrite(Write, ParkSet) && w.pipe == PipeWrite(First, ParkSet)
  {
    hide Step, Reachable, WorkerStep;
    s := Stopped();
    s := MainGivesUp(s, 0, Write, 1);
    s := MainTries(s, 0, Write, Park, false);
    s := PipeParks(s);
    s := PipeTries(s, 0, First, Park);
  }

  /** The second store overwrites the first. */
  lemma Overwrites() returns (s: State)
    ensures Two(s) && Flipped1(s) && !s.g.enabled
    ensures var w := s.workers[0];
            && w.closed && !w.timedOut && w.flow == Flow(1, 1, [], false) && w.ledger.queue == {}
            && w.ledger.pending == Full(First)
            && w.main == Loop && w.pipe == Recv && w.ledger.At(Write, Lost)
  {
    hide Step, Reachable, WorkerStep;
    s := BothPark();
    s := MainTries(s, 0, Write, ParkSet, false);
    s := PipeTries(s, 0, First, ParkSet);
  }

  /** `run` returns without a timeout, and an accepted job was never settled. */
  lemma LostRun() returns (s: State)
    ensures Two(s) && Flipped1(s) && s.workers[0].main == Done && !s.workers[0].timedOut
    ensures s.workers[0].ledger.At(Write, Lost)
  {
    hide Step, Reachable, WorkerStep;
    s := Overwrites();
    s := Leaves0(s);
    s := PipeExits(s);
    s := Waited(s, false);
    s := Residues(s, First);
    s := SettlesParked(s, First);
    s := Ends(s);
  }

  /** "At most once" fails after a switch when a stop times out. */
  lemma ReleasedTwice()
    ensures exists s :: && Reachable(Plain, true, s) && s.torn == {} && !s.rolledBack
                        && 0 in s.workers && s.workers[0].timedOut && s.workers[0].ledger.Releases(Write) == 2
  {
    var s := TwiceRun();
  }

  /** "Exactly once" fails after a switch, without a stop timeout. */
  lemma NeverReleased()
    ensures exists s :: && Reachable(Plain, true, s) && s.torn == {} && !s.rolledBack && 0 in s.workers
                        && s.workers[0].main == Done && !s.workers[0].timedOut
                        && Write in s.workers[0].ledger.place && !s.workers[0].ledger.IsSettled(Write)
  {
    var s := LostRun();
  }
}
