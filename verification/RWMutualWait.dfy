/** Two runs after a switch that rolled back, with no torn test and no stop timeout. A read that the
    switch had doomed is in execWrite on the pipeline of worker 0 while RW mode is on again, so that
    the main loop sends further reads behind it. */
module RWMutualWait {
  import opened RWMachine
  import opened RWLocal
  import opened RWTheorems
  import opened RWCounterexamples
  import opened RWSteps

  const ReadF := Job(1, true)
  const ReadA := Job(2, true)
  const ReadB := Job(3, true)
  const WriteW := Job(4, false)
  const Block1 := Job(5, false)
  const Block2 := Job(6, false)

  /** Worker 1 has two writes queued and has done nothing yet. */
  predicate Waiting1(w: Worker)
  {
    && w.main == Loop && !w.closed && w.writeRequested == 0 && w.flow.launched == w.flow.dispatched
    && Block1 in w.ledger.queue && Block2 in w.ledger.queue
  }

  lemma Loaded() returns (s: State)
    ensures Two(s) && s.snap == {0, 1} && s.control == Idle && s.g == Calm && s.torn == {} && s.flips == 0
    ensures Waiting1(s.workers[1])
    ensures var w := s.workers[0];
            && w == NewWorker(true).(ledger := w.ledger) && w.ledger.queue == {ReadF, ReadA, ReadB, WriteW}
            && w.ledger.pending == Empty && w.ledger.releases == map[]
  {
    hide Step, Reachable, WorkerStep;
    s := Start();
    s := Submitted4(s);
    s := Submits(s, 1, Block1);
    s := Submits(s, 1, Block2);
  }

  lemma Submitted4(s0: State) returns (s: State)
    requires Two(s0) && s0.used == {} && s0.workers[0] == NewWorker(true)
    ensures Two(s) && s == s0.(workers := s0.workers[0 := s.workers[0]], used := {ReadF, ReadA, ReadB, WriteW})
    ensures var w := s.workers[0];
            && w == NewWorker(true).(ledger := w.ledger) && w.ledger.queue == {ReadF, ReadA, ReadB, WriteW}
            && w.ledger.pending == Empty && w.ledger.releases == map[]
  {
    hide Step, Reachable, WorkerStep;
    s := Submits(s0, 0, ReadF);
    s := Submits(s, 0, ReadA);
    s := Submits(s, 0, ReadB);
    s := Submits(s, 0, WriteW);
    assert s.workers[0].ledger.queue == {ReadF, ReadA, ReadB, WriteW} && s.used == {ReadF, ReadA, ReadB, WriteW};
  }

  /** Read F has released the read lock and has still to count itself out; the main loop has passed
      the test with read A. */
  lemma Doomed() returns (s: State)
    ensures Two(s) && s.snap == {0, 1} && s.control == Idle && s.g == Calm && s.torn == {} && s.flips == 0
    ensures Waiting1(s.workers[1])
    ensures var w := s.workers[0];
            && w.main == Dispatch(ReadA) && !w.closed && !w.timedOut && w.writeRequested == 0 && w.pipe == Recv
            && w.downgrades == 0
            && w.flow == Flow(1, 1, [], false) && w.crowd.inflight == {ReadF}
            && w.ledger.queue == {ReadB, WriteW} && w.ledger.pending == Empty && w.ledger.Releases(ReadA) == 0
  {
    hide Step, Reachable, WorkerStep;
    s := Loaded();
    assert s.workers[0].ledger.Releases(ReadA) == 0;
    s := Trails(s, 0, ReadF);
    s := Taken(s, 0, ReadA);
  }

  /** Worker 0 after the failed switch: read A is in execWrite on its pipeline. */
  predicate Bent(w: Worker)
  {
    && w.main == Loop && !w.closed && !w.timedOut && w.writeRequested == 0 && w.pipe == PipeWrite(ReadA, LoadTarget)
    && w.flow == Flow(2, 2, [], false) && w.crowd.inflight == {ReadF} && w.downgrades == 1
    && w.ledger.queue == {ReadB, WriteW} && w.ledger.pending == Empty && w.ledger.Releases(ReadA) == 0
  }

  /** The switch turns the mode off, read A is downgraded, and the switch rolls back. */
  lemma RolledBack() returns (s: State)
    ensures Two(s) && s.snap == {0, 1} && s.control == Idle && s.g == Calm && s.torn == {}
    ensures s.rolledBack && s.flips == 1 && s.result == Some(false)
    ensures Waiting1(s.workers[1]) && Bent(s.workers[0])
  {
    hide Step, Reachable, WorkerStep, ControlStep;
    s := Doomed();
    s := Scans(s);
    s := FlipsOff(s);
    s := SentOn(s, 0, ReadA);
    s := Downgrades(s, 0, ReadA);
    s := RollsBack(s);
  }

  // ---- Writer and pipeline wait for each other

  /** The main loop waits in execWrite for reads that its pipeline has to launch, and the pipeline
      waits in execWrite for the same reads. */
  predicate MutualWait(w: Worker)
  {
    && !w.closed && AwaitsReads(w)
    && w.pipe.PipeWrite? && (w.pipe.pc.AwaitLaunch? || w.pipe.pc.AwaitClosed?) && w.flow.launched < w.pipe.pc.target
  }

  lemma MutualRun() returns (s: State)
    ensures Two(s) && s.control == Idle && s.g.enabled && !s.g.disabling && s.torn == {} && s.flips == 1 && s.rolledBack
    ensures s.result == Some(false)
    ensures MutualWait(s.workers[0]) && !s.workers[0].timedOut
  {
    hide Step, Reachable, WorkerStep;
    s := RolledBack();
    s := Taken(s, 0, ReadB);
    s := SentOn(s, 0, ReadB);
    s := PipeTries(s, 0, ReadA, LoadTarget);
    s := TakenWrite(s, 0, WriteW);
    s := MainTries(s, 0, WriteW, LoadTarget, false);
  }

  /** RW mode is on, no test was torn and no stop timed out, and a writer and its own pipeline wait
      for each other: only a rollback can lead there. */
  lemma WriterAndPipelineWait()
    ensures exists s :: && Reachable(Plain, true, s) && s.g.enabled && !s.g.disabling
                        && s.torn == {} && s.flips == 1 && s.rolledBack
                        && 0 in s.workers && !s.workers[0].timedOut && MutualWait(s.workers[0])
  {
    var s := MutualRun();
  }

  lemma StillMain(cfg: Config, g: Shared, w: Worker, id: WorkerId, c: Choice)
    requires MutualWait(w)
    ensures var r := MainStep(cfg, g, w, id, c); r.Moved? ==> MutualWait(r.w)
  {
  }

  lemma StillPipe(cfg: Config, g: Shared, w: Worker, id: WorkerId, c: Choice)
    requires MutualWait(w)
    ensures var r := PipeStep(cfg, g, w, id, c); r.Moved? ==> MutualWait(r.w)
  {
  }

  lemma StillStep(cfg: Config, rw: bool, s: State, a: Action, id: WorkerId)
    requires id in s.workers && MutualWait(s.workers[id]) && a != BeginStop(id)
    ensures var n := Step(cfg, rw, s, a); n.Some? ==> id in n.value.workers && MutualWait(n.value.workers[id])
  {
    hide MainStep, PipeStep;
    if !a.ActControl? && !a.Grow? && !a.Remove? && a.worker == id {
      match a
      case ActMain(_, c) => StillMain(cfg, s.g, s.workers[id], id, c);
      case ActPipe(_, c) => StillPipe(cfg, s.g, s.workers[id], id, c);
      case ActRead(_, j, cancelled) =>
      case Submit(_, j) =>
      case BeginStop(_) =>
    }
  }

  /** Nothing but stopping the worker ends that wait, in any continuation. */
  lemma {:induction false} WaitForEachOtherForever(
    cfg: Config, rw: bool, s: State, id: WorkerId, actions: seq<Action>, s': State)
    requires id in s.workers && MutualWait(s.workers[id]) && BeginStop(id) !in actions
    requires After(cfg, rw, s, actions) == Some(s')
    ensures id in s'.workers && MutualWait(s'.workers[id])
    decreases |actions|
  {
    hide Step, MutualWait;
    if actions != [] {
      assert actions[0] in actions && forall a :: a in actions[1..] ==> a in actions;
      StillStep(cfg, rw, s, actions[0], id);
      WaitForEachOtherForever(cfg, rw, Step(cfg, rw, s, actions[0]).value, id, actions[1..], s');
    }
  }

  // ---- A job released twice

  /** The pipeline is about to request the lock for read A when the second switch turns the mode off
      again; by then the main loop has passed the test with read B. */
  lemma SecondFlip() returns (s: State)
    ensures Two(s) && s.g == Shared(false, true, Nobody, {}, {}) && s.torn == {} && s.flips == 2 && s.rolledBack
    ensures Waiting1(s.workers[1])
    ensures var w := s.workers[0];
            && w.main == Dispatch(ReadB) && !w.closed && !w.timedOut && w.writeRequested == 0
            && w.pipe == PipeWrite(ReadA, LoadTarget)
            && w.flow == Flow(2, 2, [], false) && w.downgrades == 1
            && w.ledger.queue == {WriteW} && w.ledger.pending == Empty && w.ledger.Releases(ReadA) == 0
  {
    hide Step, Reachable, WorkerStep, ControlStep;
    s := RolledBack();
    s := Taken(s, 0, ReadB);
    assert s.workers[0].ledger.queue == {WriteW};
    s := Scans(s);
    s := FlipsOff(s);
  }

  /** Read A asks for the lock, read B is sent, and the write waits for it. */
  lemma Waits() returns (s: State)
    ensures Two(s) && s.g == Shared(false, true, Nobody, {}, {}) && s.torn == {} && s.flips == 2 && s.rolledBack
    ensures Waiting1(s.workers[1])
    ensures var w := s.workers[0];
            && w.main == MainWrite(WriteW, AwaitClosed(3)) && !w.closed && !w.timedOut && w.writeRequested == 1
            && w.pipe == PipeWrite(ReadA, TryLock) && w.flow == Flow(3, 2, [ReadB], false) && w.downgrades == 1
            && w.ledger.pending == Empty && w.ledger.Releases(ReadA) == 0
  {
    hide Step, Reachable, WorkerStep, ControlStep;
    s := SecondFlip();
    s := PipeRequests(s, 0, ReadA);
    s := SentOn(s, 0, ReadB);
    s := TakenLate(s, 0, WriteW);
    s := MainTries(s, 0, WriteW, LoadTarget, false);
    s := MainTries(s, 0, WriteW, AwaitLaunch(3), false);
  }

  /** Worker 1 takes the lock and worker 0 is told to stop. */
  lemma Stopping() returns (s: State)
    ensures Two(s) && s.g == Shared(false, true, MainOf(1), {}, {}) && s.torn == {} && s.flips == 2 && s.rolledBack
    ensures var v := s.workers[1];
            && v.main == MainWrite(Block1, Hold(false)) && !v.closed && v.writeRequested == 1
            && v.flow.launched == v.flow.dispatched && Block2 in v.ledger.queue
    ensures var w := s.workers[0];
            && w.main == MainWrite(WriteW, AwaitClosed(3)) && w.closed && !w.timedOut && w.writeRequested == 1
            && w.pipe == PipeWrite(ReadA, TryLock) && w.flow == Flow(3, 2, [ReadB], false) && w.downgrades == 1
            && w.ledger.pending == Empty && w.ledger.Releases(ReadA) == 0
  {
    hide Step, Reachable, WorkerStep, ControlStep;
    s := Waits();
    s := TakenLate(s, 1, Block1);
    s := MainLocks(s, 1, Block1);
    s := Stops(s);
  }

  /** The pipeline gives up and parks read A. */
  lemma ParksA() returns (s: State)
    ensures Two(s) && s.g == Shared(false, true, MainOf(1), {}, {}) && s.torn == {} && s.flips == 2 && s.rolledBack
    ensures var v := s.workers[1];
            && v.main == MainWrite(Block1, Hold(false)) && !v.closed && v.writeRequested == 1
            && v.flow.launched == v.flow.dispatched && Block2 in v.ledger.queue
    ensures var w := s.workers[0];
            && w.main == MainWrite(WriteW, AwaitClosed(3)) && w.closed && !w.timedOut && w.writeRequested == 0
            && w.pipe == Recv && w.flow == Flow(3, 2, [ReadB], false) && w.downgrades == 1
            && w.ledger.pending == Full(ReadA) && w.ledger.Releases(ReadA) == 0
  {
    hide Step, Reachable, WorkerStep;
    s := Stopping();
    s := PipeGivesUp(s, 0, ReadA);
    s := PipeTries(s, 0, ReadA, Park);
    s := PipeTries(s, 0, ReadA, ParkSet);
  }

  /** Worker 1 lets go of the lock. The main loop gives up and finds read A parked. */
  lemma FirstFinds() returns (s: State)
    ensures Two(s) && s.g == Shared(false, true, Nobody, {}, {}) && s.torn == {} && s.flips == 2 && s.rolledBack
    ensures var v := s.workers[1];
            && v.main == Loop && !v.closed && v.writeRequested == 0 && v.flow.launched == v.flow.dispatched
            && Block2 in v.ledger.queue
    ensures var w := s.workers[0];
            && w.main == MainWrite(WriteW, ParkOld(ReadA)) && w.closed && !w.timedOut && w.writeRequested == 0
            && w.pipe == Recv && w.flow == Flow(3, 2, [ReadB], false) && w.downgrades == 1
            && w.ledger.pending == Full(ReadA) && w.ledger.Releases(ReadA) == 0
  {
    hide Step, Reachable, WorkerStep;
    s := ParksA();
    s := MainUnlocks(s, 1, Block1);
    s := MainTries(s, 0, WriteW, AwaitClosed(3), false);
    s := MainTries(s, 0, WriteW, Park, false);
  }

  /** Read B is downgraded as well and asks for the lock. */
  lemma SecondDowngrade() returns (s: State)
    ensures Two(s) && s.g == Shared(false, true, Nobody, {}, {}) && s.torn == {} && s.flips == 2 && s.rolledBack
    ensures var v := s.workers[1];
            && v.main == Loop && !v.closed && v.writeRequested == 0 && v.flow.launched == v.flow.dispatched
            && Block2 in v.ledger.queue
    ensures var w := s.workers[0];
            && w.main == MainWrite(WriteW, ParkOld(ReadA)) && w.closed && !w.timedOut
            && w.pipe == PipeWrite(ReadB, TryLock)
            && w.writeRequested == 1 && w.ledger.pending == Full(ReadA) && w.ledger.Releases(ReadA) == 0
            && w.downgrades == 2
  {
    hide Step, Reachable, WorkerStep;
    s := FirstFinds();
    s := Downgrades(s, 0, ReadB);
    s := PipeRequests(s, 0, ReadB);
  }

  /** It loses the lock to worker 1, and its execWrite finds read A too. */
  lemma SecondFinds() returns (s: State)
    ensures Two(s) && s.torn == {} && s.flips == 2 && s.rolledBack
    ensures var w := s.workers[0];
            && w.main == MainWrite(WriteW, ParkOld(ReadA)) && !w.timedOut && w.pipe == PipeWrite(ReadB, ParkOld(ReadA))
            && w.ledger.Releases(ReadA) == 0 && w.downgrades == 2
  {
    hide Step, Reachable, WorkerStep;
    s := SecondDowngrade();
    s := TakenLate(s, 1, Block2);
    s := MainLocks(s, 1, Block2);
    s := PipeGivesUp(s, 0, ReadB);
    s := PipeTries(s, 0, ReadB, Park);
  }

  lemma TwiceRun() returns (s: State)
    ensures Two(s) && s.torn == {} && s.rolledBack && !s.workers[0].timedOut && s.workers[0].ledger.Releases(ReadA) == 2
  {
    hide Step, Reachable, WorkerStep;
    s := SecondFinds();
    s := PipeTries(s, 0, ReadB, ParkOld(ReadA));
    s := MainTries(s, 0, WriteW, ParkOld(ReadA), false);
  }

  /** A rollback alone, without a torn test or a stop timeout, can make a worker release a job
      twice. */
  lemma RollbackReleasesTwice()
    ensures exists s :: && Reachable(Plain, true, s) && s.torn == {} && s.rolledBack
                        && 0 in s.workers && !s.workers[0].timedOut
                        && s.workers[0].ledger.Releases(ReadA) == 2
  {
    var s := TwiceRun();
  }

  /** The bound of one read per flip is reached: two flips, two stragglers, no torn test. */
  lemma OnePerFlip()
    ensures exists s :: && Reachable(Plain, true, s) && s.torn == {} && s.flips == 2 && s.rolledBack
                        && 0 in s.workers && s.workers[0].downgrades == 2
  {
    var s := SecondDowngrade();
  }
}
