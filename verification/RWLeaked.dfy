/** A run with a leaked pipeline: a worker that was removed after a stop timeout. No scan of
    SetRWEnabled(false) looks at it, and the switch downgrades all the reads its pipeline has left. */
module RWLeaked {
  import opened RWMachine
  import opened RWLocal
  import opened RWCounterexamples
  import opened RWSteps

  const ReadA := Job(1, true)
  const ReadB := Job(2, true)
  const ReadC := Job(3, true)

  /** Nothing requested or parked, no read goroutine, nothing downgraded. */
  predicate Plainly(w: Worker)
  {
    w.writeRequested == 0 && w.ledger.pending == Empty && w.crowd == Crowd({}, {}, map[]) && w.downgrades == 0
  }

  lemma Loaded() returns (s: State)
    ensures Two(s) && s.snap == {0, 1} && s.control == Idle && s.g == Calm && s.torn == {} && s.flips == 0
    ensures !s.rolledBack && s.workers[1] == NewWorker(true)
    ensures var w := s.workers[0];
            && w == NewWorker(true).(ledger := w.ledger) && Plainly(w)
            && w.ledger.queue == {ReadA, ReadB, ReadC}
  {
    hide Step, Reachable, WorkerStep;
    s := Start();
    s := Submits(s, 0, ReadA);
    s := Submits(s, 0, ReadB);
    s := Submits(s, 0, ReadC);
    assert s.workers[0].ledger.queue == {ReadA, ReadB, ReadC};
  }

  /** The pipeline has read A before the token; the two others are in the channel. */
  lemma Filled() returns (s: State)
    ensures Two(s) && s.snap == {0, 1} && s.control == Idle && s.g == Calm && s.torn == {} && s.flips == 0
    ensures !s.rolledBack && s.workers[1] == NewWorker(true)
    ensures var w := s.workers[0];
            && w.main == Loop && !w.closed && w.pipe == GateToken(ReadA) && Plainly(w)
            && w.flow == Flow(3, 0, [ReadB, ReadC], false) && w.ledger.queue == {}
  {
    hide Step, Reachable, WorkerStep;
    s := Loaded();
    s := Taken(s, 0, ReadA);
    s := SentOn(s, 0, ReadA);
    s := GatePassed(s, 0, ReadA);
    s := Taken(s, 0, ReadB);
    s := SentOn(s, 0, ReadB);
    s := Taken(s, 0, ReadC);
    s := SentOn(s, 0, ReadC);
    assert s.workers[0].flow.channel == [ReadB, ReadC] && s.workers[0].ledger.queue == {};
  }

  /** Worker 0 is stopped, does not wait for its pipeline, and is removed; then the mode is turned
      off. */
  lemma Off() returns (s: State)
    ensures Two(s) && s.snap == {1} && s.g == Shared(false, true, Nobody, {}, {}) && s.torn == {} && s.flips == 1
    ensures !s.rolledBack
    ensures var w := s.workers[0];
            && w.main == Done && w.closed && w.timedOut && w.pipe == GateToken(ReadA) && Plainly(w)
            && w.flow == Flow(3, 0, [ReadB, ReadC], true)
  {
    hide Step, Reachable, WorkerStep, ControlStep;
    s := Filled();
    s := Stops(s);
    s := Leaves0(s);
    s := Waited(s, true);
    s := EndsIdle(s);
    s := Removes0(s);
    s := ScansOne(s);
    s := FlipsOff(s);
  }

  /** The leaked pipeline downgrades read A, waits for the others in vain and parks it. */
  lemma DropsFirst() returns (s: State)
    ensures Two(s) && s.snap == {1} && s.g == Shared(false, true, Nobody, {}, {}) && s.torn == {} && s.flips == 1
    ensures !s.rolledBack
    ensures var w := s.workers[0];
            && w.closed && w.timedOut && w.pipe == Recv && w.flow == Flow(3, 1, [ReadB, ReadC], true)
            && w.writeRequested == 0 && w.downgrades == 1 && w.ledger.pending == Full(ReadA)
  {
    hide Step, Reachable, WorkerStep;
    s := Off();
    s := GateDowngrades(s, 0, ReadA);
    s := PipeWaitsInVain(s, 0, ReadA);
    s := PipeTries(s, 0, ReadA, Park);
    s := PipeTries(s, 0, ReadA, ParkSet);
  }

  /** So it does with read B, and downgrades read C. */
  lemma DropsAll() returns (s: State)
    ensures Two(s) && s.snap == {1} && s.torn == {} && s.flips == 1 && !s.rolledBack
    ensures s.workers[0].timedOut && s.workers[0].downgrades == 3
  {
    hide Step, Reachable, WorkerStep;
    s := DropsFirst();
    s := Downgrades(s, 0, ReadB);
    s := PipeWaitsInVain(s, 0, ReadB);
    s := PipeTries(s, 0, ReadB, Park);
    s := PipeTries(s, 0, ReadB, ParkOld(ReadA));
    s := PipeTries(s, 0, ReadB, ParkSet);
    assert [ReadB, ReadC][1..] == [ReadC];
    s := Downgrades(s, 0, ReadC);
  }

  /** One flip, no rollback and no torn test, and a removed worker downgrades three reads. */
  lemma LeakedStragglers()
    ensures exists s :: && Reachable(Plain, true, s) && s.torn == {} && s.flips == 1 && !s.rolledBack
                        && 0 in s.workers && 0 !in s.snap && s.workers[0].timedOut && s.workers[0].downgrades == 3
  {
    var s := DropsAll();
  }
}
