/** A run in which a write overlaps a read with RW mode on: a switch that failed and rolled back
    lets a main loop through that had loaded `enabled` in between. */
module RWRollback {
  import opened RWMachine
  import opened RWLocal
  import opened RWTheorems
  import opened RWCounterexamples
  import opened RWSteps

  const Write := Job(3, false)

  /** Both workers have a read queued, worker 0 a write as well. */
  lemma Loaded() returns (s: State)
    ensures Two(s) && s.snap == {0, 1} && s.control == Idle && s.g == Calm
    ensures s.workers[0] == NewWorker(true).(ledger := Ledger({}, Empty, map[], map[]).Push(First).Push(Write))
    ensures s.workers[1] == NewWorker(true).(ledger := Ledger({}, Empty, map[], map[]).Push(Second))
  {
    assert After(Plain, true, Initial(true), []) == Some(Initial(true));
    s := Do(Initial(true), Grow(0));
    s := Do(s, Grow(1));
    assert s.snap == {0, 1};
    s := Do(s, Submit(0, First));
    s := Do(s, Submit(0, Write));
    s := Do(s, Submit(1, Second));
  }

  /** The switch turns the mode off while a read goroutine of worker 0 has still to count itself
      out; in between the main loop takes its write and loads `enabled`. */
  lemma Between() returns (s: State)
    ensures Two(s) && s.control == Count({0, 1}) && s.g == Shared(false, true, Nobody, {}, {})
    ensures s.workers[0].main == LoadDisabling(Write) && s.workers[0].crowd.inflight != {}
    ensures s.workers[1] == NewWorker(true).(ledger := Ledger({}, Empty, map[], map[]).Push(Second))
  {
    hide Step, Reachable, ShutdownStep, ResidueStep, PipeStep, WriteStep, ReadStep;
    s := Loaded();
    s := Trails(s, 0, First);
    s := Scans(s);
    s := FlipsOff(s);
    var w := s.workers[0];
    assert Write in w.ledger.queue;
    s := Goes(s, Steps(0, Empty), Goto(s.g, w, Poll));
    w := w.(ledger := w.ledger.Pop(Write));
    s := Goes(s, Steps(0, Full(Write)), Goto(s.g, w, LoadEnabled(Write)));
    s := Goes(s, Steps(0, Empty), Goto(s.g, w, LoadDisabling(Write)));
  }

  /** The switch rolls back; the main loop loads `disabling` and executes its write without the
      lock. */
  lemma SerialWithMode() returns (s: State)
    ensures Two(s) && s.g == Calm && s.rolledBack && s.workers[0].main == Serial(Write, true)
    ensures s.workers[1] == NewWorker(true).(ledger := Ledger({}, Empty, map[], map[]).Push(Second))
  {
    hide Step, Reachable, ShutdownStep, ResidueStep, PipeStep, WriteStep, ReadStep;
    s := Between();
    s := RollsBack(s);
    var w := s.workers[0];
    s := Goes(s, Steps(0, Empty), Goto(s.g, w, Serial(Write, false)));
    s := Goes(s, Steps(0, Empty), Goto(s.g, w, Serial(Write, true)));
  }

  lemma OverlapRun() returns (s: State)
    ensures Reachable(Plain, true, s) && s.rolledBack && s.g.enabled && !s.g.disabling
    ensures MainRuns(s, 0) && TaskRuns(s, 1, Second)
  {
    hide Step, Reachable, WorkerStep;
    s := SerialWithMode();
    s := Taken(s, 1, Second);
    s := SentOn(s, 1, Second);
    s := ReadLocked(s, 1, Second);
    s := Registers(s, 1, Second);
    s := Spawns(s, 1, Second);
  }

  /** After a rollback a write can execute beside a read with RW mode on. */
  lemma WriteOverlapsRead()
    ensures exists s :: && Reachable(Plain, true, s) && s.rolledBack && s.g.enabled && !s.g.disabling
                        && MainRuns(s, 0) && TaskRuns(s, 1, Second)
  {
    var s := OverlapRun();
  }

  // ---- A drain

  /** While the mode is off the drain of worker 0 starts without the lock. */
  lemma DrainStartsUnlocked() returns (s: State)
    ensures Two(s) && s.control == Count({0, 1}) && s.g == Shared(false, true, Nobody, {}, {})
    ensures s.workers[0].main == Drain(Residue(DrainMode(false, false), TakePending)) && !s.workers[0].timedOut
    ensures Write in s.workers[0].ledger.queue && s.workers[0].ledger.pending == Empty
    ensures s.workers[0].crowd.inflight != {}
    ensures s.workers[1] == NewWorker(true).(ledger := Ledger({}, Empty, map[], map[]).Push(Second))
  {
    hide Step, Reachable, WorkerStep;
    s := Loaded();
    s := Trails(s, 0, First);
    s := Scans(s);
    s := FlipsOff(s);
    assert Write in s.workers[0].ledger.queue;
    s := Stops(s);
    s := Leaves0(s);
    s := PipeExits(s);
    s := Waited(s, false);
    s := Unlocked(s);
  }

  /** It executes its write, the switch rolls back, and worker 1 spawns a read. */
  lemma DrainRun() returns (s: State)
    ensures Reachable(Plain, true, s) && s.rolledBack && s.g.enabled && !s.g.disabling
    ensures 0 in s.workers && DrainRuns(s.workers[0].main) && TaskRuns(s, 1, Second)
  {
    hide Step, Reachable, WorkerStep;
    s := DrainStartsUnlocked();
    s := Serves(s, Write);
    s := RollsBack(s);
    s := Taken(s, 1, Second);
    s := SentOn(s, 1, Second);
    s := ReadLocked(s, 1, Second);
    s := Registers(s, 1, Second);
    s := Spawns(s, 1, Second);
  }

  /** After a rollback a drain that did not take the lock can execute beside a read as well. */
  lemma DrainOverlapsRead()
    ensures exists s :: && Reachable(Plain, true, s) && s.rolledBack && s.g.enabled && !s.g.disabling
                        && 0 in s.workers && DrainRuns(s.workers[0].main) && TaskRuns(s, 1, Second)
  {
    var s := DrainRun();
  }
}
