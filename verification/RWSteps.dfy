/** Building blocks of concrete runs with two workers. */
module RWSteps {
  import opened RWMachine
  import opened RWLocal
  import opened RWCounterexamples

  ghost predicate Two(s: State)
  {
    Reachable(Plain, true, s) && 0 in s.workers && 1 in s.workers
  }

  /** Only the shared state and the workers moved. */
  ghost predicate Same(s: State, s': State)
  {
    && s'.control == s.control && s'.snap == s.snap && s'.result == s.result
    && s'.rolledBack == s.rolledBack && s'.flips == s.flips
  }

  /** One more step of a goroutine of one of the workers. */
  lemma Goes(s: State, a: Action, next: LocalResult) returns (s': State)
    requires Two(s) && (a.ActMain? || a.ActPipe? || a.ActRead?) && a.worker <= 1
    requires next.Moved? && WorkerStep(Plain, s.g, s.workers[a.worker], a.worker, a) == next
    ensures Two(s') && Same(s, s') && s'.g == next.g && s'.torn == s.torn + TornBy(s, a)
    ensures s'.workers[a.worker] == next.w && s'.workers[1 - a.worker] == s.workers[1 - a.worker]
  {
    hide WorkerStep;
    assert s.used + {} == s.used && Submitted(a) * s.used == {};
    s' := Do(s, a);
  }

  /** One more step of the controller. */
  lemma Controls(s: State, target: WorkerId, alarm: bool) returns (s': State)
    requires Two(s) && ControlStep(s, target, alarm).Some?
    requires ControlStep(s, target, alarm).value.workers == s.workers
    ensures Two(s') && s' == ControlStep(s, target, alarm).value
  {
    hide ControlStep;
    s' := Do(s, ActControl(target, alarm));
  }

  /** BeginStop on worker 0. */
  lemma Stops(s: State) returns (s': State)
    requires Two(s)
    ensures Two(s') && Same(s, s') && s'.g == s.g && s'.torn == s.torn && s'.workers[1] == s.workers[1]
    ensures s'.workers[0] == s.workers[0].(closed := true)
  {
    assert s.used + {} == s.used && Submitted(BeginStop(0)) * s.used == {} && s.torn + {} == s.torn;
    s' := Do(s, BeginStop(0));
  }

  /** Two new workers. */
  lemma Start() returns (s: State)
    ensures Two(s) && s == Initial(true).(workers := map[0 := NewWorker(true), 1 := NewWorker(true)], snap := {0, 1})
  {
    assert After(Plain, true, Initial(true), []) == Some(Initial(true));
    s := Do(Initial(true), Grow(0));
    s := Do(s, Grow(1));
    assert s.snap == {0, 1} && s.workers == map[0 := NewWorker(true), 1 := NewWorker(true)];
  }

  lemma Submits(s0: State, id: WorkerId, j: Job) returns (s: State)
    requires Two(s0) && id <= 1 && !s0.workers[id].closed && j !in s0.used
    ensures Two(s)
    ensures s == s0.(workers := s0.workers[id := s0.workers[id].(ledger := s0.workers[id].ledger.Push(j))],
                     used := s0.used + {j})
  {
    assert Submitted(Submit(id, j)) * s0.used == {} && s0.torn + {} == s0.torn;
    s := Do(s0, Submit(id, j));
  }

  function Steps(id: WorkerId, pick: Slot): Action { ActMain(id, Choice(pick, false)) }

  function Piped(id: WorkerId): Action { ActPipe(id, Choice(Empty, false)) }

  const Calm := Shared(true, false, Nobody, {}, {})

  /** The end of a block: nothing but the shared state and worker `id` moved. */
  ghost predicate Only(s0: State, s: State, id: WorkerId)
  {
    Two(s) && Same(s0, s) && s.torn == s0.torn && id <= 1 && Two(s0) && s.workers[1 - id] == s0.workers[1 - id]
  }

  /** One step of execWrite on the main loop. */
  lemma MainTries(s0: State, id: WorkerId, j: Job, pc: WritePc, cancelled: bool) returns (s: State)
    requires Two(s0) && id <= 1 && s0.workers[id].main == MainWrite(j, pc)
    ensures var r := WriteStep(s0.g, s0.workers[id], MainOf(id), j, pc, cancelled);
            && Only(s0, s, id) && s.g == s0.g.(writer := r.writer)
            && s.workers[id] == s0.workers[id].(writeRequested := r.requested, ledger := r.ledger,
                                                main := if r.next.Returned? then Loop else MainWrite(j, r.next))
  {
    hide Step, Reachable, WriteStep, ShutdownStep, ResidueStep, PipeStep, ReadStep;
    var a := ActMain(id, Choice(Empty, cancelled));
    assert s0.torn + {} == s0.torn;
    s := Goes(s0, a, MainStep(Plain, s0.g, s0.workers[id], id, a.choice));
  }

  /** One step of execWrite on the pipeline. */
  lemma PipeTries(s0: State, id: WorkerId, j: Job, pc: WritePc) returns (s: State)
    requires Two(s0) && id <= 1 && s0.workers[id].pipe == PipeWrite(j, pc)
    ensures var r := WriteStep(s0.g, s0.workers[id], PipeOf(id), j, pc, false);
            && Only(s0, s, id) && s.g == s0.g.(writer := r.writer)
            && s.workers[id] == s0.workers[id].(writeRequested := r.requested, ledger := r.ledger,
                                                pipe := if r.next.Returned? then Recv else PipeWrite(j, r.next))
  {
    hide Step, Reachable, WriteStep, MainStep, RegisterStep, ReadStep;
    assert s0.torn + {} == s0.torn;
    s := Goes(s0, Piped(id), PipeStep(Plain, s0.g, s0.workers[id], id, Choice(Empty, false)));
  }

  // ---- The main loop

  /** It takes a read and passes the test of execWithRW. */
  lemma Taken(s0: State, id: WorkerId, j: Job) returns (s: State)
    requires Two(s0) && id <= 1 && s0.g.enabled && !s0.g.disabling && j.read
    requires var w := s0.workers[id]; w.main == Loop && !w.closed && j in w.ledger.queue
    ensures Only(s0, s, id) && s.g == s0.g
    ensures var w := s0.workers[id]; s.workers[id] == w.(main := Dispatch(j), ledger := w.ledger.Pop(j))
  {
    hide Step, Reachable, ShutdownStep, ResidueStep, PipeStep, WriteStep, ReadStep;
    var w := s0.workers[id];
    s := Goes(s0, Steps(id, Empty), Goto(s0.g, w, Poll));
    w := w.(ledger := w.ledger.Pop(j));
    s := Goes(s, Steps(id, Full(j)), Goto(s.g, w, LoadEnabled(j)));
    s := Goes(s, Steps(id, Empty), Goto(s.g, w, CheckEnabled(j)));
    s := Goes(s, Steps(id, Empty), Goto(s.g, w, CheckDisabling(j)));
    s := Goes(s, Steps(id, Empty), Goto(s.g, w, Dispatch(j)));
  }

  /** It sends the read to its pipeline. */
  lemma SentOn(s0: State, id: WorkerId, j: Job) returns (s: State)
    requires Two(s0) && id <= 1 && s0.workers[id].main == Dispatch(j) 
    requires |s0.workers[id].flow.channel| < Plain.channelCap
    ensures Only(s0, s, id) && s.g == s0.g
    ensures var w := s0.workers[id];
            var flow := w.flow.(dispatched := w.flow.dispatched + 1, channel := w.flow.channel + [j]);
            s.workers[id] == w.(main := Loop, flow := flow, ledger := w.ledger.Move(j, InChannel))
    ensures s0.workers[id].flow.channel == [] ==> s.workers[id].flow.channel == [j]
  {
    hide Step, Reachable, ShutdownStep, ResidueStep, PipeStep, WriteStep, ReadStep;
    var w := s0.workers[id];
    w := w.(flow := w.flow.(dispatched := w.flow.dispatched + 1));
    s := Goes(s0, Steps(id, Empty), Goto(s0.g, w, Send(j)));
    assert w.flow.channel == [] ==> w.flow.channel + [j] == [j];
    w := w.(flow := w.flow.(channel := w.flow.channel + [j]), ledger := w.ledger.Move(j, InChannel));
    s := Goes(s, Steps(id, Empty), Goto(s.g, w, Loop));
  }

  /** It takes a write while the mode is on. */
  lemma TakenWrite(s0: State, id: WorkerId, j: Job) returns (s: State)
    requires Two(s0) && id <= 1 && s0.g.enabled && !j.read
    requires var w := s0.workers[id]; w.main == Loop && !w.closed && j in w.ledger.queue
    ensures Only(s0, s, id) && s.g == s0.g
    ensures var w := s0.workers[id]; s.workers[id] == w.(main := MainWrite(j, LoadTarget), ledger := w.ledger.Pop(j))
  {
    hide Step, Reachable, ShutdownStep, ResidueStep, PipeStep, ReadStep;
    var w := s0.workers[id];
    s := Goes(s0, Steps(id, Empty), Goto(s0.g, w, Poll));
    w := w.(ledger := w.ledger.Pop(j));
    s := Goes(s, Steps(id, Full(j)), Goto(s.g, w, LoadEnabled(j)));
    s := Goes(s, Steps(id, Empty), Goto(s.g, w, CheckEnabled(j)));
    s := Goes(s, Steps(id, Empty), Goto(s.g, w, MainWrite(j, LoadTarget)));
  }

  /** It takes a write while the mode is being switched off. */
  lemma TakenLate(s0: State, id: WorkerId, j: Job) returns (s: State)
    requires Two(s0) && id <= 1 && !s0.g.enabled && s0.g.disabling && !j.read
    requires var w := s0.workers[id]; w.main == Loop && !w.closed && j in w.ledger.queue
    ensures Only(s0, s, id) && s.g == s0.g
    ensures var w := s0.workers[id]; s.workers[id] == w.(main := MainWrite(j, LoadTarget), ledger := w.ledger.Pop(j))
  {
    hide Step, Reachable, ShutdownStep, ResidueStep, PipeStep, ReadStep;
    var w := s0.workers[id];
    s := Goes(s0, Steps(id, Empty), Goto(s0.g, w, Poll));
    w := w.(ledger := w.ledger.Pop(j));
    s := Goes(s, Steps(id, Full(j)), Goto(s.g, w, LoadEnabled(j)));
    s := Goes(s, Steps(id, Empty), Goto(s.g, w, LoadDisabling(j)));
    s := Goes(s, Steps(id, Empty), Goto(s.g, w, CheckEnabled(j)));
    s := Goes(s, Steps(id, Empty), Goto(s.g, w, MainWrite(j, LoadTarget)));
  }

  /** It waits for no read and asks for the lock. */
  lemma MainRequests(s0: State, id: WorkerId, j: Job) returns (s: State)
    requires Two(s0) && id <= 1
    requires var w := s0.workers[id]; w.main == MainWrite(j, LoadTarget) && w.flow.launched == w.flow.dispatched
    ensures Only(s0, s, id) && s.g == s0.g
    ensures var w := s0.workers[id];
            s.workers[id] == w.(main := MainWrite(j, TryLock), writeRequested := w.writeRequested + 1)
  {
    hide Step, Reachable, WorkerStep;
    s := MainTries(s0, id, j, LoadTarget, false);
    s := MainTries(s, id, j, AwaitLaunch(s0.workers[id].flow.dispatched), false);
    s := MainTries(s, id, j, Request, false);
  }

  /** It takes the lock as well. */
  lemma MainLocks(s0: State, id: WorkerId, j: Job) returns (s: State)
    requires Two(s0) && id <= 1 && s0.g.Free()
    requires var w := s0.workers[id]; w.main == MainWrite(j, LoadTarget) && w.flow.launched == w.flow.dispatched
    ensures Only(s0, s, id) && s.g == s0.g.(writer := MainOf(id))
    ensures var w := s0.workers[id];
            s.workers[id] == w.(main := MainWrite(j, Hold(false)), writeRequested := w.writeRequested + 1)
  {
    hide Step, Reachable, WorkerStep;
    s := MainRequests(s0, id, j);
    s := MainTries(s, id, j, TryLock, false);
  }

  /** It stops waiting for reads because the worker is closed. */
  lemma MainGivesUp(s0: State, id: WorkerId, j: Job, target: nat) returns (s: State)
    requires Two(s0) && id <= 1 && s0.workers[id].closed
    requires s0.workers[id].main == MainWrite(j, AwaitLaunch(target)) && s0.workers[id].flow.launched < target
    ensures Only(s0, s, id) && s.g == s0.g && s.workers[id] == s0.workers[id].(main := MainWrite(j, Park))
  {
    hide Step, Reachable, WorkerStep;
    s := MainTries(s0, id, j, AwaitLaunch(target), false);
    s := MainTries(s, id, j, AwaitClosed(target), false);
  }

  /** It finds its write cancelled and gives the lock back. */
  lemma MainUnlocks(s0: State, id: WorkerId, j: Job) returns (s: State)
    requires Two(s0) && id <= 1 && s0.workers[id].main == MainWrite(j, Hold(false))
    ensures Only(s0, s, id) && s.g == s0.g.(writer := Nobody)
    ensures var w := s0.workers[id];
            s.workers[id] == w.(main := Loop, writeRequested := w.writeRequested - 1,
                                ledger := w.ledger.Settle(j, Outcome.Discarded))
  {
    hide Step, Reachable, WorkerStep;
    s := MainTries(s0, id, j, Hold(false), true);
    s := MainTries(s, id, j, Unlock, false);
    s := MainTries(s, id, j, Unrequest, false);
  }

  // ---- The pipeline

  /** Read `j` is the first in the channel, and no write is requested. */
  predicate Heads(w: Worker, j: Job)
  {
    w.writeRequested == 0 && w.pipe == Recv && w.flow.channel != [] && w.flow.channel[0] == j
  }

  /** It receives a read, and no write is requested. */
  lemma GatePassed(s0: State, id: WorkerId, j: Job) returns (s: State)
    requires Two(s0) && id <= 1
    requires Heads(s0.workers[id], j)
    ensures Only(s0, s, id) && s.g == s0.g
    ensures var w := s0.workers[id];
            s.workers[id] == w.(flow := w.flow.(channel := w.flow.channel[1..]), ledger := w.ledger.Move(j, AtPipe),
                                pipe := GateToken(j))
    ensures s0.workers[id].flow.channel == [j] ==> s.workers[id].flow.channel == []
  {
    hide Step, Reachable, MainStep, ReadStep, WriteStep, RegisterStep, TokenLeft;
    var w := s0.workers[id];
    assert w.flow.channel == [j] ==> w.flow.channel[1..] == [];
    w := w.(flow := w.flow.(channel := w.flow.channel[1..]), ledger := w.ledger.Move(j, AtPipe));
    s := Goes(s0, Piped(id), Next(s0.g, w, Gate(j)));
    s := Goes(s, Piped(id), Next(s.g, w, GateWriter(j)));
    s := Goes(s, Piped(id), Next(s.g, w, GateToken(j)));
  }

  /** It gets the read lock. */
  lemma ReadLocked(s0: State, id: WorkerId, j: Job) returns (s: State)
    requires Two(s0) && id <= 1 && s0.g.writer == Nobody && Heads(s0.workers[id], j)
    ensures Only(s0, s, id)
    ensures s.g == s0.g.(readers := s0.g.readers + {PipeOf(id)}, tokens := s0.g.tokens + {PipeOf(id)})
    ensures var w := s0.workers[id];
            s.workers[id] == w.(flow := w.flow.(channel := w.flow.channel[1..]), ledger := w.ledger.Move(j, AtPipe),
                                pipe := Recheck(j))
    ensures s0.workers[id].flow.channel == [j] ==> s.workers[id].flow.channel == []
  {
    hide Step, Reachable, WorkerStep;
    s := GatePassed(s0, id, j);
    s := GateLeft(s, id, j);
  }

  /** It gets a token and the read lock. */
  lemma GateLeft(s0: State, id: WorkerId, j: Job) returns (s: State)
    requires Two(s0) && id <= 1 && s0.g.writer == Nobody && s0.workers[id].pipe == GateToken(j)
    ensures Only(s0, s, id) && s.workers[id] == s0.workers[id].(pipe := Recheck(j))
    ensures s.g == s0.g.(readers := s0.g.readers + {PipeOf(id)}, tokens := s0.g.tokens + {PipeOf(id)})
  {
    hide Step, Reachable, MainStep, ReadStep, WriteStep, RegisterStep;
    var w := s0.workers[id];
    s := Goes(s0, Piped(id), Next(s0.g.(tokens := s0.g.tokens + {PipeOf(id)}), w, AcquireRead(j)));
    s := Goes(s, Piped(id), Next(s.g.(readers := s.g.readers + {PipeOf(id)}), w, Recheck(j)));
  }

  /** It registers the read. */
  lemma Registers(s0: State, id: WorkerId, j: Job) returns (s: State)
    requires Two(s0) && id <= 1 && s0.g.enabled && s0.workers[id].pipe == Recheck(j)
    ensures Only(s0, s, id) && s.g == s0.g
    ensures var w := s0.workers[id];
            s.workers[id] == w.(flow := w.flow.(launched := w.flow.launched + 1), pipe := Spawn(j),
                                crowd := Crowd(w.crowd.inflight + {j}, w.crowd.group + {j}, w.crowd.tasks))
  {
    hide Step, Reachable, MainStep, GateStep, WriteStep, ReadStep;
    var w := s0.workers[id];
    s := Goes(s0, Piped(id), Next(s0.g, w, AddGroup(j)));
    w := w.(crowd := w.crowd.(group := w.crowd.group + {j}));
    s := Goes(s, Piped(id), Next(s.g, w, AddInflight(j)));
    w := w.(crowd := w.crowd.(inflight := w.crowd.inflight + {j}));
    s := Goes(s, Piped(id), Next(s.g, w, CountLaunch(j)));
    w := w.(flow := w.flow.(launched := w.flow.launched + 1));
    s := Goes(s, Piped(id), Next(s.g, w, Spawn(j)));
  }

  /** It spawns the goroutine, which starts to execute. */
  lemma Spawns(s0: State, id: WorkerId, j: Job) returns (s: State)
    requires Two(s0) && id <= 1 && s0.workers[id].pipe == Spawn(j)
    ensures Only(s0, s, id)
    ensures s.g == s0.g.(readers := s0.g.readers - {PipeOf(id)} + {ReaderOf(id, j)},
                         tokens := s0.g.tokens - {PipeOf(id)} + {ReaderOf(id, j)})
    ensures var w := s0.workers[id];
            s.workers[id] == w.(ledger := w.ledger.Move(j, AtReader), pipe := Recv,
                                crowd := w.crowd.(tasks := w.crowd.tasks[j := Running]))
  {
    hide Step, Reachable, MainStep, WriteStep;
    var w := s0.workers[id].(crowd := s0.workers[id].crowd.(tasks := s0.workers[id].crowd.tasks[j := Ready]));
    w := w.(ledger := w.ledger.Move(j, AtReader), pipe := Recv);
    s := Goes(s0, Piped(id), PipeStep(Plain, s0.g, s0.workers[id], id, Choice(Empty, false)));
    var tasks := w.crowd.tasks[j := Running];
    assert tasks == s0.workers[id].crowd.tasks[j := Running];
    s := Goes(s, ActRead(id, j, false), Moved(s.g, w.(crowd := w.crowd.(tasks := tasks))));
  }

  /** The goroutine finishes and has still to count itself out. */
  lemma Leaves(s0: State, id: WorkerId, j: Job) returns (s: State)
    requires Two(s0) && id <= 1 && j in s0.workers[id].crowd.tasks && s0.workers[id].crowd.tasks[j] == Running
    requires s0.g == Shared(true, false, Nobody, {ReaderOf(id, j)}, {ReaderOf(id, j)})
    ensures Only(s0, s, id) && s.g == Calm
    ensures var w, w0 := s.workers[id], s0.workers[id];
            w == w0.(ledger := w0.ledger.Settle(j, Executed), crowd := w0.crowd.(tasks := w.crowd.tasks))
  {
    hide Step, Reachable, MainStep, PipeStep, WriteStep;
    var w := s0.workers[id];
    w := w.(crowd := w.crowd.(tasks := w.crowd.tasks[j := GiveToken]), ledger := w.ledger.Settle(j, Executed));
    s := Goes(s0, ActRead(id, j, false), Moved(s0.g, w));
    w := w.(crowd := w.crowd.(tasks := w.crowd.tasks[j := ReleaseRead]));
    s := Goes(s, ActRead(id, j, false), Moved(s.g.(tokens := s.g.tokens - {ReaderOf(id, j)}), w));
    w := w.(crowd := w.crowd.(tasks := w.crowd.tasks[j := DecInflight]));
    s := Goes(s, ActRead(id, j, false), Moved(s.g.(readers := s.g.readers - {ReaderOf(id, j)}), w));
    assert s.g.readers == {} && s.g.tokens == {};
  }

  /** A whole read up to there, in a quiet system. */
  lemma Trails(s0: State, id: WorkerId, j: Job) returns (s: State)
    requires Two(s0) && id <= 1 && s0.g == Calm && j.read
    requires var w := s0.workers[id];
             && w.main == Loop && !w.closed && j in w.ledger.queue && w.flow.channel == [] && w.pipe == Recv
             && w.writeRequested == 0
    ensures Only(s0, s, id) && s.g == Calm
    ensures var w, w0 := s.workers[id], s0.workers[id];
            && w.main == Loop && w.pipe == Recv && w.closed == w0.closed && w.timedOut == w0.timedOut
            && w.writeRequested == 0
            && w.downgrades == w0.downgrades
            && w.flow == w0.flow.(dispatched := w0.flow.dispatched + 1, launched := w0.flow.launched + 1)
            && w.crowd.inflight == w0.crowd.inflight + {j}
            && w.ledger.queue == w0.ledger.queue - {j} && w.ledger.pending == w0.ledger.pending
            && forall i :: i != j ==> w.ledger.Releases(i) == w0.ledger.Releases(i)
  {
    hide Step, Reachable, WorkerStep;
    s := Taken(s0, id, j);
    s := SentOn(s, id, j);
    s := ReadLocked(s, id, j);
    s := Registers(s, id, j);
    s := Spawns(s, id, j);
    assert s.g.readers == {ReaderOf(id, j)} && s.g.tokens == {ReaderOf(id, j)};
    s := Leaves(s, id, j);
  }

  /** The pipeline finds the mode off and gives the read lock back. */
  lemma Drops(s0: State, id: WorkerId, j: Job) returns (s: State)
    requires Two(s0) && id <= 1 && !s0.g.enabled && s0.workers[id].pipe == Recheck(j)
    ensures Only(s0, s, id) && s.workers[id] == s0.workers[id].(pipe := CountDowngrade(j))
    ensures s.g == s0.g.(readers := s0.g.readers - {PipeOf(id)}, tokens := s0.g.tokens - {PipeOf(id)})
  {
    hide Step, Reachable, MainStep, GateStep, WriteStep;
    var w := s0.workers[id];
    s := Goes(s0, Piped(id), Next(s0.g, w, DropRead(j)));
    s := Goes(s, Piped(id), Next(s.g.(readers := s.g.readers - {PipeOf(id)}), w, DropToken(j)));
    s := Goes(s, Piped(id), Next(s.g.(tokens := s.g.tokens - {PipeOf(id)}), w, CountDowngrade(j)));
  }

  /** From the channel to execWrite, while the mode is off. */
  lemma Downgrades(s0: State, id: WorkerId, j: Job) returns (s: State)
    requires Two(s0) && id <= 1 && !s0.g.enabled && s0.g.writer == Nobody && s0.g.readers == {} && s0.g.tokens == {}
    requires Heads(s0.workers[id], j)
    ensures Only(s0, s, id) && s.g == s0.g
    ensures var w := s0.workers[id];
            s.workers[id] == w.(flow := w.flow.(launched := w.flow.launched + 1, channel := w.flow.channel[1..]),
                                ledger := w.ledger.Move(j, AtPipe),
                                downgrades := w.downgrades + 1, pipe := PipeWrite(j, LoadTarget))
    ensures s0.workers[id].flow.channel == [j] ==> s.workers[id].flow.channel == []
  {
    hide Step, Reachable, WorkerStep;
    s := GatePassed(s0, id, j);
    s := GateDowngrades(s, id, j);
  }

  /** From the gate to execWrite, while the mode is off. */
  lemma GateDowngrades(s0: State, id: WorkerId, j: Job) returns (s: State)
    requires Two(s0) && id <= 1 && !s0.g.enabled && s0.g.writer == Nobody && s0.g.readers == {} && s0.g.tokens == {}
    requires s0.workers[id].pipe == GateToken(j)
    ensures Only(s0, s, id) && s.g == s0.g
    ensures var w := s0.workers[id];
            s.workers[id] == w.(flow := w.flow.(launched := w.flow.launched + 1),
                                downgrades := w.downgrades + 1, pipe := PipeWrite(j, LoadTarget))
  {
    hide Step, Reachable, MainStep, ReadStep, GateStep, WriteStep;
    s := GateLeft(s0, id, j);
    s := Drops(s, id, j);
    assert s.g.readers == {} && s.g.tokens == {};
    var w := s.workers[id];
    w := w.(flow := w.flow.(launched := w.flow.launched + 1), downgrades := w.downgrades + 1);
    s := Goes(s, Piped(id), Next(s.g, w, PipeWrite(j, LoadTarget)));
  }

  /** execWrite on the pipeline, up to the request. */
  lemma PipeRequests(s0: State, id: WorkerId, j: Job) returns (s: State)
    requires Two(s0) && id <= 1
    requires var w := s0.workers[id]; w.pipe == PipeWrite(j, LoadTarget) && w.flow.launched == w.flow.dispatched
    ensures Only(s0, s, id) && s.g == s0.g
    ensures var w := s0.workers[id];
            s.workers[id] == w.(pipe := PipeWrite(j, TryLock), writeRequested := w.writeRequested + 1)
  {
    hide Step, Reachable, WorkerStep;
    s := PipeTries(s0, id, j, LoadTarget);
    s := PipeTries(s, id, j, AwaitLaunch(s0.workers[id].flow.dispatched));
    s := PipeTries(s, id, j, Request);
  }

  /** It does not get the lock of a closed worker and gives up. */
  lemma PipeGivesUp(s0: State, id: WorkerId, j: Job) returns (s: State)
    requires Two(s0) && id <= 1 && !s0.g.Free() && s0.workers[id].closed && s0.workers[id].pipe == PipeWrite(j, TryLock)
    ensures Only(s0, s, id) && s.g == s0.g
    ensures var w := s0.workers[id];
            s.workers[id] == w.(pipe := PipeWrite(j, Park), writeRequested := w.writeRequested - 1)
  {
    hide Step, Reachable, WorkerStep;
    s := PipeTries(s0, id, j, TryLock);
    s := PipeTries(s, id, j, LockClosed);
    s := PipeTries(s, id, j, Withdraw);
  }

  /** It waits for reads that nobody launches any more and gives up because the worker is closed. */
  lemma PipeWaitsInVain(s0: State, id: WorkerId, j: Job) returns (s: State)
    requires Two(s0) && id <= 1 && s0.workers[id].closed && s0.workers[id].pipe == PipeWrite(j, LoadTarget)
    requires s0.workers[id].flow.launched < s0.workers[id].flow.dispatched
    ensures Only(s0, s, id) && s.g == s0.g && s.workers[id] == s0.workers[id].(pipe := PipeWrite(j, Park))
  {
    hide Step, Reachable, WorkerStep;
    var target := s0.workers[id].flow.dispatched;
    s := PipeTries(s0, id, j, LoadTarget);
    s := PipeTries(s, id, j, AwaitLaunch(target));
    s := PipeTries(s, id, j, AwaitClosed(target));
  }

  // ---- The controller

  /** The scan passes both workers. */
  lemma Scans(s0: State) returns (s: State)
    requires Two(s0) && s0.snap == {0, 1} && s0.control == Idle && s0.g.enabled
    requires s0.workers[0].flow.dispatched <= s0.workers[0].flow.launched
    requires s0.workers[1].flow.dispatched <= s0.workers[1].flow.launched
    ensures Two(s) && s == s0.(g := s0.g.(disabling := true), control := DisableLock)
  {
    hide Step, Reachable, WorkerStep;
    s := Controls(s0, 0, false);
    s := Controls(s, 0, false);
    s := Controls(s, 0, false);
    s := Controls(s, 0, false);
    assert s.control == Scan({1});
    s := Controls(s, 1, false);
    s := Controls(s, 1, false);
    assert s.control == Scan({});
    s := Controls(s, 0, false);
  }

  /** It passes worker 1, the only one left in the published set. */
  lemma ScansOne(s0: State) returns (s: State)
    requires Two(s0) && s0.snap == {1} && s0.control == Idle && s0.g.enabled
    requires s0.workers[1].flow.dispatched <= s0.workers[1].flow.launched
    ensures Two(s) && s == s0.(g := s0.g.(disabling := true), control := DisableLock)
  {
    hide Step, Reachable, WorkerStep;
    s := Controls(s0, 0, false);
    s := Controls(s, 0, false);
    s := Controls(s, 1, false);
    s := Controls(s, 1, false);
    assert s.control == Scan({});
    s := Controls(s, 0, false);
  }

  /** Disable turns the mode off. */
  lemma FlipsOff(s0: State) returns (s: State)
    requires Two(s0) && s0.control == DisableLock && s0.g.Free()
    ensures Two(s) && s.workers == s0.workers && s.torn == s0.torn && s.control == Count(s0.snap) && s.snap == s0.snap
    ensures s.g == s0.g.(enabled := false)
    ensures s.rolledBack == s0.rolledBack && s.flips == s0.flips + 1
  {
    hide Step, Reachable, WorkerStep;
    s := Controls(s0, 0, false);
    s := Controls(s, 0, false);
    s := Controls(s, 0, false);
  }

  /** It finds a registered read, gives up and rolls back. */
  lemma RollsBack(s0: State) returns (s: State)
    requires Two(s0) && s0.control == Count({0, 1}) && s0.workers[0].crowd.inflight != {}
    ensures Two(s) && s.workers == s0.workers && s.torn == s0.torn && s.control == Idle && s.rolledBack
    ensures s.flips == s0.flips && s.snap == s0.snap
    ensures s.g == s0.g.(enabled := true, disabling := false) && s.result == Some(false)
  {
    hide Step, Reachable, WorkerStep;
    s := Controls(s0, 0, false);
    s := Controls(s, 0, true);
    s := Controls(s, 0, false);
    s := Controls(s, 0, false);
  }

  /** A shrink takes worker 0, whose `run` has returned, out of the published set. */
  lemma Removes0(s0: State) returns (s: State)
    requires Two(s0) && s0.snap == {0, 1} && s0.control == Idle && s0.workers[0].main == Done
    ensures Two(s) && s == s0.(snap := {1})
  {
    hide Reachable, GoroutineStep, ControlStep;
    assert s0.snap - {0} == {1};
    s := Do(s0, Remove({0}));
  }

  // ---- The drain of worker 0

  /** The closed worker leaves its main loop and closes the channel. */
  lemma Leaves0(s0: State) returns (s: State)
    requires Two(s0) && s0.workers[0].main == Loop && s0.workers[0].closed
    ensures Only(s0, s, 0) && s.g == s0.g
    ensures var w := s0.workers[0];
            s.workers[0] == w.(main := Drain(Shutdown(AwaitPipe)), flow := w.flow.(shut := true))
  {
    hide Step, Reachable, PipeStep, ReadStep, WriteStep, ResidueStep;
    var w := s0.workers[0];
    s := Goes(s0, Steps(0, Empty), Goto(s0.g, w, Drain(Shutdown(CloseChannel))));
    w := w.(flow := w.flow.(shut := true));
    s := Goes(s, Steps(0, Empty), Goto(s.g, w, Drain(Shutdown(AwaitPipe))));
  }

  /** The pipeline finds the channel empty and closed. */
  lemma PipeExits(s0: State) returns (s: State)
    requires Two(s0) && s0.workers[0].pipe == Recv && s0.workers[0].flow.channel == [] && s0.workers[0].flow.shut
    ensures Only(s0, s, 0) && s.g == s0.g && s.workers[0] == s0.workers[0].(pipe := Exited)
  {
    hide Step, Reachable, MainStep, ReadStep, WriteStep, RegisterStep;
    s := Goes(s0, Piped(0), Next(s0.g, s0.workers[0], Exited));
  }

  /** The wait for the pipeline ends, in time or not. */
  lemma Waited(s0: State, late: bool) returns (s: State)
    requires Two(s0) && s0.workers[0].main == Drain(Shutdown(AwaitPipe)) && (late <==> !s0.workers[0].pipe.Exited?)
    ensures Only(s0, s, 0) && s.g == s0.g
    ensures var w := s0.workers[0];
            s.workers[0] == w.(main := Drain(Shutdown(DrainEnabled)), timedOut := w.timedOut || late)
  {
    hide Step, Reachable, PipeStep, ReadStep, WriteStep, LoopStep, ResidueStep;
    var w := s0.workers[0];
    w := w.(timedOut := w.timedOut || late);
    s := Goes(s0, ActMain(0, Choice(Empty, true)), Goto(s0.g, w, Drain(Shutdown(DrainEnabled))));
  }

  /** With the mode off and something left to settle the drain goes straight to it. */
  lemma Unlocked(s0: State) returns (s: State)
    requires Two(s0) && !s0.g.enabled && s0.workers[0].main == Drain(Shutdown(DrainEnabled))
    requires s0.workers[0].ledger.pending.Full? || s0.workers[0].ledger.queue != {}
    ensures Only(s0, s, 0) && s.g == s0.g
    ensures s.workers[0] == s0.workers[0].(main := Drain(Residue(DrainMode(false, false), TakePending)))
  {
    hide Step, Reachable, PipeStep, ReadStep, WriteStep, LoopStep, ResidueStep;
    var w := s0.workers[0];
    s := Goes(s0, Steps(0, Empty), Goto(s0.g, w, Drain(Shutdown(Residual))));
    s := Goes(s, Steps(0, Empty), Goto(s.g, w, Drain(Shutdown(ChooseLock(true)))));
    s := Goes(s, Steps(0, Empty), Goto(s.g, w, Drain(Residue(DrainMode(false, false), TakePending))));
  }

  /** A parked job comes first. */
  lemma Residues(s0: State, j: Job) returns (s: State)
    requires Two(s0) && !s0.g.enabled && s0.workers[0].main == Drain(Shutdown(DrainEnabled))
    requires s0.workers[0].ledger.pending == Full(j)
    ensures Only(s0, s, 0) && s.g == s0.g
    ensures s.workers[0] == s0.workers[0].(main := Drain(Residue(DrainMode(false, false), SettlePending(j, false))))
  {
    hide Step, Reachable, PipeStep, ReadStep, WriteStep, LoopStep, ShutdownStep;
    s := Unlocked(s0);
    var w := s.workers[0];
    s := Goes(s, Steps(0, Empty), Goto(s.g, w, Drain(Residue(DrainMode(false, false), LoadPending))));
    s := Goes(s, Steps(0, Empty), Goto(s.g, w, Drain(Residue(DrainMode(false, false), SettlePending(j, false)))));
  }

  /** Without one it takes a job from the queue and executes it. */
  lemma Serves(s0: State, j: Job) returns (s: State)
    requires Two(s0) && s0.workers[0].main == Drain(Residue(DrainMode(false, false), TakePending))
    requires s0.workers[0].ledger.pending == Empty && j in s0.workers[0].ledger.queue && !s0.workers[0].timedOut
    ensures Only(s0, s, 0) && s.g == s0.g
    ensures var w := s0.workers[0];
            s.workers[0] == w.(main := Drain(Residue(DrainMode(false, false), SettleQueued(j, true))),
                               ledger := w.ledger.Pop(j))
  {
    hide Step, Reachable, PipeStep, ReadStep, WriteStep, LoopStep, ShutdownStep;
    var w := s0.workers[0];
    s := Goes(s0, Steps(0, Empty), Goto(s0.g, w, Drain(Residue(DrainMode(false, false), TakeQueued))));
    w := w.(ledger := w.ledger.Pop(j));
    s := Goes(s, Steps(0, Full(j)), Goto(s.g, w, Drain(Residue(DrainMode(false, false), SettleQueued(j, false)))));
    s := Goes(s, Steps(0, Empty), Goto(s.g, w, Drain(Residue(DrainMode(false, false), SettleQueued(j, true)))));
  }

  /** It finds the parked job cancelled and discards it. */
  lemma SettlesParked(s0: State, j: Job) returns (s: State)
    requires Two(s0) && s0.workers[0].main == Drain(Residue(DrainMode(false, false), SettlePending(j, false)))
    ensures Only(s0, s, 0) && s.g == s0.g
    ensures var w := s0.workers[0];
            s.workers[0] == w.(ledger := w.ledger.Settle(j, Outcome.Discarded),
                               main := Drain(Residue(DrainMode(false, false), ClearPending)))
  {
    hide Step, Reachable, PipeStep, ReadStep, WriteStep, LoopStep, ShutdownStep;
    var w := s0.workers[0];
    w := w.(ledger := w.ledger.Settle(j, Outcome.Discarded));
    var a := ActMain(0, Choice(Empty, true));
    s := Goes(s0, a, Goto(s0.g, w, Drain(Residue(DrainMode(false, false), ClearPending))));
  }

  /** Nothing else is left, and `run` returns. */
  lemma Ends(s0: State) returns (s: State)
    requires Two(s0) && s0.workers[0].main == Drain(Residue(DrainMode(false, false), ClearPending))
    requires s0.workers[0].ledger.queue == {}
    ensures Only(s0, s, 0) && s.g == s0.g
    ensures var w := s0.workers[0]; s.workers[0] == w.(ledger := w.ledger.(pending := Empty), main := Done)
  {
    hide Step, Reachable, PipeStep, ReadStep, WriteStep, LoopStep, ShutdownStep;
    var w := s0.workers[0];
    w := w.(ledger := w.ledger.(pending := Empty));
    s := Goes(s0, Steps(0, Empty), Goto(s0.g, w, Drain(Residue(DrainMode(false, false), TakeQueued))));
    s := Goes(s, Steps(0, Empty), Goto(s.g, w, Done));
  }

  /** With the mode on and nothing left the drain takes no lock, and `run` returns. */
  lemma EndsIdle(s0: State) returns (s: State)
    requires Two(s0) && s0.g.enabled && s0.workers[0].main == Drain(Shutdown(DrainEnabled))
    requires var w := s0.workers[0];
             w.crowd.inflight == {} && w.crowd.group == {} && w.ledger.pending == Empty && w.ledger.queue == {}
    ensures Only(s0, s, 0) && s.g == s0.g && s.workers[0] == s0.workers[0].(main := Done)
  {
    hide Step, Reachable, PipeStep, ReadStep, WriteStep, LoopStep, ShutdownStep;
    s := Idled(s0);
    var w := s.workers[0];
    s := Goes(s, Steps(0, Empty), Goto(s.g, w, Drain(Residue(DrainMode(false, false), TakeQueued))));
    s := Goes(s, Steps(0, Empty), Goto(s.g, w, Done));
  }

  lemma Idled(s0: State) returns (s: State)
    requires Two(s0) && s0.g.enabled && s0.workers[0].main == Drain(Shutdown(DrainEnabled))
    requires var w := s0.workers[0];
             w.crowd.inflight == {} && w.crowd.group == {} && w.ledger.pending == Empty && w.ledger.queue == {}
    ensures Only(s0, s, 0) && s.g == s0.g
    ensures s.workers[0] == s0.workers[0].(main := Drain(Residue(DrainMode(false, false), TakePending)))
  {
    hide Step, Reachable, PipeStep, ReadStep, WriteStep, LoopStep, ResidueStep;
    var w := s0.workers[0];
    s := Goes(s0, Steps(0, Empty), Goto(s0.g, w, Drain(Shutdown(AwaitInflight))));
    s := Goes(s, Steps(0, Empty), Goto(s.g, w, Drain(Shutdown(AwaitGroup))));
    s := Goes(s, Steps(0, Empty), Goto(s.g, w, Drain(Shutdown(Residual))));
    s := Goes(s, Steps(0, Empty), Goto(s.g, w, Drain(Shutdown(ChooseLock(false)))));
    s := Goes(s, Steps(0, Empty), Goto(s.g, w, Drain(Residue(DrainMode(false, false), TakePending))));
  }
}
