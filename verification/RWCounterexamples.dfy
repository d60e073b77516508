/** Runs of the protocol in which a promise of SetRWEnabled fails. Each is a concrete sequence of
    steps of one worker and the controller. */
module RWCounterexamples {
  import opened RWMachine
  import opened RWLocal
  import opened RWInvariant
  import opened RWFixed
  import opened RWRetired
  import opened RWSwitch
  import opened RWTheorems

  /** Room for four reads, no semaphore, DrainExecute. */
  const Plain := Config(4, 0, true)

  const First := Job(1, true)

  const Second := Job(2, true)

  /** One more step of a run. */
  lemma Do(s: State, a: Action) returns (s': State)
    requires Reachable(Plain, true, s) && Step(Plain, true, s, a).Some?
    ensures s' == Step(Plain, true, s, a).value && Reachable(Plain, true, s')
  {
    hide Step;
    s' := Step(Plain, true, s, a).value;
    var actions :| After(Plain, true, Initial(true), actions) == Some(s);
    AfterExtended(Plain, true, Initial(true), actions, a);
    assert After(Plain, true, Initial(true), actions + [a]) == Some(s');
  }

  /** One more step of a goroutine of worker 0. */
  lemma Act(s: State, a: Action, next: LocalResult) returns (s': State)
    requires Reachable(Plain, true, s) && 0 in s.workers && (a.ActMain? || a.ActPipe?) && a.worker == 0
    requires WorkerStep(Plain, s.g, s.workers[0], 0, a) == next && next.Moved?
    ensures Reachable(Plain, true, s')
    ensures s' == s.(g := next.g, workers := s.workers[0 := next.w], torn := s.torn + TornBy(s, a))
  {
    hide WorkerStep;
    assert s.used + {} == s.used && Submitted(a) * s.used == {};
    s' := Do(s, a);
  }

  function Turn(): Action { ActMain(0, Choice(Empty, false)) }

  function Take(j: Job): Action { ActMain(0, Choice(Full(j), false)) }

  function Pipe(): Action { ActPipe(0, Choice(Empty, false)) }

  function Control(): Action { ActControl(0, false) }

  /** A worker with no write requested, no read goroutine and nothing parked. */
  function Busy(dispatched: nat, channel: seq<Job>, queue: set<Job>, place: map<Job, Place>, main: MainPc): Worker
  {
    Worker(false, false, 0, 0, Flow(dispatched, 0, channel, false), Crowd({}, {}, map[]),
           Ledger(queue, Empty, place, map[]), main, Recv)
  }

  /** Worker 0 alone in the pool. */
  function Solo(enabled: bool, disabling: bool, control: ControlPc, w: Worker): State
  {
    State(Shared(enabled, disabling, Nobody, {}, {}), map[0 := w], {0}, control,
          if enabled then None else Some(true), {First, Second}, !enabled, if enabled then 0 else 1, false, {})
  }

  lemma TwoReadsQueued()
    ensures Reachable(Plain, true, Solo(true, false, Idle,
                                        Busy(0, [], {First, Second}, map[First := Queued, Second := Queued], Loop)))
  {
    assert After(Plain, true, Initial(true), []) == Some(Initial(true));
    var s := Do(Initial(true), Grow(0));
    s := Do(s, Submit(0, First));
    s := Do(s, Submit(0, Second));
    assert s.used == {First, Second} && s.snap == {0};
    assert s.workers[0].ledger.queue == {First, Second};
    assert s.workers[0].ledger.place == map[First := Queued, Second := Queued];
    assert s.workers == map[0 := s.workers[0]];
    assert s == Solo(true, false, Idle, Busy(0, [], {First, Second}, map[First := Queued, Second := Queued], Loop));
  }

  /** The main loop takes the first read and passes the test of execWithRW. */
  lemma TestPassed()
    ensures Reachable(Plain, true, Solo(true, false, Idle,
                                        Busy(0, [], {Second}, map[First := AtMain, Second := Queued], Dispatch(First))))
  {
    TwoReadsQueued();
    hide Step, Reachable;
    var w := Busy(0, [], {First, Second}, map[First := Queued, Second := Queued], Loop);
    var s := Solo(true, false, Idle, w);
    s := Act(s, Turn(), Goto(s.g, w, Poll));
    w := w.(ledger := w.ledger.Pop(First));
    s := Act(s, Take(First), Goto(s.g, w, LoadEnabled(First)));
    s := Act(s, Turn(), Goto(s.g, w, CheckEnabled(First)));
    s := Act(s, Turn(), Goto(s.g, w, CheckDisabling(First)));
    s := Act(s, Turn(), Goto(s.g, w, Dispatch(First)));
    assert s.workers[0].ledger.queue == {Second};
    assert s.workers[0].ledger.place == map[First := AtMain, Second := Queued];
    assert s.workers == map[0 := s.workers[0]];
    assert s == Solo(true, false, Idle, Busy(0, [], {Second}, map[First := AtMain, Second := Queued], Dispatch(First)));
  }

  /** SetRWEnabled(false) finds the counters of the worker equal: nothing is dispatched yet. */
  lemma ScanPassed()
    ensures Reachable(Plain, true, Solo(true, true, DisableLock,
                                        Busy(0, [], {Second}, map[First := AtMain, Second := Queued], Dispatch(First))))
  {
    TestPassed();
    var w := Busy(0, [], {Second}, map[First := AtMain, Second := Queued], Dispatch(First));
    var s := Solo(true, false, Idle, w);
    s := Do(s, Control());
    s := Do(s, Control());
    s := Do(s, Control());
    s := Do(s, Control());
    assert s.control.todo == {};
    s := Do(s, Control());
    assert s == Solo(true, true, DisableLock, w);
  }

  /** The read is dispatched behind the back of the scan. */
  lemma StragglerSent()
    ensures Reachable(Plain, true, Solo(true, true, DisableLock,
                                        Busy(1, [First], {Second}, map[First := InChannel, Second := Queued], Loop)))
  {
    ScanPassed();
    var s := Solo(true, true, DisableLock, Busy(0, [], {Second}, map[First := AtMain, Second := Queued],
                                                Dispatch(First)));
    s := Do(s, Turn());
    s := Do(s, Turn());
    assert s.workers[0].flow.channel == [First] && s.used == {First, Second};
    assert s.workers[0].ledger.place == map[First := InChannel, Second := Queued];
    assert s.workers == map[0 := s.workers[0]];
    assert s == Solo(true, true, DisableLock, Busy(1, [First], {Second}, map[First := InChannel, Second := Queued],
                                                   Loop));
  }

  lemma FlippedOff(w: Worker) returns (s: State)
    requires Reachable(Plain, true, Solo(true, true, DisableLock, w))
    ensures s == Solo(false, true, Count({0}), w).(result := None) && Reachable(Plain, true, s)
  {
    hide Reachable, GoroutineStep;
    s := Do(Solo(true, true, DisableLock, w), Control());
    s := Do(s, Control());
    s := Do(s, Control());
  }

  /** No read is registered: the rest of SetRWEnabled(false) succeeds. */
  lemma Switched(w: Worker) returns (s: State)
    requires w.crowd.inflight == {} && w.crowd.group == {} && Reachable(Plain, true, Solo(true, true, DisableLock, w))
    ensures s == Solo(false, false, Idle, w) && Reachable(Plain, true, s)
  {
    hide Reachable, GoroutineStep;
    s := FlippedOff(w);
    s := Do(s, Control());
    assert s.control.todo == {};
    s := Do(s, Control());
    s := Do(s, Control());
    assert s.control.todo == {};
    s := Do(s, Control());
    assert s.control == Finish;
    s := Do(s, Control());
    assert s == Solo(false, false, Idle, w);
  }

  /** launchRead gets the read lock. */
  lemma Locked(s0: State) returns (s: State)
    requires Reachable(Plain, true, s0) && 0 in s0.workers && s0.workers[0].pipe.Recv?
    requires s0.workers[0].flow.channel != []
    requires s0.g.writer == Nobody && s0.workers[0].writeRequested == 0 && !s0.workers[0].closed
    ensures Reachable(Plain, true, s) && s.result == s0.result && s.torn == s0.torn && s.rolledBack == s0.rolledBack
    ensures 0 in s.workers
    ensures s.g == s0.g.(readers := s0.g.readers + {PipeOf(0)}, tokens := s0.g.tokens + {PipeOf(0)})
    ensures var w := s0.workers[0];
            s.workers[0] == w.(flow := w.flow.(channel := w.flow.channel[1..]),
                               ledger := w.ledger.Move(w.flow.channel[0], AtPipe),
                               pipe := Recheck(w.flow.channel[0]))
  {
    hide Step, Reachable, MainStep, WriteStep;
    var j := s0.workers[0].flow.channel[0];
    s := Act(s0, Pipe(), PipeStep(Plain, s0.g, s0.workers[0], 0, Choice(Empty, false)));
    s := Act(s, Pipe(), Next(s.g, s.workers[0], GateWriter(j)));
    s := Act(s, Pipe(), Next(s.g, s.workers[0], GateToken(j)));
    s := Act(s, Pipe(), Next(s.g.(tokens := s.g.tokens + {PipeOf(0)}), s.workers[0], AcquireRead(j)));
    s := Act(s, Pipe(), Next(s.g.(readers := s.g.readers + {PipeOf(0)}), s.workers[0], Recheck(j)));
  }

  /** It finds RW mode off and downgrades the read. */
  lemma Dropped(s0: State) returns (s: State)
    requires Reachable(Plain, true, s0) && 0 in s0.workers && s0.workers[0].pipe.Recheck? && !s0.g.enabled
    ensures Reachable(Plain, true, s) && s.result == s0.result && s.torn == s0.torn && s.rolledBack == s0.rolledBack
    ensures 0 in s.workers
    ensures s.g == s0.g.(readers := s0.g.readers - {PipeOf(0)}, tokens := s0.g.tokens - {PipeOf(0)})
    ensures var w := s0.workers[0];
            s.workers[0] == w.(flow := w.flow.(launched := w.flow.launched + 1), downgrades := w.downgrades + 1,
                               pipe := PipeWrite(w.pipe.job, LoadTarget))
  {
    hide Step, Reachable, MainStep, GateStep;
    var j := s0.workers[0].pipe.job;
    s := Act(s0, Pipe(), Next(s0.g, s0.workers[0], DropRead(j)));
    s := Act(s, Pipe(), Next(s.g.(readers := s.g.readers - {PipeOf(0)}), s.workers[0], DropToken(j)));
    s := Act(s, Pipe(), Next(s.g.(tokens := s.g.tokens - {PipeOf(0)}), s.workers[0], CountDowngrade(j)));
    s := Act(s, Pipe(), PipeStep(Plain, s.g, s.workers[0], 0, Choice(Empty, false)));
  }

  /** launchRead downgrades the first read of the channel. */
  lemma Downgraded(s0: State) returns (s: State)
    requires Reachable(Plain, true, s0) && 0 in s0.workers && s0.workers[0].pipe.Recv?
    requires s0.workers[0].flow.channel != []
    requires !s0.g.enabled && s0.g.writer == Nobody && s0.g.readers == {} && s0.g.tokens == {}
    requires s0.workers[0].writeRequested == 0 && !s0.workers[0].closed
    ensures Reachable(Plain, true, s) && s.g == s0.g && 0 in s.workers
    ensures s.result == s0.result && s.torn == s0.torn && s.rolledBack == s0.rolledBack
    ensures var w := s0.workers[0];
            s.workers[0] == w.(flow := w.flow.(launched := w.flow.launched + 1, channel := w.flow.channel[1..]),
                               ledger := w.ledger.Move(w.flow.channel[0], AtPipe), downgrades := w.downgrades + 1,
                               pipe := PipeWrite(w.flow.channel[0], LoadTarget))
  {
    hide Reachable;
    s := Locked(s0);
    s := Dropped(s);
    assert s.g.readers == {} && s.g.tokens == {};
  }

  /** Serial execution is not exclusive after SetRWEnabled(false) returned nil: the straggler runs
      on the pipeline while the main loop runs the next job without the lock. */
  lemma OverlapRun() returns (s: State)
    ensures Reachable(Plain, true, s) && s.result == Some(true) && MainRuns(s, 0) && PipeRuns(s, 0)
  {
    hide Step, Reachable, WorkerStep;
    StragglerSent();
    s := Switched(Busy(1, [First], {Second}, map[First := InChannel, Second := Queued], Loop));
    s := Downgraded(s);
    s := PipeWrites(s);
    s := SerialStarts(s);
  }

  /** One step of execWrite on the pipeline. */
  lemma Writes(s0: State, w: Worker, next: WritePc) returns (s: State)
    requires Reachable(Plain, true, s0) && 0 in s0.workers && s0.workers[0].pipe.PipeWrite?
    requires var r := WriteStep(s0.g, s0.workers[0], PipeOf(0), s0.workers[0].pipe.job, s0.workers[0].pipe.pc, false);
             && r.next == next && !next.Returned?
             && s0.workers[0].(writeRequested := r.requested, ledger := r.ledger) == w.(pipe := s0.workers[0].pipe)
    ensures Reachable(Plain, true, s) && s.result == s0.result && 0 in s.workers
    ensures s.g == s0.g.(writer := WriteStep(s0.g, s0.workers[0], PipeOf(0), s0.workers[0].pipe.job,
                                             s0.workers[0].pipe.pc, false).writer)
    ensures s.workers[0] == w.(pipe := PipeWrite(s0.workers[0].pipe.job, next))
  {
    hide Step, Reachable, WriteStep, MainStep, GateStep, RegisterStep, ReadStep;
    s := Act(s0, Pipe(), PipeStep(Plain, s0.g, s0.workers[0], 0, Choice(Empty, false)));
  }

  /** The downgraded read gets the write lock and runs. */
  lemma PipeWrites(s0: State) returns (s: State)
    requires Reachable(Plain, true, s0) && s0.g.Free() && 0 in s0.workers
    requires var w := s0.workers[0]; w.pipe.PipeWrite? && w.pipe.pc.LoadTarget? && w.flow.launched == w.flow.dispatched
    ensures Reachable(Plain, true, s) && s.result == s0.result && s.g == s0.g.(writer := PipeOf(0)) && 0 in s.workers
    ensures var w := s0.workers[0];
            s.workers[0] == w.(writeRequested := w.writeRequested + 1, pipe := PipeWrite(w.pipe.job, Hold(true)))
  {
    hide Step, Reachable, WorkerStep;
    var w := s0.workers[0];
    var j := w.pipe.job;
    s := Writes(s0, w, AwaitLaunch(w.flow.dispatched));
    s := Writes(s, w, Request);
    s := Writes(s, w.(writeRequested := w.writeRequested + 1), TryLock);
    s := Writes(s, w.(writeRequested := w.writeRequested + 1), Hold(false));
    s := Writes(s, w.(writeRequested := w.writeRequested + 1), Hold(true));
  }

  lemma SerialStarts(s0: State) returns (s: State)
    requires Reachable(Plain, true, s0) && !s0.g.enabled && !s0.g.disabling && 0 in s0.workers
    requires var w := s0.workers[0]; w.main.Loop? && Second in w.ledger.queue && !w.closed
    ensures Reachable(Plain, true, s) && s.result == s0.result && MainRuns(s, 0)
    ensures s.workers[0].pipe == s0.workers[0].pipe
  {
    hide Step, Reachable, ShutdownStep, ResidueStep, PipeStep, WriteStep, ReadStep;
    var w := s0.workers[0];
    s := Act(s0, Turn(), Goto(s0.g, w, Poll));
    s := Act(s, Take(Second), Goto(s.g, w.(ledger := w.ledger.Pop(Second)), LoadEnabled(Second)));
    s := Act(s, Turn(), Goto(s.g, s.workers[0], LoadDisabling(Second)));
    s := Act(s, Turn(), Goto(s.g, s.workers[0], Serial(Second, false)));
    s := Act(s, Turn(), Goto(s.g, s.workers[0], Serial(Second, true)));
  }

  /** The main loop also loads `enabled` for the second read, before the flag is flipped. */
  lemma TestHalfDone()
    ensures Reachable(Plain, true, Solo(true, true, DisableLock,
                                        Busy(1, [First], {}, map[First := InChannel, Second := AtMain],
                                             CheckDisabling(Second))))
  {
    StragglerSent();
    var s := Solo(true, true, DisableLock, Busy(1, [First], {Second}, map[First := InChannel, Second := Queued], Loop));
    s := Do(s, Turn());
    s := Do(s, Take(Second));
    s := Do(s, Turn());
    s := Do(s, Turn());
    assert s.workers[0].ledger.queue == {};
    assert s.workers[0].ledger.place == map[First := InChannel, Second := AtMain];
    assert s.workers == map[0 := s.workers[0]];
    assert s == Solo(true, true, DisableLock, Busy(1, [First], {}, map[First := InChannel, Second := AtMain],
                                                   CheckDisabling(Second)));
  }

  /** The downgraded read of `id` waits for a read that only its own pipeline could launch. */
  ghost predicate WaitsForItself(s: State, id: WorkerId)
  {
    && id in s.workers && s.result == Some(true)
    && Starved(s.workers[id])
  }

  predicate Starved(w: Worker)
  {
    && !w.closed && w.pipe.PipeWrite? && (w.pipe.pc.AwaitLaunch? || w.pipe.pc.AwaitClosed?)
    && w.flow.launched < w.pipe.pc.target
    && !w.main.CheckDisabling? && !w.main.Dispatch? && !w.main.Send? && !w.main.Overflow? && !w.main.Drain?
  }

  /** The test of execWithRW loads `enabled` and `disabling` one after the other. A main loop that
      did the first before the switch and the second after it sends a second straggler, and the
      first one then waits for its own pipeline. */
  lemma TornRun() returns (s: State)
    ensures Reachable(Plain, true, s) && s.torn == {0} && !s.rolledBack && WaitsForItself(s, 0)
  {
    hide Step, Reachable, ShutdownStep, ResidueStep, GateStep, ReadStep;
    TestHalfDone();
    var w := Busy(1, [First], {}, map[First := InChannel, Second := AtMain], CheckDisabling(Second));
    s := Switched(w);
    s := Act(s, Turn(), Goto(s.g, w, Dispatch(Second)));
    s := Act(s, Turn(), Goto(s.g, w.(flow := w.flow.(dispatched := 2)), Send(Second)));
    s := Act(s, Turn(), MainStep(Plain, s.g, s.workers[0], 0, Choice(Empty, false)));
    s := Downgraded(s);
    s := Act(s, Pipe(), Next(s.g, s.workers[0], PipeWrite(First, AwaitLaunch(2))));
  }

  lemma StillWaitsMain(cfg: Config, g: Shared, w: Worker, id: WorkerId, c: Choice)
    requires !g.enabled && Starved(w)
    ensures var r := MainStep(cfg, g, w, id, c); r.Moved? ==> Starved(r.w)
  {
  }

  lemma StillWaitsPipe(cfg: Config, g: Shared, w: Worker, id: WorkerId, c: Choice)
    requires Starved(w)
    ensures var r := PipeStep(cfg, g, w, id, c); r.Moved? ==> Starved(r.w)
  {
  }

  lemma StillWaitsLocal(cfg: Config, g: Shared, w: Worker, id: WorkerId, a: Action)
    requires !g.enabled && Starved(w) && !a.BeginStop?
    ensures var r := WorkerStep(cfg, g, w, id, a); r.Moved? ==> Starved(r.w)
  {
    hide MainStep, PipeStep;
    match a
    case ActMain(_, c) => StillWaitsMain(cfg, g, w, id, c);
    case ActPipe(_, c) => StillWaitsPipe(cfg, g, w, id, c);
    case _ =>
  }

  lemma StillWaitsStep(cfg: Config, rw: bool, s: State, a: Action, id: WorkerId)
    requires Sound(cfg, rw, s) && WaitsForItself(s, id) && a != BeginStop(id)
    ensures var n := Step(cfg, rw, s, a); n.Some? ==> WaitsForItself(n.value, id)
  {
    hide WorkerStep, Local, Fixed, Switch, Owned, Emptied, PlacedUsed;
    if !a.ActControl? && !a.Grow? && !a.Remove? && a.worker == id { StillWaitsLocal(cfg, s.g, s.workers[id], id, a); }
  }

  /** Nothing but stopping the worker ends that wait, whatever else happens and however long the
      run. */
  lemma {:induction false} WaitsForever(cfg: Config, rw: bool, s: State, id: WorkerId, actions: seq<Action>, s': State)
    requires Reachable(cfg, rw, s) && WaitsForItself(s, id) && BeginStop(id) !in actions
    requires After(cfg, rw, s, actions) == Some(s')
    ensures WaitsForItself(s', id)
  {
    ReachableSound(cfg, rw, s);
    KeepsWaiting(cfg, rw, s, id, actions, s');
  }

  lemma {:induction false} KeepsWaiting(cfg: Config, rw: bool, s: State, id: WorkerId, actions: seq<Action>, s': State)
    requires Sound(cfg, rw, s) && WaitsForItself(s, id) && BeginStop(id) !in actions
    requires After(cfg, rw, s, actions) == Some(s')
    ensures WaitsForItself(s', id)
    decreases |actions|
  {
    hide Step, Sound, WaitsForItself;
    if actions != [] {
      assert actions[0] in actions && forall a :: a in actions[1..] ==> a in actions;
      StillWaitsStep(cfg, rw, s, actions[0], id);
      StepSound(cfg, rw, s, actions[0]);
      KeepsWaiting(cfg, rw, Step(cfg, rw, s, actions[0]).value, id, actions[1..], s');
    }
  }

  /** After a successful switch a straggler can execute beside a serial job. */
  lemma SerialOverlapsStraggler()
    ensures exists s :: Reachable(Plain, true, s) && s.result == Some(true) && MainRuns(s, 0) && PipeRuns(s, 0)
  {
    var s := OverlapRun();
  }

  /** A torn test can leave a downgraded read waiting for its own pipeline. */
  lemma TornTest()
    ensures exists s :: Reachable(Plain, true, s) && s.torn == {0} && !s.rolledBack && WaitsForItself(s, 0)
  {
    var s := TornRun();
  }
}
