/** What the goroutines of a worker do when nothing interferes: the other workers and the controller
    stand still, nothing is cancelled and no deadline passes. */
module RWAlone {
  import opened RWMachine
  import opened RWLocal
  import opened RWInvariant

  /** A step of a goroutine of worker `id`, undisturbed. */
  predicate Calmly(a: Action, id: WorkerId)
  {
    match a
    case ActMain(i, c) => i == id && !c.alarm
    case ActPipe(i, c) => i == id && !c.alarm
    case ActRead(i, _, cancelled) => i == id && !cancelled
    case _ => false
  }

  function Run(cfg: Config, id: WorkerId, g: Shared, w: Worker, acts: seq<Action>): LocalResult
    decreases |acts|
  {
    if acts == [] then Moved(g, w)
    else if !Calmly(acts[0], id) then Stuck
    else
      var r := WorkerStep(cfg, g, w, id, acts[0]);
      if r.Stuck? then Stuck else Run(cfg, id, r.g, r.w, acts[1..])
  }

  /** Alone, the goroutines of the worker get from one state to the other. */
  ghost predicate Leads(cfg: Config, id: WorkerId, g: Shared, w: Worker, g': Shared, w': Worker)
  {
    exists acts :: Run(cfg, id, g, w, acts) == Moved(g', w')
  }

  lemma Stands(cfg: Config, id: WorkerId, g: Shared, w: Worker)
    ensures Leads(cfg, id, g, w, g, w)
  {
    assert Run(cfg, id, g, w, []) == Moved(g, w);
  }

  lemma {:induction false} RunConcat(cfg: Config, id: WorkerId, g: Shared, w: Worker, a: seq<Action>, b: seq<Action>)
    requires Run(cfg, id, g, w, a).Moved?
    ensures var r := Run(cfg, id, g, w, a); Run(cfg, id, g, w, a + b) == Run(cfg, id, r.g, r.w, b)
    decreases |a|
  {
    hide WorkerStep;
    if a == [] {
      assert [] + b == b;
    } else {
      assert (a + b)[0] == a[0] && (a + b)[1..] == a[1..] + b;
      var r := WorkerStep(cfg, g, w, id, a[0]);
      RunConcat(cfg, id, r.g, r.w, a[1..], b);
    }
  }

  lemma Joins(cfg: Config, id: WorkerId, g: Shared, w: Worker, g1: Shared, w1: Worker, g2: Shared, w2: Worker)
    requires Leads(cfg, id, g, w, g1, w1) && Leads(cfg, id, g1, w1, g2, w2)
    ensures Leads(cfg, id, g, w, g2, w2)
  {
    hide Run;
    var a :| Run(cfg, id, g, w, a) == Moved(g1, w1);
    var b :| Run(cfg, id, g1, w1, b) == Moved(g2, w2);
    RunConcat(cfg, id, g, w, a, b);
  }

  /** One more step. */
  lemma Turn(cfg: Config, id: WorkerId, g0: Shared, w0: Worker, g: Shared, w: Worker, a: Action, next: LocalResult)
    requires Leads(cfg, id, g0, w0, g, w) && Calmly(a, id)
    requires next.Moved? && WorkerStep(cfg, g, w, id, a) == next
    ensures Leads(cfg, id, g0, w0, next.g, next.w)
  {
    hide WorkerStep;
    assert [a][1..] == [];
    assert Run(cfg, id, g, w, [a]) == Run(cfg, id, next.g, next.w, []) == next;
    assert Leads(cfg, id, g, w, next.g, next.w);
    Joins(cfg, id, g0, w0, g, w, next.g, next.w);
  }

  function Main(id: WorkerId, pick: Slot): Action { ActMain(id, Choice(pick, false)) }

  function Pipe(id: WorkerId): Action { ActPipe(id, Choice(Empty, false)) }

  function Reader(id: WorkerId, j: Job): Action { ActRead(id, j, false) }

  // ---- The main loop

  /** It takes the job that the queue hands out. */
  lemma Takes(cfg: Config, id: WorkerId, g: Shared, w: Worker, j: Job)
    requires w.main == Loop && !w.closed && j in w.ledger.queue
    ensures Leads(cfg, id, g, w, g, w.(main := LoadEnabled(j), ledger := w.ledger.Pop(j)))
  {
    hide Leads, PipeStep, ReadStep, WriteStep, ShutdownStep, ResidueStep;
    Stands(cfg, id, g, w);
    var w1 := w.(main := Poll);
    Turn(cfg, id, g, w, g, w, Main(id, Empty), Moved(g, w1));
    Turn(cfg, id, g, w, g, w1, Main(id, Full(j)), Moved(g, w.(main := LoadEnabled(j), ledger := w.ledger.Pop(j))));
  }

  /** Where run and execWithRW send a job: to the pipeline exactly reads while RW mode is on and not
      being switched off, to serial execution everything while it is off, to execWrite the rest. */
  function RouteOf(g: Shared, j: Job): MainPc
  {
    if g.disabling || (g.enabled && !j.read) then MainWrite(j, LoadTarget)
    else if g.enabled then Dispatch(j) else Serial(j, false)
  }

  lemma Routes(cfg: Config, id: WorkerId, g: Shared, w: Worker, j: Job)
    requires w.main == LoadEnabled(j)
    ensures Leads(cfg, id, g, w, g, w.(main := RouteOf(g, j)))
  {
    hide Leads, PipeStep, ReadStep, WriteStep, ShutdownStep, ResidueStep;
    Stands(cfg, id, g, w);
    var w1 := w.(main := if g.enabled then CheckEnabled(j) else LoadDisabling(j));
    Turn(cfg, id, g, w, g, w, Main(id, Empty), Moved(g, w1));
    if g.enabled {
      var w2 := w.(main := if j.read then CheckDisabling(j) else MainWrite(j, LoadTarget));
      Turn(cfg, id, g, w, g, w1, Main(id, Empty), Moved(g, w2));
      if j.read { Turn(cfg, id, g, w, g, w2, Main(id, Empty), Moved(g, w.(main := RouteOf(g, j)))); }
    } else {
      var w2 := w.(main := if g.disabling then CheckEnabled(j) else Serial(j, false));
      Turn(cfg, id, g, w, g, w1, Main(id, Empty), Moved(g, w2));
      if g.disabling { Turn(cfg, id, g, w, g, w2, Main(id, Empty), Moved(g, w.(main := RouteOf(g, j)))); }
    }
  }

  /** dispatchRead: a read finds room in readCh, or is discarded at once and counted as launched. */
  lemma Dispatches(cfg: Config, id: WorkerId, g: Shared, w: Worker, j: Job)
    requires w.main == Dispatch(j)
    ensures var flow := w.flow.(dispatched := w.flow.dispatched + 1);
            var sent := flow.(channel := flow.channel + [j]);
            var counted := flow.(launched := flow.launched + 1);
            Leads(cfg, id, g, w, g,
                  if |w.flow.channel| < cfg.channelCap then
                    w.(main := Loop, flow := sent, ledger := w.ledger.Move(j, InChannel))
                  else w.(main := Loop, flow := counted, ledger := w.ledger.Settle(j, Discarded)))
  {
    hide Leads, PipeStep, ReadStep, WriteStep, ShutdownStep, ResidueStep;
    Stands(cfg, id, g, w);
    var flow := w.flow.(dispatched := w.flow.dispatched + 1);
    var w1 := w.(main := Send(j), flow := flow);
    Turn(cfg, id, g, w, g, w, Main(id, Empty), Moved(g, w1));
    if |w.flow.channel| < cfg.channelCap {
      var w2 := w.(main := Loop, flow := flow.(channel := flow.channel + [j]), ledger := w.ledger.Move(j, InChannel));
      Turn(cfg, id, g, w, g, w1, Main(id, Empty), Moved(g, w2));
    } else {
      var w2 := w.(main := Overflow(j), flow := flow);
      Turn(cfg, id, g, w, g, w1, Main(id, Empty), Moved(g, w2));
      var w3 := w.(main := Reject(j), flow := flow.(launched := flow.launched + 1));
      Turn(cfg, id, g, w, g, w2, Main(id, Empty), Moved(g, w3));
      Turn(cfg, id, g, w, g, w3, Main(id, Empty), Moved(g, w3.(main := Loop, ledger := w.ledger.Settle(j, Discarded))));
    }
  }

  /** Serial execution. */
  lemma Serves(cfg: Config, id: WorkerId, g: Shared, w: Worker, j: Job)
    requires w.main == Serial(j, false)
    ensures Leads(cfg, id, g, w, g, w.(main := Loop, ledger := w.ledger.Settle(j, Executed)))
  {
    hide Leads, PipeStep, ReadStep, WriteStep, ShutdownStep, ResidueStep;
    Stands(cfg, id, g, w);
    var w1 := w.(main := Serial(j, true));
    Turn(cfg, id, g, w, g, w, Main(id, Empty), Moved(g, w1));
    Turn(cfg, id, g, w, g, w1, Main(id, Empty), Moved(g, w.(main := Loop, ledger := w.ledger.Settle(j, Executed))));
  }

  // ---- execWrite

  /** With every read launched and the lock free execWrite executes its job and leaves the lock and
      writeRequested as they were. */
  lemma WritesOnMain(cfg: Config, id: WorkerId, g: Shared, w: Worker, j: Job)
    requires w.main == MainWrite(j, LoadTarget) && w.flow.dispatched <= w.flow.launched && g.Free()
    ensures Leads(cfg, id, g, w, g, w.(main := Loop, ledger := w.ledger.Settle(j, Executed)))
  {
    hide Leads, WorkerStep, WriteStep;
    var held := g.(writer := MainOf(id));
    var r := w.(writeRequested := w.writeRequested + 1, main := MainWrite(j, Hold(false)));
    MainTakesLock(cfg, id, g, w, j);
    MainFinishes(cfg, id, held, r, j);
    Joins(cfg, id, g, w, held, r, g, w.(main := Loop, ledger := w.ledger.Settle(j, Executed)));
  }

  lemma MainTakesLock(cfg: Config, id: WorkerId, g: Shared, w: Worker, j: Job)
    requires w.main == MainWrite(j, LoadTarget) && w.flow.dispatched <= w.flow.launched && g.Free()
    ensures Leads(cfg, id, g, w, g.(writer := MainOf(id)),
                  w.(writeRequested := w.writeRequested + 1, main := MainWrite(j, Hold(false))))
  {
    hide Leads, WorkerStep;
    Stands(cfg, id, g, w);
    var held := g.(writer := MainOf(id));
    var r := w.(writeRequested := w.writeRequested + 1);
    MainTurn(cfg, id, g, w, g, w, j, LoadTarget, AwaitLaunch(w.flow.dispatched), g, w);
    MainTurn(cfg, id, g, w, g, w, j, AwaitLaunch(w.flow.dispatched), Request, g, w);
    MainTurn(cfg, id, g, w, g, w, j, Request, TryLock, g, r);
    MainTurn(cfg, id, g, w, g, r, j, TryLock, Hold(false), held, r);
  }

  lemma MainFinishes(cfg: Config, id: WorkerId, g: Shared, w: Worker, j: Job)
    requires w.main == MainWrite(j, Hold(false)) && g.writer == MainOf(id)
    ensures Leads(cfg, id, g, w, g.(writer := Nobody),
                  w.(writeRequested := w.writeRequested - 1, ledger := w.ledger.Settle(j, Executed), main := Loop))
  {
    hide Leads, WorkerStep;
    Stands(cfg, id, g, w);
    var free := g.(writer := Nobody);
    var done := w.(ledger := w.ledger.Settle(j, Executed));
    var out := done.(writeRequested := w.writeRequested - 1);
    MainTurn(cfg, id, g, w, g, w, j, Hold(false), Hold(true), g, w);
    MainTurn(cfg, id, g, w, g, w, j, Hold(true), Unlock, g, done);
    MainTurn(cfg, id, g, w, g, done, j, Unlock, Unrequest, free, done);
    MainTurn(cfg, id, g, w, free, done, j, Unrequest, Returned, free, out);
  }

  /** One step of execWrite on the main loop; what it does to the rest of the worker is in `w1`. */
  lemma MainTurn(
    cfg: Config, id: WorkerId, g0: Shared, w0: Worker, g: Shared, w: Worker, j: Job, pc: WritePc, next: WritePc,
    g1: Shared, w1: Worker)
    requires Leads(cfg, id, g0, w0, g, w.(main := MainWrite(j, pc))) && !pc.Returned?
    requires var r := WriteStep(g, w, MainOf(id), j, pc, false);
             && r.next == next && g1 == g.(writer := r.writer)
             && w1 == w.(writeRequested := r.requested, ledger := r.ledger)
    ensures Leads(cfg, id, g0, w0, g1, w1.(main := if next.Returned? then Loop else MainWrite(j, next)))
  {
    hide Leads, PipeStep, ReadStep, LoopStep, ShutdownStep, ResidueStep;
    var v := w1.(main := if next.Returned? then Loop else MainWrite(j, next));
    Turn(cfg, id, g0, w0, g, w.(main := MainWrite(j, pc)), Main(id, Empty), Moved(g1, v));
  }

  lemma WritesOnPipe(cfg: Config, id: WorkerId, g: Shared, w: Worker, j: Job)
    requires w.pipe == PipeWrite(j, LoadTarget) && w.flow.dispatched <= w.flow.launched && g.Free()
    ensures Leads(cfg, id, g, w, g, w.(pipe := Recv, ledger := w.ledger.Settle(j, Executed)))
  {
    hide Leads, WorkerStep, WriteStep;
    var held := g.(writer := PipeOf(id));
    var r := w.(writeRequested := w.writeRequested + 1, pipe := PipeWrite(j, Hold(false)));
    PipeTakesLock(cfg, id, g, w, j);
    PipeFinishes(cfg, id, held, r, j);
    Joins(cfg, id, g, w, held, r, g, w.(pipe := Recv, ledger := w.ledger.Settle(j, Executed)));
  }

  lemma PipeTakesLock(cfg: Config, id: WorkerId, g: Shared, w: Worker, j: Job)
    requires w.pipe == PipeWrite(j, LoadTarget) && w.flow.dispatched <= w.flow.launched && g.Free()
    ensures Leads(cfg, id, g, w, g.(writer := PipeOf(id)),
                  w.(writeRequested := w.writeRequested + 1, pipe := PipeWrite(j, Hold(false))))
  {
    hide Leads, WorkerStep;
    Stands(cfg, id, g, w);
    var held := g.(writer := PipeOf(id));
    var r := w.(writeRequested := w.writeRequested + 1);
    PipeTurn(cfg, id, g, w, g, w, j, LoadTarget, AwaitLaunch(w.flow.dispatched), g, w);
    PipeTurn(cfg, id, g, w, g, w, j, AwaitLaunch(w.flow.dispatched), Request, g, w);
    PipeTurn(cfg, id, g, w, g, w, j, Request, TryLock, g, r);
    PipeTurn(cfg, id, g, w, g, r, j, TryLock, Hold(false), held, r);
  }

  lemma PipeFinishes(cfg: Config, id: WorkerId, g: Shared, w: Worker, j: Job)
    requires w.pipe == PipeWrite(j, Hold(false)) && g.writer == PipeOf(id)
    ensures Leads(cfg, id, g, w, g.(writer := Nobody),
                  w.(writeRequested := w.writeRequested - 1, ledger := w.ledger.Settle(j, Executed), pipe := Recv))
  {
    hide Leads, WorkerStep;
    Stands(cfg, id, g, w);
    var free := g.(writer := Nobody);
    var done := w.(ledger := w.ledger.Settle(j, Executed));
    var out := done.(writeRequested := w.writeRequested - 1);
    PipeTurn(cfg, id, g, w, g, w, j, Hold(false), Hold(true), g, w);
    PipeTurn(cfg, id, g, w, g, w, j, Hold(true), Unlock, g, done);
    PipeTurn(cfg, id, g, w, g, done, j, Unlock, Unrequest, free, done);
    PipeTurn(cfg, id, g, w, free, done, j, Unrequest, Returned, free, out);
  }

  lemma PipeTurn(
    cfg: Config, id: WorkerId, g0: Shared, w0: Worker, g: Shared, w: Worker, j: Job, pc: WritePc, next: WritePc,
    g1: Shared, w1: Worker)
    requires Leads(cfg, id, g0, w0, g, w.(pipe := PipeWrite(j, pc))) && !pc.Returned?
    requires var r := WriteStep(g, w, PipeOf(id), j, pc, false);
             && r.next == next && g1 == g.(writer := r.writer)
             && w1 == w.(writeRequested := r.requested, ledger := r.ledger)
    ensures Leads(cfg, id, g0, w0, g1, w1.(pipe := if next.Returned? then Recv else PipeWrite(j, next)))
  {
    hide Leads, MainStep, ReadStep, GateStep, RegisterStep;
    var v := w1.(pipe := if next.Returned? then Recv else PipeWrite(j, next));
    Turn(cfg, id, g0, w0, g, w.(pipe := PipeWrite(j, pc)), Pipe(id), Moved(g1, v));
  }

  // ---- The pipeline and the read goroutine

  /** The gates are open: no write requested, a token left, no writer. */
  predicate GatesOpen(cfg: Config, g: Shared, w: Worker)
  {
    w.writeRequested <= 0 && TokenLeft(cfg, g) && g.writer == Nobody
  }

  /** It takes the first read of the channel through the gates. */
  lemma Receives(cfg: Config, id: WorkerId, g: Shared, w: Worker)
    requires w.pipe == Recv && w.flow.channel != [] && GatesOpen(cfg, g, w)
    ensures var j := w.flow.channel[0];
            Leads(cfg, id, g, w, g.(tokens := g.tokens + {PipeOf(id)}, readers := g.readers + {PipeOf(id)}),
                  w.(flow := w.flow.(channel := w.flow.channel[1..]), ledger := w.ledger.Move(j, AtPipe),
                     pipe := Recheck(j)))
  {
    hide Leads, MainStep, ReadStep, WriteStep, RegisterStep;
    Stands(cfg, id, g, w);
    var j := w.flow.channel[0];
    var v := w.(flow := w.flow.(channel := w.flow.channel[1..]), ledger := w.ledger.Move(j, AtPipe));
    Turn(cfg, id, g, w, g, w, Pipe(id), Moved(g, v.(pipe := Gate(j))));
    Turn(cfg, id, g, w, g, v.(pipe := Gate(j)), Pipe(id), Moved(g, v.(pipe := GateWriter(j))));
    Turn(cfg, id, g, w, g, v.(pipe := GateWriter(j)), Pipe(id), Moved(g, v.(pipe := GateToken(j))));
    var g1 := g.(tokens := g.tokens + {PipeOf(id)});
    Turn(cfg, id, g, w, g, v.(pipe := GateToken(j)), Pipe(id), Moved(g1, v.(pipe := AcquireRead(j))));
    var g2 := g1.(readers := g.readers + {PipeOf(id)});
    Turn(cfg, id, g, w, g1, v.(pipe := AcquireRead(j)), Pipe(id), Moved(g2, v.(pipe := Recheck(j))));
  }

  /** With the mode on it registers the read, counts it and spawns its goroutine, which takes over
      the read lock and the token. */
  lemma Spawns(cfg: Config, id: WorkerId, g: Shared, w: Worker, j: Job)
    requires w.pipe == Recheck(j) && g.enabled
    ensures Leads(cfg, id, g, w,
                  g.(readers := g.readers - {PipeOf(id)} + {ReaderOf(id, j)},
                     tokens := g.tokens - {PipeOf(id)} + {ReaderOf(id, j)}),
                  w.(flow := w.flow.(launched := w.flow.launched + 1), ledger := w.ledger.Move(j, AtReader),
                     pipe := Recv,
                     crowd := Crowd(w.crowd.inflight + {j}, w.crowd.group + {j}, w.crowd.tasks[j := Ready])))
  {
    hide Leads, MainStep, ReadStep, WriteStep, GateStep;
    Stands(cfg, id, g, w);
    Turn(cfg, id, g, w, g, w, Pipe(id), Moved(g, w.(pipe := AddGroup(j))));
    var w1 := w.(crowd := w.crowd.(group := w.crowd.group + {j}), pipe := AddInflight(j));
    Turn(cfg, id, g, w, g, w.(pipe := AddGroup(j)), Pipe(id), Moved(g, w1));
    var w2 := w1.(crowd := w1.crowd.(inflight := w.crowd.inflight + {j}), pipe := CountLaunch(j));
    Turn(cfg, id, g, w, g, w1, Pipe(id), Moved(g, w2));
    var w3 := w2.(flow := w.flow.(launched := w.flow.launched + 1), pipe := Spawn(j));
    Turn(cfg, id, g, w, g, w2, Pipe(id), Moved(g, w3));
    Turn(cfg, id, g, w, g, w3, Pipe(id), PipeStep(cfg, g, w3, id, Choice(Empty, false)));
  }

  /** With the mode off it gives lock and token back, counts the read and turns it into a write. */
  lemma Downgrades(cfg: Config, id: WorkerId, g: Shared, w: Worker, j: Job)
    requires w.pipe == Recheck(j) && !g.enabled
    ensures Leads(cfg, id, g, w, g.(readers := g.readers - {PipeOf(id)}, tokens := g.tokens - {PipeOf(id)}),
                  w.(flow := w.flow.(launched := w.flow.launched + 1), downgrades := w.downgrades + 1,
                     pipe := PipeWrite(j, LoadTarget)))
  {
    hide Leads, MainStep, ReadStep, WriteStep, GateStep;
    Stands(cfg, id, g, w);
    var g1 := g.(readers := g.readers - {PipeOf(id)});
    var g2 := g1.(tokens := g.tokens - {PipeOf(id)});
    Turn(cfg, id, g, w, g, w, Pipe(id), Moved(g, w.(pipe := DropRead(j))));
    Turn(cfg, id, g, w, g, w.(pipe := DropRead(j)), Pipe(id), Moved(g1, w.(pipe := DropToken(j))));
    Turn(cfg, id, g, w, g1, w.(pipe := DropToken(j)), Pipe(id), Moved(g2, w.(pipe := CountDowngrade(j))));
    Turn(cfg, id, g, w, g2, w.(pipe := CountDowngrade(j)), Pipe(id),
         PipeStep(cfg, g2, w.(pipe := CountDowngrade(j)), id, Choice(Empty, false)));
  }

  /** The read goroutine of `j` is at `pc`. */
  function At(w: Worker, j: Job, pc: ReadPc): Worker { w.(crowd := w.crowd.(tasks := w.crowd.tasks[j := pc])) }

  lemma AtTwice(w: Worker, j: Job, pc: ReadPc, next: ReadPc)
    ensures At(At(w, j, pc), j, next) == At(w, j, next)
  {
    assert w.crowd.tasks[j := pc][j := next] == w.crowd.tasks[j := next];
  }

  /** A read goroutine executes its job. */
  lemma ReadExecutes(cfg: Config, id: WorkerId, g: Shared, w: Worker, j: Job)
    requires j in w.crowd.tasks && w.crowd.tasks[j] == Ready
    ensures Leads(cfg, id, g, w, g, At(w, j, GiveToken).(ledger := w.ledger.Settle(j, Executed)))
  {
    hide Leads, MainStep, PipeStep;
    Stands(cfg, id, g, w);
    Turn(cfg, id, g, w, g, w, Reader(id, j), Moved(g, At(w, j, Running)));
    AtTwice(w, j, Running, GiveToken);
    Turn(cfg, id, g, w, g, At(w, j, Running), Reader(id, j),
         Moved(g, At(w, j, GiveToken).(ledger := w.ledger.Settle(j, Executed))));
  }

  /** And leaves nothing behind: token, read lock, counter and group. */
  lemma ReadLeaves(cfg: Config, id: WorkerId, g: Shared, w: Worker, j: Job)
    requires j in w.crowd.tasks && w.crowd.tasks[j] == GiveToken
    ensures Leads(cfg, id, g, w, g.(tokens := g.tokens - {ReaderOf(id, j)}, readers := g.readers - {ReaderOf(id, j)}),
                  w.(crowd := Crowd(w.crowd.inflight - {j}, w.crowd.group - {j}, w.crowd.tasks - {j})))
  {
    hide Leads, MainStep, PipeStep;
    Stands(cfg, id, g, w);
    var g1 := g.(tokens := g.tokens - {ReaderOf(id, j)});
    var g2 := g1.(readers := g.readers - {ReaderOf(id, j)});
    Turn(cfg, id, g, w, g, w, Reader(id, j), Moved(g1, At(w, j, ReleaseRead)));
    AtTwice(w, j, ReleaseRead, DecInflight);
    Turn(cfg, id, g, w, g1, At(w, j, ReleaseRead), Reader(id, j), Moved(g2, At(w, j, DecInflight)));
    AtTwice(w, j, DecInflight, DoneGroup);
    var out := w.(crowd := w.crowd.(inflight := w.crowd.inflight - {j}));
    Turn(cfg, id, g, w, g2, At(w, j, DecInflight), Reader(id, j), Moved(g2, At(out, j, DoneGroup)));
    assert w.crowd.tasks[j := DoneGroup] - {j} == w.crowd.tasks - {j};
    var gone := w.(crowd := Crowd(w.crowd.inflight - {j}, w.crowd.group - {j}, w.crowd.tasks - {j}));
    Turn(cfg, id, g, w, g2, At(out, j, DoneGroup), Reader(id, j), Moved(g2, gone));
  }

  // ---- The drain

  /** What the drain does with a job it settles: it executes it under DrainExecute unless the stop
      timed out; otherwise it discards it, silently when it is unsafe. */
  function Treatment(cfg: Config, w: Worker, m: DrainMode): Outcome
  {
    if cfg.drainExecutes && !w.timedOut then Executed else if m.unsafe then Dropped else Discarded
  }

  /** The job is settled where it stands in the drain. */
  lemma DrainSettles(cfg: Config, id: WorkerId, g: Shared, w: Worker, m: DrainMode, j: Job)
    ensures Leads(cfg, id, g, w.(main := Drain(Residue(m, SettleQueued(j, false)))),
                  g, w.(main := Drain(Residue(m, TakeQueued)), ledger := w.ledger.Settle(j, Treatment(cfg, w, m))))
    ensures Leads(cfg, id, g, w.(main := Drain(Residue(m, SettlePending(j, false)))),
                  g, w.(main := Drain(Residue(m, ClearPending)), ledger := w.ledger.Settle(j, Treatment(cfg, w, m))))
  {
    hide Leads, LoopStep, WriteStep, ShutdownStep, PipeStep, ReadStep;
    var q := w.(main := Drain(Residue(m, SettleQueued(j, false))));
    var p := w.(main := Drain(Residue(m, SettlePending(j, false))));
    Stands(cfg, id, g, q);
    Stands(cfg, id, g, p);
    var l := w.ledger.Settle(j, Treatment(cfg, w, m));
    var q' := w.(main := Drain(Residue(m, TakeQueued)), ledger := l);
    var p' := w.(main := Drain(Residue(m, ClearPending)), ledger := l);
    if cfg.drainExecutes && !w.timedOut {
      var q1 := w.(main := Drain(Residue(m, SettleQueued(j, true))));
      var p1 := w.(main := Drain(Residue(m, SettlePending(j, true))));
      Turn(cfg, id, g, q, g, q, Main(id, Empty), Moved(g, q1));
      Turn(cfg, id, g, p, g, p, Main(id, Empty), Moved(g, p1));
      Turn(cfg, id, g, q, g, q1, Main(id, Empty), Moved(g, q'));
      Turn(cfg, id, g, p, g, p1, Main(id, Empty), Moved(g, p'));
    } else {
      Turn(cfg, id, g, q, g, q, Main(id, Empty), Moved(g, q'));
      Turn(cfg, id, g, p, g, p, Main(id, Empty), Moved(g, p'));
    }
  }

  /** `l'` is `l` after every job of the queue was settled as `how`. */
  ghost predicate Emptied(l: Ledger, l': Ledger, how: Outcome)
  {
    && l'.queue == {} && l'.pending == l.pending
    && (forall j :: j in l.queue ==> l'.At(j, Settled(how)) && l'.Releases(j) == l.Releases(j) + 1)
    && (forall j :: j !in l.queue ==>
          && (j in l'.place <==> j in l.place) && (j in l.place ==> l'.place[j] == l.place[j])
          && l'.Releases(j) == l.Releases(j))
  }

  lemma EmptiedMore(l: Ledger, j: Job, l': Ledger, how: Outcome)
    requires j in l.queue && Emptied(l.Pop(j).Settle(j, how), l', how)
    ensures Emptied(l, l', how)
  {
    var m := l.Pop(j).Settle(j, how);
    assert m.queue == l.queue - {j};
  }

  /** DrainAll settles the whole queue. */
  lemma {:induction false} DrainsQueue(cfg: Config, id: WorkerId, g: Shared, w: Worker, m: DrainMode)
    returns (l: Ledger)
    requires w.main == Drain(Residue(m, TakeQueued))
    ensures Leads(cfg, id, g, w, g, w.(ledger := l)) && Emptied(w.ledger, l, Treatment(cfg, w, m))
    decreases |w.ledger.queue|
  {
    hide Leads, LoopStep, WriteStep, ShutdownStep, PipeStep, ReadStep;
    Stands(cfg, id, g, w);
    if w.ledger.queue == {} { return w.ledger; }
    var j :| j in w.ledger.queue;
    var v := w.(ledger := w.ledger.Pop(j));
    var u := v.(main := Drain(Residue(m, SettleQueued(j, false))));
    Turn(cfg, id, g, w, g, w, Main(id, Full(j)), Moved(g, u));
    DrainSettles(cfg, id, g, v, m, j);
    var next := w.(ledger := v.ledger.Settle(j, Treatment(cfg, w, m)));
    Joins(cfg, id, g, w, g, u, g, next);
    assert next.ledger.queue == w.ledger.queue - {j};
    l := DrainsQueue(cfg, id, g, next, m);
    Joins(cfg, id, g, w, g, next, g, w.(ledger := l));
    EmptiedMore(w.ledger, j, l, Treatment(cfg, w, m));
  }

  /** The drain mode that is chosen when something is left, or nothing is. */
  function Mode(g: Shared, w: Worker): DrainMode
  {
    var residual := w.ledger.pending.Full? || w.ledger.queue != {};
    DrainMode(g.enabled && residual && w.timedOut, g.enabled && residual && !w.timedOut)
  }

  /** A closed worker without reads in flight gets through the waits of its drain, and takes the lock
      exactly when it has something left in RW mode. */
  lemma Chooses(cfg: Config, id: WorkerId, g: Shared, w: Worker)
    requires w.main == Loop && w.closed && w.pipe.Exited? && w.crowd.inflight == {} && w.crowd.group == {} && g.Free()
    ensures var m := Mode(g, w);
            Leads(cfg, id, g, w, if m.locked then g.(writer := MainOf(id)) else g,
                  w.(main := Drain(Residue(m, TakePending)), flow := w.flow.(shut := true)))
  {
    hide Leads, PipeStep, ReadStep, WriteStep, ResidueStep;
    var m, residual := Mode(g, w), w.ledger.pending.Full? || w.ledger.queue != {};
    var v := w.(flow := w.flow.(shut := true));
    Stands(cfg, id, g, w);
    Turn(cfg, id, g, w, g, w, Main(id, Empty), Moved(g, w.(main := Drain(Shutdown(CloseChannel)))));
    Turn(cfg, id, g, w, g, w.(main := Drain(Shutdown(CloseChannel))), Main(id, Empty),
         Moved(g, v.(main := Drain(Shutdown(AwaitPipe)))));
    Ticks(cfg, id, g, w, v, AwaitPipe, DrainEnabled);
    if g.enabled {
      Ticks(cfg, id, g, w, v, DrainEnabled, AwaitInflight);
      Ticks(cfg, id, g, w, v, AwaitInflight, AwaitGroup);
      Ticks(cfg, id, g, w, v, AwaitGroup, Residual);
    } else {
      Ticks(cfg, id, g, w, v, DrainEnabled, Residual);
    }
    Ticks(cfg, id, g, w, v, Residual, ChooseLock(residual));
    var u := v.(main := Drain(Residue(m, TakePending)));
    if m.locked {
      Ticks(cfg, id, g, w, v, ChooseLock(residual), AcquireLock);
      Turn(cfg, id, g, w, g, v.(main := Drain(Shutdown(AcquireLock))), Main(id, Empty),
           Moved(g.(writer := MainOf(id)), u));
    } else {
      Turn(cfg, id, g, w, g, v.(main := Drain(Shutdown(ChooseLock(residual)))), Main(id, Empty), Moved(g, u));
    }
  }

  lemma Ticks(cfg: Config, id: WorkerId, g: Shared, w: Worker, v: Worker, d: ShutdownPc, next: ShutdownPc)
    requires Leads(cfg, id, g, w, g, v.(main := Drain(Shutdown(d))))
    requires ShutdownStep(g, v.(main := Drain(Shutdown(d))), id, d, Choice(Empty, false)) ==
             Moved(g, v.(main := Drain(Shutdown(next))))
    ensures Leads(cfg, id, g, w, g, v.(main := Drain(Shutdown(next))))
  {
    hide Leads, PipeStep, ReadStep, WriteStep, LoopStep, ResidueStep, ShutdownStep;
    Turn(cfg, id, g, w, g, v.(main := Drain(Shutdown(d))), Main(id, Empty),
         Moved(g, v.(main := Drain(Shutdown(next)))));
  }

  /** pendingJob first. */
  lemma DrainsPending(cfg: Config, id: WorkerId, g: Shared, w: Worker, m: DrainMode)
    requires w.main == Drain(Residue(m, TakePending))
    ensures var l := w.ledger;
            var l' := if l.pending.Empty? then l else l.Settle(l.pending.job, Treatment(cfg, w, m)).(pending := Empty);
            Leads(cfg, id, g, w, g, w.(main := Drain(Residue(m, TakeQueued)), ledger := l'))
  {
    hide Leads, LoopStep, WriteStep, ShutdownStep, PipeStep, ReadStep;
    Stands(cfg, id, g, w);
    var l := w.ledger;
    if l.pending.Empty? {
      Turn(cfg, id, g, w, g, w, Main(id, Empty), Moved(g, w.(main := Drain(Residue(m, TakeQueued)))));
      return;
    }
    var j := l.pending.job;
    var w1 := w.(main := Drain(Residue(m, LoadPending)));
    Turn(cfg, id, g, w, g, w, Main(id, Empty), Moved(g, w1));
    var w2 := w.(main := Drain(Residue(m, SettlePending(j, false))));
    Turn(cfg, id, g, w, g, w1, Main(id, Empty), Moved(g, w2));
    DrainSettles(cfg, id, g, w, m, j);
    var w3 := w.(main := Drain(Residue(m, ClearPending)), ledger := l.Settle(j, Treatment(cfg, w, m)));
    Joins(cfg, id, g, w, g, w2, g, w3);
    Turn(cfg, id, g, w, g, w3, Main(id, Empty),
         Moved(g, w3.(main := Drain(Residue(m, TakeQueued)), ledger := w3.ledger.(pending := Empty))));
  }

  /** Alone, a closed worker without reads in flight runs its deferred function to the end: pendingJob
      and every queued job are settled, executed under DrainExecute unless the stop timed out, and
      the lock is free again. */
  lemma DrainsAll(cfg: Config, id: WorkerId, g: Shared, w: Worker) returns (l: Ledger)
    requires w.main == Loop && w.closed && w.pipe.Exited? && w.crowd.inflight == {} && w.crowd.group == {} && g.Free()
    ensures Leads(cfg, id, g, w, g, w.(main := Done, flow := w.flow.(shut := true), ledger := l))
    ensures var how, p := Treatment(cfg, w, Mode(g, w)), w.ledger.pending;
            var first := if p.Full? then w.ledger.Settle(p.job, how).(pending := Empty) else w.ledger;
            Emptied(first, l, how)
  {
    hide Leads, PipeStep, ReadStep, WriteStep, LoopStep, ShutdownStep, Emptied;
    var m := Mode(g, w);
    var g1 := if m.locked then g.(writer := MainOf(id)) else g;
    var w1 := w.(main := Drain(Residue(m, TakePending)), flow := w.flow.(shut := true));
    Chooses(cfg, id, g, w);
    DrainsPending(cfg, id, g1, w1, m);
    var p := w.ledger.pending;
    var first := if p.Full? then w.ledger.Settle(p.job, Treatment(cfg, w, m)).(pending := Empty) else w.ledger;
    var w2 := w1.(main := Drain(Residue(m, TakeQueued)), ledger := first);
    Joins(cfg, id, g, w, g1, w1, g1, w2);
    l := DrainsQueue(cfg, id, g1, w2, m);
    var w3 := w2.(ledger := l);
    Joins(cfg, id, g, w, g1, w2, g1, w3);
    assert l.queue == {} by { EmptiedQueue(first, l, Treatment(cfg, w, m)); }
    if m.locked {
      var w4 := w3.(main := Drain(Residue(m, ReleaseLock)));
      Turn(cfg, id, g, w, g1, w3, Main(id, Empty), Moved(g1, w4));
      Turn(cfg, id, g, w, g1, w4, Main(id, Empty), Moved(g, w4.(main := Done)));
    } else {
      Turn(cfg, id, g, w, g1, w3, Main(id, Empty), Moved(g1, w3.(main := Done)));
    }
  }

  lemma EmptiedQueue(l: Ledger, l': Ledger, how: Outcome)
    requires Emptied(l, l', how)
    ensures l'.queue == {}
  {
  }

  // ---- A whole service

  /** With RW mode off for good a queued job is executed by the main loop. */
  lemma ServesSerially(cfg: Config, id: WorkerId, g: Shared, w: Worker, j: Job)
    requires w.main == Loop && !w.closed && j in w.ledger.queue && !g.enabled && !g.disabling
    ensures Leads(cfg, id, g, w, g, w.(ledger := w.ledger.Pop(j).Settle(j, Executed)))
  {
    hide Leads;
    var v := w.(ledger := w.ledger.Pop(j));
    Takes(cfg, id, g, w, j);
    Routes(cfg, id, g, v.(main := LoadEnabled(j)), j);
    Joins(cfg, id, g, w, g, v.(main := LoadEnabled(j)), g, v.(main := Serial(j, false)));
    Serves(cfg, id, g, v.(main := Serial(j, false)), j);
    Joins(cfg, id, g, w, g, v.(main := Serial(j, false)), g, v.(main := Loop, ledger := v.ledger.Settle(j, Executed)));
  }

  /** In RW mode a queued write is executed under the lock once the reads before it are launched, and
      so is every job while the mode is being switched off. */
  lemma ServesWrite(cfg: Config, id: WorkerId, g: Shared, w: Worker, j: Job)
    requires w.main == Loop && !w.closed && j in w.ledger.queue && (g.disabling || (g.enabled && !j.read))
    requires w.flow.dispatched <= w.flow.launched && g.Free()
    ensures Leads(cfg, id, g, w, g, w.(ledger := w.ledger.Pop(j).Settle(j, Executed)))
  {
    hide Leads;
    var v := w.(ledger := w.ledger.Pop(j));
    Takes(cfg, id, g, w, j);
    Routes(cfg, id, g, v.(main := LoadEnabled(j)), j);
    Joins(cfg, id, g, w, g, v.(main := LoadEnabled(j)), g, v.(main := MainWrite(j, LoadTarget)));
    WritesOnMain(cfg, id, g, v.(main := MainWrite(j, LoadTarget)), j);
    Joins(cfg, id, g, w, g, v.(main := MainWrite(j, LoadTarget)),
          g, v.(main := Loop, ledger := v.ledger.Settle(j, Executed)));
  }

  /** In RW mode a queued read goes through the channel and the pipeline to a goroutine of its own,
      which executes it and leaves no trace but the two counters. */
  lemma ServesRead(cfg: Config, id: WorkerId, g: Shared, w: Worker, j: Job)
    requires w.main == Loop && !w.closed && j in w.ledger.queue && j.read && g.enabled && !g.disabling
    requires w.pipe == Recv && w.flow.channel == [] && cfg.channelCap > 0 && GatesOpen(cfg, g, w)
    requires !Reserved(g, id, j) && j !in w.crowd.inflight && j !in w.crowd.group && j !in w.crowd.tasks
    ensures var flow := w.flow.(dispatched := w.flow.dispatched + 1, launched := w.flow.launched + 1);
            Leads(cfg, id, g, w, g, w.(flow := flow, ledger := w.ledger.Pop(j).Settle(j, Executed)))
  {
    hide Leads;
    var l := w.ledger.Pop(j);
    var w1 := w.(main := LoadEnabled(j), ledger := l);
    Takes(cfg, id, g, w, j);
    Routes(cfg, id, g, w1, j);
    var w2 := w1.(main := Dispatch(j));
    Joins(cfg, id, g, w, g, w1, g, w2);
    Dispatches(cfg, id, g, w2, j);
    assert [] + [j] == [j];
    var w3 := w.(flow := w.flow.(dispatched := w.flow.dispatched + 1, channel := [j]), ledger := l.Move(j, InChannel));
    Joins(cfg, id, g, w, g, w2, g, w3);
    PipelineServes(cfg, id, g, w3, j);
    var flow := w.flow.(dispatched := w.flow.dispatched + 1, launched := w.flow.launched + 1);
    assert w3.ledger.Settle(j, Executed) == l.Settle(j, Executed);
    Joins(cfg, id, g, w, g, w3, g, w.(flow := flow, ledger := l.Settle(j, Executed)));
  }

  /** The pipeline of the worker or a goroutine for `j` holds the read lock or a token. */
  predicate Reserved(g: Shared, id: WorkerId, j: Job)
  {
    || PipeOf(id) in g.readers || PipeOf(id) in g.tokens || ReaderOf(id, j) in g.readers || ReaderOf(id, j) in g.tokens
  }

  lemma PipelineServes(cfg: Config, id: WorkerId, g: Shared, w: Worker, j: Job)
    requires w.pipe == Recv && w.flow.channel == [j] && GatesOpen(cfg, g, w) && g.enabled
    requires !Reserved(g, id, j) && j !in w.crowd.inflight && j !in w.crowd.group && j !in w.crowd.tasks
    ensures Leads(cfg, id, g, w, g, w.(flow := w.flow.(launched := w.flow.launched + 1, channel := []),
                                       ledger := w.ledger.Settle(j, Executed)))
  {
    hide Leads;
    var g1 := g.(tokens := g.tokens + {PipeOf(id)}, readers := g.readers + {PipeOf(id)});
    assert [j][1..] == [];
    var w1 := w.(flow := w.flow.(channel := []), ledger := w.ledger.Move(j, AtPipe), pipe := Recheck(j));
    Receives(cfg, id, g, w);
    Spawns(cfg, id, g1, w1, j);
    var g2 := g.(readers := g.readers + {ReaderOf(id, j)}, tokens := g.tokens + {ReaderOf(id, j)});
    assert g1.readers - {PipeOf(id)} == g.readers && g1.tokens - {PipeOf(id)} == g.tokens;
    var w2 := w.(flow := w.flow.(launched := w.flow.launched + 1, channel := []), ledger := w1.ledger.Move(j, AtReader),
                 crowd := Crowd(w.crowd.inflight + {j}, w.crowd.group + {j}, w.crowd.tasks[j := Ready]));
    Joins(cfg, id, g, w, g1, w1, g2, w2);
    ReadExecutes(cfg, id, g2, w2, j);
    var w3 := At(w2, j, GiveToken).(ledger := w2.ledger.Settle(j, Executed));
    Joins(cfg, id, g, w, g2, w2, g2, w3);
    ReadLeaves(cfg, id, g2, w3, j);
    assert g2.readers - {ReaderOf(id, j)} == g.readers && g2.tokens - {ReaderOf(id, j)} == g.tokens;
    assert w3.crowd.inflight - {j} == w.crowd.inflight && w3.crowd.group - {j} == w.crowd.group;
    assert w3.crowd.tasks - {j} == w.crowd.tasks && w3.ledger == w.ledger.Settle(j, Executed);
    var w4 := w3.(crowd := w.crowd);
    Joins(cfg, id, g, w, g2, w3, g, w4);
  }

  // ---- In a run

  /** What the goroutines of a worker can do alone is a run of the system. */
  lemma {:induction false} AloneIsARun(
    cfg: Config, rw: bool, s: State, id: WorkerId, acts: seq<Action>, g: Shared, w: Worker) returns (s': State)
    requires Reachable(cfg, rw, s) && id in s.workers && Run(cfg, id, s.g, s.workers[id], acts) == Moved(g, w)
    ensures Reachable(cfg, rw, s')
    ensures s' == s.(g := g, workers := s.workers[id := w], torn := s'.torn)
    decreases |acts|
  {
    hide WorkerStep, Reachable;
    if acts == [] {
      assert s.workers[id := w] == s.workers;
      return s;
    }
    var r := WorkerStep(cfg, s.g, s.workers[id], id, acts[0]);
    var m := s.(g := r.g, workers := s.workers[id := r.w], torn := s.torn + TornBy(s, acts[0]));
    assert Submitted(acts[0]) == {} && s.used + {} == s.used;
    ReachableNext(cfg, rw, s, acts[0], m);
    s' := AloneIsARun(cfg, rw, m, id, acts[1..], g, w);
    assert m.workers[id := w] == s.workers[id := w];
  }

  lemma ReachableNext(cfg: Config, rw: bool, s: State, a: Action, s': State)
    requires Reachable(cfg, rw, s) && Step(cfg, rw, s, a) == Some(s')
    ensures Reachable(cfg, rw, s')
  {
    hide Step;
    var actions :| After(cfg, rw, Initial(rw), actions) == Some(s);
    AfterExtended(cfg, rw, Initial(rw), actions, a);
  }

  /** From every reachable state: if alone the worker gets somewhere, some run gets there. */
  lemma LeadsInRun(cfg: Config, rw: bool, s: State, id: WorkerId, g: Shared, w: Worker)
    requires Reachable(cfg, rw, s) && id in s.workers && Leads(cfg, id, s.g, s.workers[id], g, w)
    ensures exists s' :: && Reachable(cfg, rw, s') && s'.g == g && s'.workers == s.workers[id := w]
                         && s'.control == s.control && s'.snap == s.snap
  {
    hide Run, Reachable;
    var acts :| Run(cfg, id, s.g, s.workers[id], acts) == Moved(g, w);
    var s' := AloneIsARun(cfg, rw, s, id, acts, g, w);
  }
}
