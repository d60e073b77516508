/** Releases in runs with mode switches but without a rollback and without a stop timeout: whoever
    is about to settle the parked job has it to itself, so no job is released twice. */
module RWParked {
  import opened RWMachine
  import opened RWLocal
  import opened RWInvariant
  import opened RWFixed
  import opened RWRetired
  import opened RWSwitch
  import opened RWSlot
  import opened RWExecuted

  /** The main loop parks no more: it belongs to a closed worker and is past its last write, or the
      last switch is over (`serial`) and its job will be executed serially. */
  predicate MainOut(serial: bool, w: Worker)
  {
    || (w.closed && (w.main.Loop? || InShutdown(w.main)))
    || (serial && SerialOnly(w.main) && !InResidue(w.main) && !w.main.Done?)
  }

  /** The pipeline has had its straggler, or is gone: it parks no more. */
  predicate PipeOut(w: Worker) { w.pipe.Exited? || (w.downgrades >= 1 && !w.pipe.PipeWrite?) }

  /** Whoever is about to settle the parked job has it to itself. */
  ghost predicate Owners(serial: bool, w: Worker)
  {
    && (w.ledger.pending.Full? ==> MainOut(serial, w) || PipeOut(w))
    && (MainOld(w.main).Full? ==> w.ledger.pending == MainOld(w.main) && PipeOut(w))
    && (PipeOld(w.pipe).Full? ==> w.ledger.pending == PipeOld(w.pipe) && MainOut(serial, w))
    && (w.main.MainWrite? && Leaving(w.main.pc) ==> w.closed)
  }

  /** And it is not settled yet. */
  ghost predicate Unsettled(serial: bool, w: Worker)
  {
    && (w.ledger.pending.Full? && !w.ledger.At(w.ledger.pending.job, Parked) ==>
          (MainSets(w) && PipeOut(w)) || (PipeSets(w) && MainOut(serial, w)) || DrainClears(w))
    && (MainOld(w.main).Full? ==> w.ledger.At(MainOld(w.main).job, Parked))
    && (PipeOld(w.pipe).Full? ==> w.ledger.At(PipeOld(w.pipe).job, Parked))
  }

  ghost predicate Kept(serial: bool, w: Worker) { Owners(serial, w) && Unsettled(serial, w) && Once(w.ledger) }

  lemma FixedThenKept(cfg: Config, rw: bool, g: Shared, id: WorkerId, w: Worker, serial: bool)
    requires Local(cfg, rw, g, id, w) && Fixed(rw, w) && !w.timedOut
    ensures Kept(serial, w)
  {
    hide Counters, Locks, Places;
  }

  /** The end of the last switch only helps. */
  lemma KeptSerial(serial: bool, w: Worker)
    requires Kept(serial, w)
    ensures Kept(true, w)
  {
  }

  ghost predicate KeptAfter(serial: bool, r: LocalResult) { r.Moved? && !r.w.timedOut ==> Kept(serial, r.w) }

  /** At most one read is on its way to the pipeline or downgraded, or the main loop executes
      serially for good. */
  predicate Thin(serial: bool, w: Worker)
  {
    w.pipe.Exited? || Backlog(w) + w.downgrades <= 1 || (serial && SerialOnly(w.main))
  }

  /** After the last switch both flags are off. */
  predicate Modes(serial: bool, g: Shared) { serial ==> !g.enabled && !g.disabling }

  lemma OnceAfter(w: Worker, x: Shift, r: LocalResult)
    requires Places(w) && Once(w.ledger) && ShiftAfter(w, x, r) && r.Moved?
    requires x.LooseSettled? ==> w.ledger.At(x.job, Parked)
    ensures Once(r.w.ledger)
  {
    OnceKept(Seen(w), x);
  }

  // ---- The main loop

  lemma OwnersLoop(cfg: Config, serial: bool, g: Shared, w: Worker, id: WorkerId, c: Choice)
    requires Modes(serial, g) && Owners(serial, w) && Unsettled(serial, w)
    requires InLoop(w.main) && Quiet(w.main) && Untouched(w, MainStep(cfg, g, w, id, c))
    ensures var r := MainStep(cfg, g, w, id, c); Owners(serial, r.w) && Unsettled(serial, r.w)
  {
    hide WriteStep, ShutdownStep, ResidueStep;
  }

  lemma OwnersServe(cfg: Config, serial: bool, g: Shared, w: Worker, id: WorkerId, c: Choice)
    requires Modes(serial, g) && Owners(serial, w) && Unsettled(serial, w)
    requires InLoop(w.main) && !Quiet(w.main) && Untouched(w, MainStep(cfg, g, w, id, c))
    ensures var r := MainStep(cfg, g, w, id, c); Owners(serial, r.w) && Unsettled(serial, r.w)
  {
    hide WriteStep, ShutdownStep, ResidueStep;
  }

  lemma OwnersShutdown(cfg: Config, serial: bool, g: Shared, w: Worker, id: WorkerId, c: Choice)
    requires Owners(serial, w) && Unsettled(serial, w) && InShutdown(w.main) && Untouched(w, MainStep(cfg, g, w, id, c))
    requires w.closed && (PastPipe(w.main) ==> w.pipe.Exited?) && !MainStep(cfg, g, w, id, c).w.timedOut
    ensures var r := MainStep(cfg, g, w, id, c); Owners(serial, r.w) && Unsettled(serial, r.w)
  {
    hide LoopStep, WriteStep, ResidueStep;
  }

  /** execWrite up to the point where it settles or stores. */
  lemma OwnersWrite(cfg: Config, serial: bool, g: Shared, w: Worker, id: WorkerId, c: Choice)
    requires Owners(serial, w) && Unsettled(serial, w) && w.main.MainWrite? && !w.main.pc.ParkOld?
    requires !w.main.pc.ParkSet?
    requires Untouched(w, MainStep(cfg, g, w, id, c))
    ensures var r := MainStep(cfg, g, w, id, c); Owners(serial, r.w) && Unsettled(serial, r.w)
  {
    hide LoopStep, ShutdownStep, ResidueStep;
  }

  /** storePending: it settles the job it found, or stores its own. */
  lemma OwnersPark(cfg: Config, serial: bool, g: Shared, w: Worker, id: WorkerId, c: Choice)
    requires Owners(serial, w) && Unsettled(serial, w) && Slotted(w)
    requires w.main.MainWrite? && (w.main.pc.ParkOld? || w.main.pc.ParkSet?)
    ensures var r := MainStep(cfg, g, w, id, c); Owners(serial, r.w) && Unsettled(serial, r.w)
  {
    hide LoopStep, ShutdownStep, ResidueStep;
    if w.main.pc.ParkOld? { SettleSlot(w.ledger, w.main.pc.prior, Discarded); }
    else { StoreSlot(w.ledger, w.main.job); }
  }

  lemma OwnersResidue(cfg: Config, serial: bool, g: Shared, w: Worker, id: WorkerId, c: Choice)
    requires Owners(serial, w) && Unsettled(serial, w) && InResidue(w.main) && w.pipe.Exited?
    requires !DrainSettles(w) && !DrainClears(w) && Untouched(w, MainStep(cfg, g, w, id, c))
    ensures var r := MainStep(cfg, g, w, id, c); Owners(serial, r.w) && Unsettled(serial, r.w)
  {
    hide LoopStep, WriteStep, ShutdownStep;
  }

  lemma OwnersSettle(cfg: Config, serial: bool, g: Shared, w: Worker, id: WorkerId, c: Choice)
    requires Owners(serial, w) && Unsettled(serial, w) && w.pipe.Exited? && (DrainSettles(w) || DrainClears(w))
    ensures var r := MainStep(cfg, g, w, id, c); Owners(serial, r.w) && Unsettled(serial, r.w)
  {
    if DrainSettles(w) {
      SettleSlot(w.ledger, w.main.drain.pc.job, DrainOutcome(cfg, w, w.main.drain.mode, w.main.drain.pc.running));
    }
  }

  lemma MainLooseParked(cfg: Config, serial: bool, w: Worker, c: Choice)
    requires Unsettled(serial, w)
    ensures var x := MainShift(cfg, w, c); x.LooseSettled? ==> w.ledger.At(x.job, Parked)
  {
  }

  lemma KeptMain(cfg: Config, rw: bool, serial: bool, g: Shared, w: Worker, id: WorkerId, c: Choice)
    requires Modes(serial, g) && Places(w) && Kept(serial, w) && Slotted(w) && Life(cfg, rw, w) && !w.timedOut
    ensures KeptAfter(serial, MainStep(cfg, g, w, id, c))
  {
    hide MainStep, Places, Owners, Unsettled, Once;
    var r := MainStep(cfg, g, w, id, c);
    if r.Moved? && !r.w.timedOut {
      var x := MainShift(cfg, w, c);
      MainShifting(cfg, g, w, id, c);
      MainLooseParked(cfg, serial, w, c);
      OnceAfter(w, x, r);
      if w.main.MainWrite? && (w.main.pc.ParkOld? || w.main.pc.ParkSet?) {
        OwnersPark(cfg, serial, g, w, id, c);
      } else if DrainSettles(w) || DrainClears(w) {
        OwnersSettle(cfg, serial, g, w, id, c);
      } else {
        MainTouches(cfg, w, c);
        SlotSame(w, x, r);
        if w.main.MainWrite? { OwnersWrite(cfg, serial, g, w, id, c); }
        else if InShutdown(w.main) { OwnersShutdown(cfg, serial, g, w, id, c); }
        else if InResidue(w.main) { OwnersResidue(cfg, serial, g, w, id, c); }
        else if Quiet(w.main) { OwnersLoop(cfg, serial, g, w, id, c); }
        else { OwnersServe(cfg, serial, g, w, id, c); }
      }
    }
  }

  // ---- The pipeline

  /** launchRead: a second straggler exists only beside a main loop that parks no more. */
  lemma OwnersGate(cfg: Config, serial: bool, g: Shared, w: Worker, id: WorkerId, c: Choice)
    requires Owners(serial, w) && Unsettled(serial, w)
    requires Gating(w.pipe) && Untouched(w, PipeStep(cfg, g, w, id, c))
    ensures var r := PipeStep(cfg, g, w, id, c); Owners(serial, r.w) && Unsettled(serial, r.w)
  {
    hide WriteStep, RegisterStep, TokenLeft;
  }

  lemma OwnersLaunch(cfg: Config, serial: bool, g: Shared, w: Worker, id: WorkerId, c: Choice)
    requires Owners(serial, w) && Unsettled(serial, w) && Slotted(w) && Thin(serial, w)
    requires Registering(w.pipe) && Untouched(w, PipeStep(cfg, g, w, id, c))
    ensures var r := PipeStep(cfg, g, w, id, c); Owners(serial, r.w) && Unsettled(serial, r.w)
  {
    hide WriteStep, GateStep;
  }

  lemma OwnersPipeWrite(cfg: Config, serial: bool, g: Shared, w: Worker, id: WorkerId, c: Choice)
    requires Owners(serial, w) && Unsettled(serial, w) && w.pipe.PipeWrite? && w.downgrades >= 1
    requires !w.pipe.pc.ParkOld? && !w.pipe.pc.ParkSet? && Untouched(w, PipeStep(cfg, g, w, id, c))
    ensures var r := PipeStep(cfg, g, w, id, c); Owners(serial, r.w) && Unsettled(serial, r.w)
  {
    hide GateStep, RegisterStep;
  }

  lemma OwnersPipePark(cfg: Config, serial: bool, g: Shared, w: Worker, id: WorkerId, c: Choice)
    requires Owners(serial, w) && Unsettled(serial, w) && Slotted(w) && w.pipe.PipeWrite? && w.downgrades >= 1
    requires w.pipe.pc.ParkOld? || w.pipe.pc.ParkSet?
    ensures var r := PipeStep(cfg, g, w, id, c); Owners(serial, r.w) && Unsettled(serial, r.w)
  {
    hide GateStep, RegisterStep;
    if w.pipe.pc.ParkOld? { SettleSlot(w.ledger, w.pipe.pc.prior, Discarded); }
    else { StoreSlot(w.ledger, w.pipe.job); }
  }

  lemma KeptPipe(cfg: Config, serial: bool, g: Shared, w: Worker, id: WorkerId, c: Choice)
    requires Places(w) && Kept(serial, w) && Slotted(w) && Thin(serial, w) && PipeTarget(w)
    ensures KeptAfter(serial, PipeStep(cfg, g, w, id, c))
  {
    PipeLooseParked(serial, w, c);
    hide PipeStep, Places, Owners, Unsettled, Once, Slotted, Thin;
    var r := PipeStep(cfg, g, w, id, c);
    if r.Moved? {
      var x := PipeShift(w, c);
      PipeShifting(cfg, g, w, id, c);
      OnceAfter(w, x, r);
      if w.pipe.PipeWrite? && (w.pipe.pc.ParkOld? || w.pipe.pc.ParkSet?) {
        OwnersPipePark(cfg, serial, g, w, id, c);
      } else {
        SlotSame(w, x, r);
        if w.pipe.PipeWrite? { OwnersPipeWrite(cfg, serial, g, w, id, c); }
        else if Gating(w.pipe) { OwnersGate(cfg, serial, g, w, id, c); }
        else { OwnersLaunch(cfg, serial, g, w, id, c); }
      }
    }
  }

  lemma PipeLooseParked(serial: bool, w: Worker, c: Choice)
    requires Unsettled(serial, w)
    ensures var x := PipeShift(w, c); x.LooseSettled? ==> w.ledger.At(x.job, Parked)
  {
  }

  // ---- The rest

  lemma OwnersElse(serial: bool, w: Worker, r: LocalResult)
    requires Owners(serial, w) && Unsettled(serial, w) && Untouched(w, r)
    requires r.w.main == w.main && r.w.pipe == w.pipe && r.w.downgrades == w.downgrades && (w.closed ==> r.w.closed)
    ensures Owners(serial, r.w) && Unsettled(serial, r.w)
  {
  }

  lemma KeptRead(serial: bool, g: Shared, w: Worker, id: WorkerId, j: Job, cancelled: bool)
    requires Places(w) && Kept(serial, w)
    ensures KeptAfter(serial, ReadStep(g, w, id, j, cancelled))
  {
    hide ReadStep, Places, Owners, Unsettled, Once;
    var r := ReadStep(g, w, id, j, cancelled);
    if r.Moved? {
      var x := ReadShift(w, j, cancelled);
      ReadSame(g, w, id, j, cancelled);
      ShiftsRead(g, w, id, j, cancelled);
      SlotSame(w, x, r);
      OnceAfter(w, x, r);
      OwnersElse(serial, w, r);
    }
  }

  lemma KeptSubmit(cfg: Config, serial: bool, g: Shared, w: Worker, id: WorkerId, a: Action)
    requires Places(w) && Kept(serial, w) && ((a.Submit? && a.job !in w.ledger.place) || a.BeginStop?)
    ensures KeptAfter(serial, WorkerStep(cfg, g, w, id, a))
  {
    hide Owners, Unsettled, Once;
    var r := WorkerStep(cfg, g, w, id, a);
    if r.Moved? {
      var x := ShiftOf(cfg, w, a);
      assert ShiftAfter(w, x, r);
      hide Places, ShiftAfter;
      SlotSame(w, x, r);
      OnceAfter(w, x, r);
      OwnersElse(serial, w, r);
    }
  }

  lemma KeptStep(cfg: Config, rw: bool, serial: bool, g: Shared, w: Worker, id: WorkerId, a: Action)
    requires Local(cfg, rw, g, id, w) && Modes(serial, g) && Kept(serial, w) && Slotted(w) && Thin(serial, w)
    requires PipeTarget(w)
    requires !w.timedOut && (a.Submit? ==> a.job !in w.ledger.place)
    ensures KeptAfter(serial, WorkerStep(cfg, g, w, id, a))
  {
    hide MainStep, PipeStep, ReadStep, Kept, Slotted, Thin, PipeTarget, Counters, Locks, Crowded, Life, Places;
    match a
    case ActMain(_, c) => KeptMain(cfg, rw, serial, g, w, id, c);
    case ActPipe(_, c) => KeptPipe(cfg, serial, g, w, id, c);
    case ActRead(_, j, cancelled) => KeptRead(serial, g, w, id, j, cancelled);
    case Submit(_, _) => KeptSubmit(cfg, serial, g, w, id, a);
    case BeginStop(_) => KeptSubmit(cfg, serial, g, w, id, a);
    case _ =>
  }

  // ---- Over whole runs

  /** The last switch is over, or there was never a mode to switch. */
  predicate Serially(s: State) { s.control.Idle? && !s.g.enabled }

  /** Without a rollback: workers without a stop timeout. */
  ghost predicate AllKept(s: State)
  {
    !s.rolledBack ==> forall id :: id in s.workers && !s.workers[id].timedOut ==> Kept(Serially(s), s.workers[id])
  }

  lemma UnswitchedKept(cfg: Config, rw: bool, s: State)
    requires Sound(cfg, rw, s) && !s.flipped
    ensures AllKept(s)
  {
    hide Kept, Switch, Flags, Emptied, Owned, Local, Fixed;
    forall id | id in s.workers && !s.workers[id].timedOut ensures Kept(Serially(s), s.workers[id]) {
      FixedThenKept(cfg, rw, s.g, id, s.workers[id], Serially(s));
    }
  }

  lemma WorkerThin(cfg: Config, rw: bool, s: State, id: WorkerId)
    requires Sound(cfg, rw, s) && s.flipped && !s.rolledBack && id in s.workers && !s.workers[id].timedOut
    ensures Thin(Serially(s), s.workers[id]) && Modes(Serially(s), s.g)
  {
    assert Flags(rw, s) && Stragglers(s) && TornLast(s) && Flips(s);
    hide Inv, AllFixed, Switch;
    assert Covered(s, id);
  }

  lemma GoroutineAllKept(cfg: Config, rw: bool, s: State, id: WorkerId, a: Action)
    requires Sound(cfg, rw, s) && AllClean(s) && AllKept(s) && s.flipped
    ensures var n := GoroutineStep(cfg, s, id, a); n.Some? ==> AllKept(n.value)
  {
    hide WorkerStep, Kept, Local, Fixed, Emptied, Owned, Scanned, Stragglers, TornLast, Executions, Slotted, ReadsOver;
    var n := GoroutineStep(cfg, s, id, a);
    if n.Some? && !n.value.rolledBack {
      var w := s.workers[id];
      TimeoutStays(cfg, s.g, w, id, a);
      LocalFlags(cfg, rw, s, id, a);
      if a.Submit? { SubmittedFresh(s, id, a); }
      if !w.timedOut {
        assert Clean(w);
        WorkerThin(cfg, rw, s, id);
        KeptStep(cfg, rw, Serially(s), s.g, w, id, a);
      }
    }
  }

  lemma LocalFlags(cfg: Config, rw: bool, s: State, id: WorkerId, a: Action)
    requires Inv(cfg, rw, s) && id in s.workers && Submitted(a) * s.used == {}
    ensures var r := WorkerStep(cfg, s.g, s.workers[id], id, a); r.Moved? ==> r.g.enabled == s.g.enabled
  {
    hide WorkerStep, Local, Emptied, Owned;
    if a.Submit? { SubmittedFresh(s, id, a); }
    LocalKept(cfg, rw, s.g, s.workers[id], id, a);
  }

  lemma ControlAllKept(cfg: Config, rw: bool, s: State, target: WorkerId, alarm: bool)
    requires Flags(rw, s) && AllKept(s)
    ensures var n := ControlStep(s, target, alarm); n.Some? ==> AllKept(n.value)
  {
    var n := ControlStep(s, target, alarm);
    if n.Some? && !n.value.rolledBack {
      ControlSameWorkers(s, target, alarm);
      SerialGrows(rw, s, target, alarm);
      hide ControlStep, Kept, Flags;
      forall id | id in s.workers && !s.workers[id].timedOut ensures Kept(Serially(n.value), s.workers[id]) {
        if Serially(s) != Serially(n.value) { KeptSerial(Serially(s), s.workers[id]); }
      }
    }
  }

  lemma SerialGrows(rw: bool, s: State, target: WorkerId, alarm: bool)
    requires Flags(rw, s)
    ensures var n := ControlStep(s, target, alarm);
            n.Some? && !n.value.rolledBack ==> !s.rolledBack && (Serially(s) ==> Serially(n.value))
  {
    if Serially(s) { } else { RollbackStays(s, target, alarm); }
  }

  lemma RollbackStays(s: State, target: WorkerId, alarm: bool)
    ensures var n := ControlStep(s, target, alarm); n.Some? && !n.value.rolledBack ==> !s.rolledBack
  {
  }

  lemma GrowAllKept(rw: bool, s: State, id: WorkerId)
    requires AllKept(s)
    ensures AllKept(s.(workers := s.workers[id := NewWorker(rw)], snap := s.snap + {id}))
  {
    assert Kept(Serially(s), NewWorker(rw));
    hide Kept;
  }

  lemma StepAllKept(cfg: Config, rw: bool, s: State, a: Action)
    requires Sound(cfg, rw, s) && AllClean(s) && AllKept(s)
    ensures var n := Step(cfg, rw, s, a); n.Some? ==> AllKept(n.value)
  {
    assert Flags(rw, s);
    hide ControlStep, GoroutineStep, Kept, Sound, AllClean, Flags;
    if a.ActControl? { ControlAllKept(cfg, rw, s, a.target, a.alarm); }
    else if a.Grow? { GrowAllKept(rw, s, a.worker); }
    else if a.Remove? { }
    else if s.flipped { GoroutineAllKept(cfg, rw, s, a.worker, a); }
    else { UnflippedStep(cfg, rw, s, a); }
  }

  lemma UnflippedStep(cfg: Config, rw: bool, s: State, a: Action)
    requires Sound(cfg, rw, s) && !s.flipped && !a.ActControl? && !a.Grow? && !a.Remove?
    ensures var n := Step(cfg, rw, s, a); n.Some? ==> AllKept(n.value)
  {
    hide WorkerStep, AllKept, Sound;
    var n := Step(cfg, rw, s, a);
    if n.Some? {
      StepSound(cfg, rw, s, a);
      UnswitchedKept(cfg, rw, n.value);
    }
  }

  lemma {:induction false} AfterAllKept(cfg: Config, rw: bool, s: State, actions: seq<Action>)
    requires Sound(cfg, rw, s) && AllClean(s) && AllKept(s)
    ensures var n := After(cfg, rw, s, actions); n.Some? ==> AllKept(n.value)
    decreases |actions|
  {
    assert Inv(cfg, rw, s);
    hide Step, Sound, Inv, AllClean, AllKept;
    if actions != [] {
      StepAllKept(cfg, rw, s, actions[0]);
      StepSound(cfg, rw, s, actions[0]);
      StepClean(cfg, rw, s, actions[0]);
      var next := Step(cfg, rw, s, actions[0]);
      if next.Some? { AfterAllKept(cfg, rw, next.value, actions[1..]); }
    }
  }

  lemma ReachableKept(cfg: Config, rw: bool, s: State)
    requires Reachable(cfg, rw, s)
    ensures AllKept(s)
  {
    hide Step;
    var actions :| After(cfg, rw, Initial(rw), actions) == Some(s);
    assert After(cfg, rw, Initial(rw), []) == Some(Initial(rw));
    ReachableClean(cfg, rw, Initial(rw));
    assert AllKept(Initial(rw));
    hide Sound, AllClean, AllKept;
    AfterAllKept(cfg, rw, Initial(rw), actions);
  }

  // ---- The promises

  /** Mode switches and torn tests included: without a rollback, a worker without a stop timeout
      releases no job twice, and none before it is settled. */
  lemma AtMostOnceSwitched(cfg: Config, rw: bool, s: State, id: WorkerId, j: Job)
    requires Reachable(cfg, rw, s) && !s.rolledBack && id in s.workers && !s.workers[id].timedOut
    ensures s.workers[id].ledger.Releases(j) == if s.workers[id].ledger.IsSettled(j) then 1 else 0
  {
    hide Reachable, Owners, Unsettled;
    ReachableKept(cfg, rw, s);
    assert Kept(Serially(s), s.workers[id]);
  }

  /** When `run` has returned, every accepted job is settled and released exactly once, except one
      that storePending overwrote, which is never released. */
  lemma ExactlyOnceSwitched(cfg: Config, rw: bool, s: State, id: WorkerId, j: Job)
    requires Reachable(cfg, rw, s) && !s.rolledBack
    requires id in s.workers && s.workers[id].main.Done? && !s.workers[id].timedOut && j in s.workers[id].ledger.place
    ensures var l := s.workers[id].ledger;
            if l.At(j, Lost) then l.Releases(j) == 0 else l.IsSettled(j) && l.Releases(j) == 1
  {
    hide Reachable;
    AtMostOnceSwitched(cfg, rw, s, id, j);
    SettledOrOverwritten(cfg, rw, s, id, j);
  }
}
