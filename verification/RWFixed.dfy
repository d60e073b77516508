/** Runs in which RW mode is never switched (`flipped` is false): the mode is the configured one,
    on or off, for the whole run. Stop timeouts may happen. */
module RWFixed {
  import opened RWMachine
  import opened RWLocal
  import opened RWInvariant

  predicate Downgrading(p: PipePc) { p.DropRead? || p.DropToken? || p.CountDowngrade? || p.PipeWrite? }

  /** The drain no longer waits for read goroutines. */
  predicate PastReads(m: MainPc)
  {
    || m.Done? || InResidue(m)
    || (InShutdown(m) && (m.drain.at.Residual? || m.drain.at.ChooseLock? || m.drain.at.AcquireLock?))
  }

  /** The main loop stays on the branch the mode selects, the pipeline never downgrades, and
      without a stop timeout no read goroutine survives the wait of the drain. */
  ghost predicate Branches(rw: bool, w: Worker)
  {
    && !Downgrading(w.pipe)
    && (rw ==> !w.main.LoadDisabling? && !w.main.Serial?)
    && (!rw ==> !w.main.CheckEnabled? && !w.main.MainWrite? && w.crowd.tasks == map[])
    && (PastReads(w.main) && !w.timedOut ==> w.crowd.tasks == map[])
  }

  /** pendingJob is set at most once, by the main loop of a closed worker, and stays until the
      drain has settled and cleared it. */
  ghost predicate Parking(w: Worker)
  {
    && (w.ledger.pending.Full? ==>
          w.closed && (w.main.Loop? || InShutdown(w.main) || (InResidue(w.main) && OnPending(w.main.drain.pc))))
    && (InResidue(w.main) && w.main.drain.pc.SettlePending? ==> w.ledger.pending == Full(w.main.drain.pc.job))
    && (forall j :: w.ledger.At(j, Parked) <==>
                    w.ledger.pending == Full(j) && !(InResidue(w.main) && w.main.drain.pc.ClearPending?))
    && (forall j :: !w.ledger.At(j, Lost))
    && (w.main.MainWrite? && Leaving(w.main.pc) ==> w.closed && !w.main.pc.ParkOld?)
  }

  /** execWrite gives up because the worker is closed. */
  predicate Leaving(pc: WritePc) { pc.Withdraw? || pc.Park? || pc.ParkOld? || pc.ParkSet? }

  predicate NothingLeft(w: Worker, pc: ResiduePc)
  {
    w.ledger.pending.Empty? && w.ledger.queue == {} && (pc.TakePending? || pc.TakeQueued?)
  }

  /** With RW mode on, residual jobs are drained under the write lock, or silently after a stop
      timeout. */
  ghost predicate DrainModes(rw: bool, w: Worker)
  {
    && (InShutdown(w.main) && w.main.drain.at.ChooseLock? ==>
          (w.main.drain.at.residual <==> w.ledger.pending.Full? || w.ledger.queue != {}))
    && (InShutdown(w.main) && w.main.drain.at.AcquireLock? ==> rw && !w.timedOut)
    && (InResidue(w.main) ==>
          var m, pc := w.main.drain.mode, w.main.drain.pc;
          && (m.locked ==> rw && !w.timedOut)
          && (m.unsafe ==> rw && w.timedOut)
          && (rw && !m.locked && !m.unsafe ==> NothingLeft(w, pc)))
  }

  /** Every job is released when it is settled and never again. */
  ghost predicate Once(l: Ledger) { forall j :: l.Releases(j) == if l.IsSettled(j) then 1 else 0 }

  ghost predicate Fixed(rw: bool, w: Worker)
  {
    Branches(rw, w) && Parking(w) && DrainModes(rw, w) && Once(w.ledger)
  }

  lemma OnceKept(v: View, x: Shift)
    requires Agrees(v) && Once(v.ledger) && Allowed(v, x) && (x.LooseSettled? ==> v.ledger.At(x.job, Parked))
    ensures Once(Shifted(v, x).ledger)
  {
    hide Agrees, Shifted, Allowed;
    var l' := Shifted(v, x).ledger;
    Origin(v, x);
    forall j ensures l'.Releases(j) == if l'.IsSettled(j) then 1 else 0 {
      assert v.ledger.Releases(j) == if v.ledger.IsSettled(j) then 1 else 0;
      OnceAt(v, x, j);
    }
  }

  lemma OnceAt(v: View, x: Shift, j: Job)
    requires Agrees(v) && Allowed(v, x) && (x.LooseSettled? ==> v.ledger.At(x.job, Parked))
    requires v.ledger.Releases(j) == if v.ledger.IsSettled(j) then 1 else 0
    ensures var l := Shifted(v, x).ledger; l.Releases(j) == if l.IsSettled(j) then 1 else 0
  {
    hide Agrees;
    Origin(v, x);
  }

  /** Only a store or a settlement of a parked job changes which jobs are parked. */
  lemma ParkedSame(v: View, x: Shift)
    requires Agrees(v) && Allowed(v, x) && !x.MainStored? && !x.PipeStored? && !x.LooseSettled?
    ensures forall j :: Shifted(v, x).ledger.At(j, Parked) <==> v.ledger.At(j, Parked)
    ensures forall j :: Shifted(v, x).ledger.At(j, Lost) <==> v.ledger.At(j, Lost)
    ensures Shifted(v, x).ledger.pending == if x.Cleared? then Empty else v.ledger.pending
  {
    hide Agrees;
    Origin(v, x);
  }

  ghost predicate ParkingAfter(r: LocalResult) { r.Moved? ==> Parking(r.w) }

  lemma ParkingLoop(cfg: Config, g: Shared, w: Worker, id: WorkerId, c: Choice)
    requires Places(w) && Parking(w) && InLoop(w.main)
    ensures ParkingAfter(MainStep(cfg, g, w, id, c))
  {
    hide WriteStep, ShutdownStep, ResidueStep, Agrees, Shifted, Allowed;
    MainShifting(cfg, g, w, id, c);
    if MainStep(cfg, g, w, id, c).Moved? { ParkedSame(Seen(w), MainShift(cfg, w, c)); }
  }

  lemma ParkingWrite(cfg: Config, g: Shared, w: Worker, id: WorkerId, c: Choice)
    requires Places(w) && Parking(w) && w.main.MainWrite?
    ensures ParkingAfter(MainStep(cfg, g, w, id, c))
  {
    hide LoopStep, ShutdownStep, ResidueStep;
    MainShifting(cfg, g, w, id, c);
    if w.main.pc.ParkSet? {
      var l' := MainStep(cfg, g, w, id, c).w.ledger;
      assert w.ledger.At(w.main.job, AtMain) && w.ledger.pending.Empty?;
      assert forall i :: l'.At(i, Parked) <==> i == w.main.job || w.ledger.At(i, Parked);
      assert forall i :: l'.At(i, Lost) <==> w.ledger.At(i, Lost);
    } else {
      ParkedSame(Seen(w), MainShift(cfg, w, c));
    }
  }

  lemma ParkingShutdown(cfg: Config, g: Shared, w: Worker, id: WorkerId, c: Choice)
    requires Places(w) && Parking(w) && InShutdown(w.main)
    ensures ParkingAfter(MainStep(cfg, g, w, id, c))
  {
    hide LoopStep, WriteStep, ResidueStep, Agrees, Shifted, Allowed;
    MainShifting(cfg, g, w, id, c);
    if MainStep(cfg, g, w, id, c).Moved? { ParkedSame(Seen(w), MainShift(cfg, w, c)); }
  }

  lemma SettledParked(l: Ledger, j: Job, how: Outcome)
    ensures forall i :: l.Settle(j, how).At(i, Parked) <==> i != j && l.At(i, Parked)
    ensures forall i :: l.Settle(j, how).At(i, Lost) <==> i != j && l.At(i, Lost)
  {
  }

  lemma ParkingResidue(cfg: Config, g: Shared, w: Worker, id: WorkerId, c: Choice)
    requires Places(w) && Parking(w) && InResidue(w.main) && w.closed
    ensures ParkingAfter(MainStep(cfg, g, w, id, c))
  {
    hide LoopStep, WriteStep, ShutdownStep, Agrees, Shifted, Allowed;
    MainShifting(cfg, g, w, id, c);
    var r := MainStep(cfg, g, w, id, c);
    if r.Moved? {
      if MainShift(cfg, w, c).LooseSettled? {
        SettledParked(w.ledger, MainShift(cfg, w, c).job, MainShift(cfg, w, c).how);
      } else {
        ParkedSame(Seen(w), MainShift(cfg, w, c));
      }
    }
  }

  ghost predicate BranchesAfter(rw: bool, r: LocalResult) { r.Moved? ==> Branches(rw, r.w) && DrainModes(rw, r.w) }

  lemma BranchesLoop(cfg: Config, rw: bool, g: Shared, w: Worker, id: WorkerId, c: Choice)
    requires Branches(rw, w) && DrainModes(rw, w) && InLoop(w.main) && g.enabled == rw && (!rw ==> !g.disabling)
    ensures BranchesAfter(rw, MainStep(cfg, g, w, id, c))
  {
    hide WriteStep, ShutdownStep, ResidueStep;
  }

  lemma BranchesWrite(cfg: Config, rw: bool, g: Shared, w: Worker, id: WorkerId, c: Choice)
    requires Branches(rw, w) && DrainModes(rw, w) && w.main.MainWrite?
    ensures BranchesAfter(rw, MainStep(cfg, g, w, id, c))
  {
    hide LoopStep, ShutdownStep, ResidueStep;
  }

  lemma BranchesShutdown(cfg: Config, rw: bool, g: Shared, w: Worker, id: WorkerId, c: Choice)
    requires Branches(rw, w) && DrainModes(rw, w) && Life(cfg, rw, w) && Crowded(w.crowd, w.pipe)
    requires InShutdown(w.main) && g.enabled == rw
    ensures BranchesAfter(rw, MainStep(cfg, g, w, id, c))
  {
    hide LoopStep, WriteStep, ResidueStep;
    if w.main.drain.at.AwaitGroup? && w.crowd.group == {} {
      assert forall j :: j in w.crowd.tasks ==> j in w.crowd.group;
      assert w.crowd.tasks == map[];
    }
  }

  lemma BranchesResidue(cfg: Config, rw: bool, g: Shared, w: Worker, id: WorkerId, c: Choice)
    requires Branches(rw, w) && DrainModes(rw, w) && Parking(w) && InResidue(w.main)
    ensures BranchesAfter(rw, MainStep(cfg, g, w, id, c))
  {
    hide LoopStep, WriteStep, ShutdownStep;
  }

  lemma BranchesPipe(cfg: Config, rw: bool, g: Shared, w: Worker, id: WorkerId, c: Choice)
    requires Branches(rw, w) && DrainModes(rw, w) && Life(cfg, rw, w) && g.enabled == rw
    ensures BranchesAfter(rw, PipeStep(cfg, g, w, id, c))
  {
  }

  lemma BranchesRead(rw: bool, g: Shared, w: Worker, id: WorkerId, j: Job, cancelled: bool)
    requires Branches(rw, w) && DrainModes(rw, w)
    ensures BranchesAfter(rw, ReadStep(g, w, id, j, cancelled))
  {
    var r := ReadStep(g, w, id, j, cancelled);
    if r.Moved? {
      assert r.w == w.(crowd := r.w.crowd, ledger := r.w.ledger);
      assert r.w.ledger.queue == w.ledger.queue && r.w.ledger.pending == w.ledger.pending;
    }
  }

  lemma FixedMain(cfg: Config, rw: bool, g: Shared, w: Worker, id: WorkerId, c: Choice)
    requires Local(cfg, rw, g, id, w) && Fixed(rw, w) && g.enabled == rw && (!rw ==> !g.disabling)
    ensures var r := MainStep(cfg, g, w, id, c); r.Moved? ==> Fixed(rw, r.w)
  {
    var r := MainStep(cfg, g, w, id, c);
    if r.Moved? {
      if w.main.MainWrite? { BranchesWrite(cfg, rw, g, w, id, c); ParkingWrite(cfg, g, w, id, c); }
      else if InShutdown(w.main) { BranchesShutdown(cfg, rw, g, w, id, c); ParkingShutdown(cfg, g, w, id, c); }
      else if InResidue(w.main) { BranchesResidue(cfg, rw, g, w, id, c); ParkingResidue(cfg, g, w, id, c); }
      else { BranchesLoop(cfg, rw, g, w, id, c); ParkingLoop(cfg, g, w, id, c); }
      MainShifting(cfg, g, w, id, c);
      MainLoose(cfg, w, c);
      OnceKept(Seen(w), MainShift(cfg, w, c));
    }
  }

  /** Only the drain settles a parked job. */
  lemma MainLoose(cfg: Config, w: Worker, c: Choice)
    requires Parking(w)
    ensures var x := MainShift(cfg, w, c); x.LooseSettled? ==> w.ledger.At(x.job, Parked)
  {
  }

  /** Neither parks a job nor touches a parked one. */
  predicate Aside(x: Shift) { !x.MainStored? && !x.PipeStored? && !x.LooseSettled? && !x.Cleared? }

  lemma FixedAside(rw: bool, w: Worker, x: Shift, r: LocalResult)
    requires Places(w) && Parking(w) && Once(w.ledger) && Aside(x) && ShiftAfter(w, x, r) && r.Moved?
    requires r.w.main == w.main && (w.closed ==> r.w.closed)
    ensures Parking(r.w) && Once(r.w.ledger)
  {
    hide Agrees, Once, Shifted, Allowed;
    ParkedSame(Seen(w), x);
    OnceKept(Seen(w), x);
  }

  lemma PipeAside(cfg: Config, g: Shared, w: Worker, id: WorkerId, c: Choice)
    requires !w.pipe.PipeWrite?
    ensures Aside(PipeShift(w, c))
    ensures var r := PipeStep(cfg, g, w, id, c); r.Moved? ==> r.w.main == w.main && r.w.closed == w.closed
  {
    hide WriteStep, TokenLeft;
  }

  lemma ReadAside(g: Shared, w: Worker, id: WorkerId, j: Job, cancelled: bool)
    ensures Aside(ReadShift(w, j, cancelled))
    ensures var r := ReadStep(g, w, id, j, cancelled); r.Moved? ==> r.w.main == w.main && r.w.closed == w.closed
  {
  }

  lemma FixedPipe(cfg: Config, rw: bool, g: Shared, w: Worker, id: WorkerId, c: Choice)
    requires Local(cfg, rw, g, id, w) && Fixed(rw, w) && g.enabled == rw
    ensures var r := PipeStep(cfg, g, w, id, c); r.Moved? ==> Fixed(rw, r.w)
  {
    hide PipeStep, Parking, DrainModes, Places, Once, ShiftAfter;
    var r := PipeStep(cfg, g, w, id, c);
    if r.Moved? {
      BranchesPipe(cfg, rw, g, w, id, c);
      PipeShifting(cfg, g, w, id, c);
      PipeAside(cfg, g, w, id, c);
      FixedAside(rw, w, PipeShift(w, c), r);
    }
  }

  lemma FixedRead(cfg: Config, rw: bool, g: Shared, w: Worker, id: WorkerId, j: Job, cancelled: bool)
    requires Local(cfg, rw, g, id, w) && Fixed(rw, w)
    ensures var r := ReadStep(g, w, id, j, cancelled); r.Moved? ==> Fixed(rw, r.w)
  {
    hide ReadStep, Parking, Branches, DrainModes, Places, Once, ShiftAfter;
    var r := ReadStep(g, w, id, j, cancelled);
    if r.Moved? {
      BranchesRead(rw, g, w, id, j, cancelled);
      ShiftsRead(g, w, id, j, cancelled);
      ReadAside(g, w, id, j, cancelled);
      FixedAside(rw, w, ReadShift(w, j, cancelled), r);
    }
  }

  lemma FixedSubmit(cfg: Config, rw: bool, g: Shared, w: Worker, id: WorkerId, a: Action)
    requires Local(cfg, rw, g, id, w) && Fixed(rw, w) && ((a.Submit? && a.job !in w.ledger.place) || a.BeginStop?)
    ensures var r := WorkerStep(cfg, g, w, id, a); r.Moved? ==> Fixed(rw, r.w)
  {
    var x := ShiftOf(cfg, w, a);
    var r := WorkerStep(cfg, g, w, id, a);
    if r.Moved? {
      ParkedSame(Seen(w), x);
      OnceKept(Seen(w), x);
      assert Seen(r.w) == Shifted(Seen(w), x);
    }
  }

  lemma FixedKept(cfg: Config, rw: bool, g: Shared, w: Worker, id: WorkerId, a: Action)
    requires Local(cfg, rw, g, id, w) && Fixed(rw, w) && g.enabled == rw && (!rw ==> !g.disabling)
    requires a.Submit? ==> a.job !in w.ledger.place
    ensures var r := WorkerStep(cfg, g, w, id, a); r.Moved? ==> Fixed(rw, r.w)
  {
    hide MainStep, PipeStep, ReadStep;
    match a
    case ActMain(_, c) => FixedMain(cfg, rw, g, w, id, c);
    case ActPipe(_, c) => FixedPipe(cfg, rw, g, w, id, c);
    case ActRead(_, j, cancelled) => FixedRead(cfg, rw, g, w, id, j, cancelled);
    case Submit(_, _) => FixedSubmit(cfg, rw, g, w, id, a);
    case BeginStop(_) => FixedSubmit(cfg, rw, g, w, id, a);
    case _ =>
  }

  ghost predicate AllFixed(rw: bool, s: State)
  {
    !s.flipped ==> forall id :: id in s.workers ==> Fixed(rw, s.workers[id])
  }

  lemma AdvancedFixed(rw: bool, s: State, id: WorkerId, r: LocalResult, s': State)
    requires AllFixed(rw, s) && Advanced(s, id, r, s') && Fixed(rw, r.w)
    ensures AllFixed(rw, s')
  {
  }

  lemma NewWorkerFixed(rw: bool)
    ensures Fixed(rw, NewWorker(rw))
  {
  }

  lemma GoroutineFixed(cfg: Config, rw: bool, s: State, id: WorkerId, a: Action)
    requires Inv(cfg, rw, s) && AllFixed(rw, s)
    ensures var n := GoroutineStep(cfg, s, id, a); n.Some? ==> AllFixed(rw, n.value)
  {
    hide WorkerStep;
    var n := GoroutineStep(cfg, s, id, a);
    if n.Some? && !s.flipped {
      if a.Submit? { SubmittedFresh(s, id, a); }
      FixedKept(cfg, rw, s.g, s.workers[id], id, a);
      AdvancedFixed(rw, s, id, WorkerStep(cfg, s.g, s.workers[id], id, a), n.value);
    }
  }

  lemma StepFixed(cfg: Config, rw: bool, s: State, a: Action)
    requires Inv(cfg, rw, s) && AllFixed(rw, s)
    ensures var n := Step(cfg, rw, s, a); n.Some? ==> AllFixed(rw, n.value)
  {
    hide ControlStep, GoroutineStep;
    if a.ActControl? { ControlShared(rw, s, a.target, a.alarm); }
    else if a.Grow? { NewWorkerFixed(rw); }
    else if !a.Remove? { GoroutineFixed(cfg, rw, s, a.worker, a); }
  }
}
