/** pendingJob in every run, whatever switches, rollbacks and torn tests it has: without a stop
    timeout only the job in pendingJob is parked, and whatever happens a job that was executed is
    never settled a second time. */
module RWSlot {
  import opened RWMachine
  import opened RWLocal
  import opened RWInvariant
  import opened RWFixed
  import opened RWSwitch

  predicate MainSets(w: Worker) { w.main.MainWrite? && w.main.pc.ParkSet? }

  predicate PipeSets(w: Worker) { w.pipe.PipeWrite? && w.pipe.pc.ParkSet? }

  predicate DrainSettles(w: Worker) { InResidue(w.main) && w.main.drain.pc.SettlePending? }

  predicate DrainClears(w: Worker) { InResidue(w.main) && w.main.drain.pc.ClearPending? }

  /** The drain is done with pendingJob. */
  predicate PastPending(m: MainPc) { m.Done? || (InResidue(m) && !OnPending(m.drain.pc)) }

  // ---- The slot, without a stop timeout

  /** Only the job in pendingJob is parked. It is settled already only while somebody who settled
      it is about to overwrite the field. */
  ghost predicate Slotted(w: Worker)
  {
    && (forall j :: w.ledger.At(j, Parked) ==> w.ledger.pending == Full(j))
    && (w.ledger.pending.Full? && !w.ledger.At(w.ledger.pending.job, Parked) ==>
          MainSets(w) || PipeSets(w) || DrainClears(w))
    && (DrainClears(w) ==> forall j :: !w.ledger.At(j, Parked))
    && (DrainSettles(w) ==> w.ledger.pending == Full(w.main.drain.pc.job) && w.ledger.At(w.main.drain.pc.job, Parked))
    && (PastPending(w.main) ==> w.ledger.pending.Empty?)
    && (InResidue(w.main) || w.main.Done? ==> w.pipe.Exited?)
  }

  /** The step leaves the slot as it was. */
  ghost predicate Untouched(w: Worker, r: LocalResult)
  {
    && r.Moved? && r.w.ledger.pending == w.ledger.pending
    && forall j :: r.w.ledger.At(j, Parked) <==> w.ledger.At(j, Parked)
  }

  /** A step that neither stores nor settles a parked job does. */
  lemma SlotSame(w: Worker, x: Shift, r: LocalResult)
    requires Places(w) && ShiftAfter(w, x, r) && r.Moved?
    requires !x.MainStored? && !x.PipeStored? && !x.LooseSettled? && !x.Cleared?
    ensures Untouched(w, r)
  {
    ParkedSame(Seen(w), x);
  }

  lemma SettleSlot(l: Ledger, j: Job, how: Outcome)
    ensures l.Settle(j, how).pending == l.pending
    ensures forall i :: l.Settle(j, how).At(i, Parked) <==> i != j && l.At(i, Parked)
  {
  }

  lemma StoreSlot(l: Ledger, j: Job)
    requires forall i :: l.At(i, Parked) ==> l.pending == Full(i)
    ensures l.Store(j).pending == Full(j)
    ensures forall i :: l.Store(j).At(i, Parked) <==> i == j
  {
    var kept := if l.pending.Full? && l.At(l.pending.job, Parked) then l.Move(l.pending.job, Lost) else l;
    assert forall i :: kept.At(i, Parked) ==> l.At(i, Parked) && l.pending != Full(i);
    assert l.Store(j).place == kept.place[j := Parked];
    forall i ensures l.Store(j).At(i, Parked) <==> i == j { assert kept.At(i, Parked) ==> l.At(i, Parked); }
  }

  lemma SlotLoop(cfg: Config, g: Shared, w: Worker, id: WorkerId, c: Choice)
    requires Slotted(w) && InLoop(w.main) && Untouched(w, MainStep(cfg, g, w, id, c))
    ensures Slotted(MainStep(cfg, g, w, id, c).w)
  {
    hide WriteStep, ShutdownStep, ResidueStep;
  }

  lemma SlotShutdown(cfg: Config, g: Shared, w: Worker, id: WorkerId, c: Choice)
    requires Slotted(w) && InShutdown(w.main) && Untouched(w, MainStep(cfg, g, w, id, c))
    requires PastPipe(w.main) ==> w.pipe.Exited?
    ensures Slotted(MainStep(cfg, g, w, id, c).w)
  {
    hide LoopStep, WriteStep, ResidueStep;
  }

  lemma SlotWrite(cfg: Config, g: Shared, w: Worker, id: WorkerId, c: Choice)
    requires Slotted(w) && w.main.MainWrite? && !w.main.pc.ParkOld? && !w.main.pc.ParkSet?
    requires Untouched(w, MainStep(cfg, g, w, id, c))
    ensures Slotted(MainStep(cfg, g, w, id, c).w)
  {
    hide LoopStep, ShutdownStep, ResidueStep;
  }

  /** storePending on the main loop: it settles the job it found, or stores its own. */
  lemma SlotPark(cfg: Config, g: Shared, w: Worker, id: WorkerId, c: Choice)
    requires Slotted(w) && w.main.MainWrite? && (w.main.pc.ParkOld? || w.main.pc.ParkSet?)
    ensures Slotted(MainStep(cfg, g, w, id, c).w)
  {
    hide LoopStep, ShutdownStep, ResidueStep;
    if w.main.pc.ParkOld? { SettleSlot(w.ledger, w.main.pc.prior, Discarded); }
    else { StoreSlot(w.ledger, w.main.job); }
  }

  lemma SlotResidue(cfg: Config, g: Shared, w: Worker, id: WorkerId, c: Choice)
    requires Slotted(w) && InResidue(w.main) && !DrainSettles(w) && !DrainClears(w)
    requires Untouched(w, MainStep(cfg, g, w, id, c))
    ensures Slotted(MainStep(cfg, g, w, id, c).w)
  {
    hide LoopStep, WriteStep, ShutdownStep;
  }

  lemma SlotSettle(cfg: Config, g: Shared, w: Worker, id: WorkerId, c: Choice)
    requires Slotted(w) && (DrainSettles(w) || DrainClears(w))
    ensures MainStep(cfg, g, w, id, c).Moved? && Slotted(MainStep(cfg, g, w, id, c).w)
  {
    if DrainSettles(w) {
      SettleSlot(w.ledger, w.main.drain.pc.job, DrainOutcome(cfg, w, w.main.drain.mode, w.main.drain.pc.running));
    }
  }

  lemma SlotLaunch(cfg: Config, g: Shared, w: Worker, id: WorkerId, c: Choice)
    requires Slotted(w) && !w.pipe.PipeWrite? && Untouched(w, PipeStep(cfg, g, w, id, c))
    ensures Slotted(PipeStep(cfg, g, w, id, c).w)
  {
    hide WriteStep;
  }

  lemma SlotPipeWrite(cfg: Config, g: Shared, w: Worker, id: WorkerId, c: Choice)
    requires Slotted(w) && w.pipe.PipeWrite? && !w.pipe.pc.ParkOld? && !w.pipe.pc.ParkSet?
    requires Untouched(w, PipeStep(cfg, g, w, id, c))
    ensures Slotted(PipeStep(cfg, g, w, id, c).w)
  {
    hide GateStep, RegisterStep;
  }

  lemma SlotPipePark(cfg: Config, g: Shared, w: Worker, id: WorkerId, c: Choice)
    requires Slotted(w) && w.pipe.PipeWrite? && (w.pipe.pc.ParkOld? || w.pipe.pc.ParkSet?)
    ensures Slotted(PipeStep(cfg, g, w, id, c).w)
  {
    hide GateStep, RegisterStep;
    if w.pipe.pc.ParkOld? { SettleSlot(w.ledger, w.pipe.pc.prior, Discarded); }
    else { StoreSlot(w.ledger, w.pipe.job); }
  }

  lemma SlotElse(w: Worker, r: LocalResult)
    requires Slotted(w) && Untouched(w, r) && r.w.main == w.main && r.w.pipe == w.pipe
    ensures Slotted(r.w)
  {
  }

  ghost predicate SlottedAfter(r: LocalResult) { r.Moved? && !r.w.timedOut ==> Slotted(r.w) }

  /** Only execWrite and the drain touch the slot. */
  lemma MainTouches(cfg: Config, w: Worker, c: Choice)
    requires !(w.main.MainWrite? && (w.main.pc.ParkOld? || w.main.pc.ParkSet?)) && !DrainSettles(w) && !DrainClears(w)
    ensures var x := MainShift(cfg, w, c); !x.MainStored? && !x.PipeStored? && !x.LooseSettled? && !x.Cleared?
  {
  }

  lemma SlottedMain(cfg: Config, rw: bool, g: Shared, w: Worker, id: WorkerId, c: Choice)
    requires Places(w) && Slotted(w) && Life(cfg, rw, w) && !w.timedOut
    ensures SlottedAfter(MainStep(cfg, g, w, id, c))
  {
    hide MainStep, Slotted, Places;
    var r := MainStep(cfg, g, w, id, c);
    if r.Moved? && !r.w.timedOut {
      if w.main.MainWrite? && (w.main.pc.ParkOld? || w.main.pc.ParkSet?) {
        SlotPark(cfg, g, w, id, c);
      } else if DrainSettles(w) || DrainClears(w) {
        SlotSettle(cfg, g, w, id, c);
      } else {
        MainShifting(cfg, g, w, id, c);
        MainTouches(cfg, w, c);
        SlotSame(w, MainShift(cfg, w, c), r);
        if w.main.MainWrite? { SlotWrite(cfg, g, w, id, c); }
        else if InShutdown(w.main) { SlotShutdown(cfg, g, w, id, c); }
        else if InResidue(w.main) { SlotResidue(cfg, g, w, id, c); }
        else { SlotLoop(cfg, g, w, id, c); }
      }
    }
  }

  lemma SlottedPipe(cfg: Config, g: Shared, w: Worker, id: WorkerId, c: Choice)
    requires Places(w) && Slotted(w)
    ensures SlottedAfter(PipeStep(cfg, g, w, id, c))
  {
    hide PipeStep, Slotted, Places;
    var r := PipeStep(cfg, g, w, id, c);
    if r.Moved? {
      if w.pipe.PipeWrite? && (w.pipe.pc.ParkOld? || w.pipe.pc.ParkSet?) {
        SlotPipePark(cfg, g, w, id, c);
      } else {
        PipeShifting(cfg, g, w, id, c);
        SlotSame(w, PipeShift(w, c), r);
        if w.pipe.PipeWrite? { SlotPipeWrite(cfg, g, w, id, c); } else { SlotLaunch(cfg, g, w, id, c); }
      }
    }
  }

  lemma SlottedRead(g: Shared, w: Worker, id: WorkerId, j: Job, cancelled: bool)
    requires Places(w) && Slotted(w)
    ensures SlottedAfter(ReadStep(g, w, id, j, cancelled))
  {
    var r := ReadStep(g, w, id, j, cancelled);
    ReadSame(g, w, id, j, cancelled);
    hide ReadStep, Slotted, Places;
    if r.Moved? {
      ShiftsRead(g, w, id, j, cancelled);
      SlotSame(w, ReadShift(w, j, cancelled), r);
      SlotElse(w, r);
    }
  }

  lemma ReadSame(g: Shared, w: Worker, id: WorkerId, j: Job, cancelled: bool)
    ensures var r := ReadStep(g, w, id, j, cancelled); r.Moved? ==> r.w == w.(crowd := r.w.crowd, ledger := r.w.ledger)
  {
  }

  lemma SlottedSubmit(cfg: Config, g: Shared, w: Worker, id: WorkerId, a: Action)
    requires Places(w) && Slotted(w) && ((a.Submit? && a.job !in w.ledger.place) || a.BeginStop?)
    ensures SlottedAfter(WorkerStep(cfg, g, w, id, a))
  {
    hide Slotted;
    var r := WorkerStep(cfg, g, w, id, a);
    if r.Moved? {
      assert ShiftAfter(w, ShiftOf(cfg, w, a), r);
      SlotSame(w, ShiftOf(cfg, w, a), r);
      SlotElse(w, r);
    }
  }

  lemma SlottedStep(cfg: Config, rw: bool, g: Shared, w: Worker, id: WorkerId, a: Action)
    requires Local(cfg, rw, g, id, w) && Slotted(w) && !w.timedOut && (a.Submit? ==> a.job !in w.ledger.place)
    ensures SlottedAfter(WorkerStep(cfg, g, w, id, a))
  {
    hide MainStep, PipeStep, ReadStep, Slotted, Counters, Locks, Crowded, Life, Places;
    match a
    case ActMain(_, c) => SlottedMain(cfg, rw, g, w, id, c);
    case ActPipe(_, c) => SlottedPipe(cfg, g, w, id, c);
    case ActRead(_, j, cancelled) => SlottedRead(g, w, id, j, cancelled);
    case Submit(_, _) => SlottedSubmit(cfg, g, w, id, a);
    case BeginStop(_) => SlottedSubmit(cfg, g, w, id, a);
    case _ =>
  }
}
