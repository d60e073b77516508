/** Execution and settlement in every run: a job that was executed is released once and is never
    discarded, before or after; and when `run` returns without a stop timeout every accepted job
    is settled, or was overwritten by storePending. */
module RWExecuted {
  import opened RWMachine
  import opened RWLocal
  import opened RWInvariant
  import opened RWFixed
  import opened RWRetired
  import opened RWSwitch
  import opened RWSlot

  predicate WasExecuted(l: Ledger, j: Job) { l.At(j, Settled(Executed)) }

  ghost predicate Unexecuted(l: Ledger, slot: RWMachine.Slot) { slot.Full? ==> !WasExecuted(l, slot.job) }

  /** Releases belong to settled jobs, and an executed one has exactly one. */
  ghost predicate Released(l: Ledger)
  {
    && (forall j :: !l.IsSettled(j) ==> l.Releases(j) == 0)
    && (forall j :: WasExecuted(l, j) ==> l.Releases(j) == 1)
  }

  /** Nobody is about to settle an executed job, and pendingJob holds one only while the drain that
      executed it is about to clear the field. */
  ghost predicate Executions(w: Worker)
  {
    && Released(w.ledger)
    && Unexecuted(w.ledger, MainOld(w.main)) && Unexecuted(w.ledger, PipeOld(w.pipe))
    && (!Unexecuted(w.ledger, w.ledger.pending) ==> DrainClears(w) && w.pipe.Exited?)
  }

  /** What a shift does to a job that nobody is responsible for. */
  lemma LooseUnexecuted(v: View, x: Shift, j: Job)
    requires Agrees(v) && Allowed(v, x) && Loose(v.ledger, j) && !WasExecuted(v.ledger, j)
    requires !(x.LooseSettled? && x.job == j && x.how.Executed?)
    ensures !WasExecuted(Shifted(v, x).ledger, j)
  {
    if v.channel != [] { assert v.channel[0] in v.channel; }
    assert !v.ledger.At(j, Queued) && !v.ledger.At(j, AtMain) && !v.ledger.At(j, InChannel);
    assert !v.ledger.At(j, AtPipe) && !v.ledger.At(j, AtReader);
  }

  /** The job a shift settles, if any. */
  function Settles(v: View, x: Shift): RWMachine.Slot
  {
    match x
    case MainSettled(_) => v.mainJob
    case PipeSettled(_) => v.pipeJob
    case LooseSettled(j, _) => Full(j)
    case TaskSettled(j, _) => Full(j)
    case _ => Empty
  }

  predicate SettlesAs(x: Shift, how: Outcome)
  {
    match x
    case MainSettled(h) => h == how
    case PipeSettled(h) => h == how
    case LooseSettled(_, h) => h == how
    case TaskSettled(_, h) => h == how
    case _ => false
  }

  /** Releases change only for the job that is settled; only Store and the moves change other
      places, and none of them touches a settled job. */
  lemma SettledSame(v: View, x: Shift, j: Job)
    requires Agrees(v) && Allowed(v, x) && Settles(v, x) != Full(j)
    ensures Shifted(v, x).ledger.Releases(j) == v.ledger.Releases(j)
    ensures Shifted(v, x).ledger.IsSettled(j) <==> v.ledger.IsSettled(j)
    ensures WasExecuted(Shifted(v, x).ledger, j) <==> WasExecuted(v.ledger, j)
  {
    hide Agrees;
    Origin(v, x);
    match x
    case MainStored => StoredSame(v.ledger, v.mainJob.job, j);
    case PipeStored => StoredSame(v.ledger, v.pipeJob.job, j);
    case _ =>
  }

  lemma StoredSame(l: Ledger, stored: Job, j: Job)
    requires !l.IsSettled(stored)
    ensures var l' := l.Store(stored);
            && l'.Releases(j) == l.Releases(j) && (l'.IsSettled(j) <==> l.IsSettled(j))
            && (WasExecuted(l', j) <==> WasExecuted(l, j))
  {
  }

  /** A settlement counts one release. */
  lemma SettledNow(v: View, x: Shift)
    requires Agrees(v) && Allowed(v, x) && Settles(v, x).Full?
    ensures var j, l := Settles(v, x).job, Shifted(v, x).ledger;
            && l.IsSettled(j) && l.Releases(j) == v.ledger.Releases(j) + 1
            && (WasExecuted(l, j) <==> SettlesAs(x, Executed))
    ensures !x.LooseSettled? ==> !v.ledger.IsSettled(Settles(v, x).job)
  {
    if x.MainSettled? { assert v.ledger.At(v.mainJob.job, AtMain); }
    if x.PipeSettled? { assert v.ledger.At(v.pipeJob.job, AtPipe); }
    if x.TaskSettled? { assert v.ledger.At(x.job, AtReader); }
  }

  lemma ReleasedKept(v: View, x: Shift)
    requires Agrees(v) && Allowed(v, x) && Released(v.ledger)
    requires x.LooseSettled? && x.how.Executed? ==> !v.ledger.IsSettled(x.job)
    ensures Released(Shifted(v, x).ledger)
  {
    hide Agrees, Shifted;
    var l, l' := v.ledger, Shifted(v, x).ledger;
    if Settles(v, x).Full? { SettledNow(v, x); }
    forall j ensures !l'.IsSettled(j) ==> l'.Releases(j) == 0 { if Settles(v, x) != Full(j) { SettledSame(v, x, j); } }
    forall j
      ensures WasExecuted(l', j) ==> l'.Releases(j) == 1
    {
      if Settles(v, x) != Full(j) { SettledSame(v, x, j); }
    }
  }

  /** The conditions under which a step keeps Executions. */
  ghost predicate Careful(w: Worker, x: Shift, r: LocalResult)
  {
    r.Moved? ==>
      && (x.LooseSettled? && x.how.Executed? ==>
            && !w.ledger.IsSettled(x.job) && w.pipe.Exited? && DrainClears(r.w) && r.w.pipe.Exited?
            && MainOld(r.w.main).Empty? && w.ledger.pending == Full(x.job))
      && (x.LooseSettled? ==> !WasExecuted(w.ledger, x.job))
      && (MainOld(r.w.main) != MainOld(w.main) && MainOld(r.w.main).Full? ==> !DrainClears(w))
      && (PipeOld(r.w.pipe) != PipeOld(w.pipe) && PipeOld(r.w.pipe).Full? ==> !w.pipe.Exited?)
      && (DrainClears(w) && w.pipe.Exited? && r.w.ledger.pending.Full? ==> DrainClears(r.w) && r.w.pipe.Exited?)
  }

  lemma OldUnexecuted(w: Worker, x: Shift, r: LocalResult, before: RWMachine.Slot, after: RWMachine.Slot)
    requires Places(w) && ShiftAfter(w, x, r) && r.Moved? && OldAfter(before, after, x, w.ledger.pending)
    requires Unexecuted(w.ledger, before) && (before.Full? ==> Loose(w.ledger, before.job))
    requires before.Full? && after == before ==> !(x.LooseSettled? && x.job == before.job && x.how.Executed?)
    requires after != before ==> Unexecuted(w.ledger, w.ledger.pending)
    ensures Unexecuted(r.w.ledger, after)
  {
    if after.Full? && after == before { LooseUnexecuted(Seen(w), x, after.job); }
  }

  lemma PendingUnexecuted(w: Worker, x: Shift, r: LocalResult)
    requires Places(w) && ShiftAfter(w, x, r) && r.Moved? && Unexecuted(w.ledger, w.ledger.pending)
    requires !(x.LooseSettled? && x.how.Executed?)
    ensures Unexecuted(r.w.ledger, r.w.ledger.pending)
  {
    var v := Seen(w);
    if v.ledger.pending.Full? { LooseUnexecuted(v, x, v.ledger.pending.job); }
    if v.mainJob.Full? { assert v.ledger.At(v.mainJob.job, AtMain); }
    if v.pipeJob.Full? { assert v.ledger.At(v.pipeJob.job, AtPipe); }
  }

  /** What was executed stays executed. */
  ghost predicate ForGood(w: Worker, w': Worker)
  {
    forall j :: WasExecuted(w.ledger, j) ==> WasExecuted(w'.ledger, j)
  }

  ghost predicate ExecutionsAfter(w: Worker, r: LocalResult) { r.Moved? ==> Executions(r.w) && ForGood(w, r.w) }

  lemma ForGoodKept(w: Worker, x: Shift, r: LocalResult)
    requires Places(w) && ShiftAfter(w, x, r) && Careful(w, x, r) && r.Moved?
    ensures ForGood(w, r.w)
  {
    forall j | WasExecuted(w.ledger, j) ensures WasExecuted(r.w.ledger, j) {
      if Settles(Seen(w), x) == Full(j) { SettledNow(Seen(w), x); } else { SettledSame(Seen(w), x, j); }
    }
  }

  lemma ExecutionsKept(w: Worker, x: Shift, r: LocalResult)
    requires Places(w) && Executions(w) && ShiftAfter(w, x, r) && Careful(w, x, r) && r.Moved?
    ensures ExecutionsAfter(w, r)
  {
    ForGoodKept(w, x, r);
    ReleasedKept(Seen(w), x);
    if !(x.LooseSettled? && x.how.Executed?) && Unexecuted(w.ledger, w.ledger.pending) { PendingUnexecuted(w, x, r); }
    MainOldUnexecuted(w, x, r);
    PipeOldUnexecuted(w, x, r);
    hide Places, ShiftAfter, Released;
    if !Unexecuted(w.ledger, w.ledger.pending) { assert DrainClears(w) && w.pipe.Exited?; }
  }

  lemma MainOldUnexecuted(w: Worker, x: Shift, r: LocalResult)
    requires Places(w) && Executions(w) && ShiftAfter(w, x, r) && Careful(w, x, r) && r.Moved?
    ensures Unexecuted(r.w.ledger, MainOld(r.w.main))
  {
    if MainOld(r.w.main).Full? { OldUnexecuted(w, x, r, MainOld(w.main), MainOld(r.w.main)); }
  }

  lemma PipeOldUnexecuted(w: Worker, x: Shift, r: LocalResult)
    requires Places(w) && Executions(w) && ShiftAfter(w, x, r) && Careful(w, x, r) && r.Moved?
    ensures Unexecuted(r.w.ledger, PipeOld(r.w.pipe))
  {
    if PipeOld(r.w.pipe).Full? { OldUnexecuted(w, x, r, PipeOld(w.pipe), PipeOld(r.w.pipe)); }
  }

  // ---- Every step is careful

  lemma CarefulMain(cfg: Config, g: Shared, w: Worker, id: WorkerId, c: Choice)
    requires Executions(w) && InLoop(w.main)
    ensures Careful(w, MainShift(cfg, w, c), MainStep(cfg, g, w, id, c))
  {
    hide Released;
  }

  lemma CarefulWrite(cfg: Config, g: Shared, w: Worker, id: WorkerId, c: Choice)
    requires Executions(w) && w.main.MainWrite?
    ensures Careful(w, MainShift(cfg, w, c), MainStep(cfg, g, w, id, c))
  {
    hide Released;
  }

  lemma CarefulShutdown(cfg: Config, g: Shared, w: Worker, id: WorkerId, c: Choice)
    requires Executions(w) && InShutdown(w.main)
    ensures Careful(w, MainShift(cfg, w, c), MainStep(cfg, g, w, id, c))
  {
    hide Released;
  }

  /** The drain executes only without a stop timeout: then it has the parked job to itself. */
  lemma CarefulResidue(cfg: Config, rw: bool, g: Shared, w: Worker, id: WorkerId, c: Choice)
    requires Executions(w) && InResidue(w.main) && Life(cfg, rw, w) && (!w.timedOut ==> Slotted(w))
    ensures Careful(w, MainShift(cfg, w, c), MainStep(cfg, g, w, id, c))
  {
    hide Released;
  }

  lemma CarefulPipe(cfg: Config, g: Shared, w: Worker, id: WorkerId, c: Choice)
    requires Executions(w)
    ensures Careful(w, PipeShift(w, c), PipeStep(cfg, g, w, id, c))
  {
    hide Released;
    if w.pipe.PipeWrite? { CarefulPipeWrite(cfg, g, w, id, c); } else { CarefulLaunch(cfg, g, w, id, c); }
  }

  lemma CarefulPipeWrite(cfg: Config, g: Shared, w: Worker, id: WorkerId, c: Choice)
    requires Executions(w) && w.pipe.PipeWrite?
    ensures Careful(w, PipeShift(w, c), PipeStep(cfg, g, w, id, c))
  {
    hide Released;
  }

  lemma CarefulLaunch(cfg: Config, g: Shared, w: Worker, id: WorkerId, c: Choice)
    requires !w.pipe.PipeWrite?
    ensures Careful(w, PipeShift(w, c), PipeStep(cfg, g, w, id, c))
  {
    hide WriteStep;
  }

  lemma ExecutionsMain(cfg: Config, rw: bool, g: Shared, w: Worker, id: WorkerId, c: Choice)
    requires Places(w) && Executions(w) && Life(cfg, rw, w) && (!w.timedOut ==> Slotted(w))
    ensures ExecutionsAfter(w, MainStep(cfg, g, w, id, c))
  {
    hide MainStep, Executions, Places, Slotted, Careful, Life;
    if MainStep(cfg, g, w, id, c).Moved? {
      MainShifting(cfg, g, w, id, c);
      if w.main.MainWrite? { CarefulWrite(cfg, g, w, id, c); }
      else if InShutdown(w.main) { CarefulShutdown(cfg, g, w, id, c); }
      else if InResidue(w.main) { CarefulResidue(cfg, rw, g, w, id, c); }
      else { CarefulMain(cfg, g, w, id, c); }
      ExecutionsKept(w, MainShift(cfg, w, c), MainStep(cfg, g, w, id, c));
    }
  }

  lemma ExecutionsPipe(cfg: Config, g: Shared, w: Worker, id: WorkerId, c: Choice)
    requires Places(w) && Executions(w)
    ensures ExecutionsAfter(w, PipeStep(cfg, g, w, id, c))
  {
    hide PipeStep, Executions, Places, Careful;
    if PipeStep(cfg, g, w, id, c).Moved? {
      PipeShifting(cfg, g, w, id, c);
      CarefulPipe(cfg, g, w, id, c);
      ExecutionsKept(w, PipeShift(w, c), PipeStep(cfg, g, w, id, c));
    }
  }

  lemma CarefulElse(w: Worker, x: Shift, r: LocalResult)
    requires Executions(w) && r.Moved? && r.w.main == w.main && r.w.pipe == w.pipe && !x.LooseSettled?
    ensures Careful(w, x, r)
  {
  }

  lemma ExecutionsRead(g: Shared, w: Worker, id: WorkerId, j: Job, cancelled: bool)
    requires Places(w) && Executions(w)
    ensures ExecutionsAfter(w, ReadStep(g, w, id, j, cancelled))
  {
    hide ReadStep, Executions, Places, Careful;
    var r := ReadStep(g, w, id, j, cancelled);
    if r.Moved? {
      ReadSame(g, w, id, j, cancelled);
      ShiftsRead(g, w, id, j, cancelled);
      CarefulElse(w, ReadShift(w, j, cancelled), r);
      ExecutionsKept(w, ReadShift(w, j, cancelled), r);
    }
  }

  lemma ExecutionsSubmit(cfg: Config, g: Shared, w: Worker, id: WorkerId, a: Action)
    requires Places(w) && Executions(w) && ((a.Submit? && a.job !in w.ledger.place) || a.BeginStop?)
    ensures ExecutionsAfter(w, WorkerStep(cfg, g, w, id, a))
  {
    hide Executions, Careful;
    var r := WorkerStep(cfg, g, w, id, a);
    if r.Moved? {
      assert ShiftAfter(w, ShiftOf(cfg, w, a), r);
      hide Places, ShiftAfter;
      CarefulElse(w, ShiftOf(cfg, w, a), r);
      ExecutionsKept(w, ShiftOf(cfg, w, a), r);
    }
  }

  lemma ExecutionsStep(cfg: Config, rw: bool, g: Shared, w: Worker, id: WorkerId, a: Action)
    requires Local(cfg, rw, g, id, w) && Executions(w) && (!w.timedOut ==> Slotted(w))
    requires a.Submit? ==> a.job !in w.ledger.place
    ensures ExecutionsAfter(w, WorkerStep(cfg, g, w, id, a))
  {
    hide MainStep, PipeStep, ReadStep, Executions, Slotted, Counters, Locks, Crowded, Life, Places;
    match a
    case ActMain(_, c) => ExecutionsMain(cfg, rw, g, w, id, c);
    case ActPipe(_, c) => ExecutionsPipe(cfg, g, w, id, c);
    case ActRead(_, j, cancelled) => ExecutionsRead(g, w, id, j, cancelled);
    case Submit(_, _) => ExecutionsSubmit(cfg, g, w, id, a);
    case BeginStop(_) => ExecutionsSubmit(cfg, g, w, id, a);
    case _ =>
  }

  // ---- Reads are over before the drain settles anything

  /** Past its waits, and without a stop timeout, the drain leaves no read that has still to run. */
  ghost predicate ReadsOver(w: Worker)
  {
    PastReads(w.main) && !w.timedOut ==> forall j :: j in w.crowd.tasks ==> !Unread(w.crowd.tasks[j])
  }

  lemma OverShutdown(cfg: Config, g: Shared, w: Worker, id: WorkerId, c: Choice)
    requires ReadsOver(w) && InShutdown(w.main) && Crowded(w.crowd, w.pipe)
    requires TaskLocks(id, g.readers, g.tokens, g.enabled, w.crowd.tasks)
    ensures var r := MainStep(cfg, g, w, id, c); r.Moved? ==> ReadsOver(r.w)
  {
    hide LoopStep, WriteStep, ResidueStep;
    if w.main.drain.at.AwaitGroup? && w.crowd.group == {} {
      assert forall j :: j in w.crowd.tasks ==> j in w.crowd.group;
    }
  }

  lemma OverMain(cfg: Config, g: Shared, w: Worker, id: WorkerId, c: Choice)
    requires ReadsOver(w) && !InShutdown(w.main)
    ensures var r := MainStep(cfg, g, w, id, c); r.Moved? ==> ReadsOver(r.w)
  {
    hide MainStep;
    if MainStep(cfg, g, w, id, c).Moved? {
      MainShifting(cfg, g, w, id, c);
      PastReadsBefore(cfg, g, w, id, c);
    }
  }

  /** The drain gets past its waits from its shutdown part only. */
  lemma PastReadsBefore(cfg: Config, g: Shared, w: Worker, id: WorkerId, c: Choice)
    requires !InShutdown(w.main)
    ensures var r := MainStep(cfg, g, w, id, c);
            r.Moved? && PastReads(r.w.main) ==> PastReads(w.main) && r.w.timedOut == w.timedOut
  {
  }

  lemma OverPipe(cfg: Config, rw: bool, g: Shared, w: Worker, id: WorkerId, c: Choice)
    requires ReadsOver(w) && Life(cfg, rw, w)
    ensures var r := PipeStep(cfg, g, w, id, c); r.Moved? ==> ReadsOver(r.w)
  {
    if w.pipe.Exited? { } else { PipeKeepsMain(cfg, g, w, id, c); }
  }

  lemma PipeKeepsMain(cfg: Config, g: Shared, w: Worker, id: WorkerId, c: Choice)
    ensures var r := PipeStep(cfg, g, w, id, c);
            r.Moved? ==> r.w.main == w.main && r.w.timedOut == w.timedOut && r.w.closed == w.closed
  {
  }

  lemma OverRead(g: Shared, w: Worker, id: WorkerId, j: Job, cancelled: bool)
    requires ReadsOver(w)
    ensures var r := ReadStep(g, w, id, j, cancelled); r.Moved? ==> ReadsOver(r.w)
  {
    ReadSame(g, w, id, j, cancelled);
  }

  lemma OverStep(cfg: Config, rw: bool, g: Shared, w: Worker, id: WorkerId, a: Action)
    requires Local(cfg, rw, g, id, w) && ReadsOver(w)
    ensures var r := WorkerStep(cfg, g, w, id, a); r.Moved? ==> ReadsOver(r.w)
  {
    hide MainStep, PipeStep, ReadStep, Counters, Life, Places;
    match a
    case ActMain(_, c) => if InShutdown(w.main) { OverShutdown(cfg, g, w, id, c); } else { OverMain(cfg, g, w, id, c); }
    case ActPipe(_, c) => OverPipe(cfg, rw, g, w, id, c);
    case ActRead(_, j, cancelled) => OverRead(g, w, id, j, cancelled);
    case _ =>
  }

  // ---- Over whole runs

  ghost predicate Clean(w: Worker) { Executions(w) && (!w.timedOut ==> Slotted(w) && ReadsOver(w)) }

  ghost predicate AllClean(s: State) { forall id :: id in s.workers ==> Clean(s.workers[id]) }

  lemma TimeoutStays(cfg: Config, g: Shared, w: Worker, id: WorkerId, a: Action)
    ensures var r := WorkerStep(cfg, g, w, id, a); r.Moved? && w.timedOut ==> r.w.timedOut
  {
  }

  lemma CleanStep(cfg: Config, rw: bool, g: Shared, w: Worker, id: WorkerId, a: Action)
    requires Local(cfg, rw, g, id, w) && Clean(w) && (a.Submit? ==> a.job !in w.ledger.place)
    ensures var r := WorkerStep(cfg, g, w, id, a); r.Moved? ==> Clean(r.w) && ForGood(w, r.w)
  {
    hide WorkerStep, Local, Executions, Slotted, ReadsOver, ForGood;
    ExecutionsStep(cfg, rw, g, w, id, a);
    TimeoutStays(cfg, g, w, id, a);
    if !w.timedOut {
      SlottedStep(cfg, rw, g, w, id, a);
      OverStep(cfg, rw, g, w, id, a);
    }
  }

  lemma GoroutineClean(cfg: Config, rw: bool, s: State, id: WorkerId, a: Action)
    requires Inv(cfg, rw, s) && AllClean(s)
    ensures var n := GoroutineStep(cfg, s, id, a); n.Some? ==> AllClean(n.value)
  {
    hide WorkerStep, Clean, Local, Flags, Owned, Emptied;
    if GoroutineStep(cfg, s, id, a).Some? {
      if a.Submit? { SubmittedFresh(s, id, a); }
      CleanStep(cfg, rw, s.g, s.workers[id], id, a);
    }
  }

  lemma ControlClean(s: State, target: WorkerId, alarm: bool)
    requires AllClean(s)
    ensures var n := ControlStep(s, target, alarm); n.Some? ==> AllClean(n.value)
  {
    ControlSameWorkers(s, target, alarm);
    hide ControlStep, Clean;
  }

  lemma ControlSameWorkers(s: State, target: WorkerId, alarm: bool)
    ensures var n := ControlStep(s, target, alarm); n.Some? ==> n.value.workers == s.workers
  {
  }

  lemma NewClean(rw: bool)
    ensures Clean(NewWorker(rw))
  {
  }

  lemma StepClean(cfg: Config, rw: bool, s: State, a: Action)
    requires Inv(cfg, rw, s) && AllClean(s)
    ensures var n := Step(cfg, rw, s, a); n.Some? ==> AllClean(n.value)
  {
    hide ControlStep, GoroutineStep, Clean, Inv;
    if a.ActControl? { ControlClean(s, a.target, a.alarm); }
    else if a.Grow? { NewClean(rw); }
    else if !a.Remove? { GoroutineClean(cfg, rw, s, a.worker, a); }
  }

  lemma {:induction false} AfterClean(cfg: Config, rw: bool, s: State, actions: seq<Action>)
    requires Sound(cfg, rw, s) && AllClean(s)
    ensures var n := After(cfg, rw, s, actions); n.Some? ==> AllClean(n.value)
    decreases |actions|
  {
    if actions != [] {
      StepClean(cfg, rw, s, actions[0]);
      hide Step, Sound, AllClean;
      StepSound(cfg, rw, s, actions[0]);
      var next := Step(cfg, rw, s, actions[0]);
      if next.Some? { AfterClean(cfg, rw, next.value, actions[1..]); }
    }
  }

  lemma ReachableClean(cfg: Config, rw: bool, s: State)
    requires Reachable(cfg, rw, s)
    ensures Sound(cfg, rw, s) && AllClean(s)
  {
    hide Step;
    var actions :| After(cfg, rw, Initial(rw), actions) == Some(s);
    assert After(cfg, rw, Initial(rw), []) == Some(Initial(rw));
    ReachableSound(cfg, rw, Initial(rw));
    ReachableSound(cfg, rw, s);
    hide Sound;
    AfterClean(cfg, rw, Initial(rw), actions);
  }

  // ---- The promises

  /** In every run: a job is released only when it is settled, and an executed job exactly once. */
  lemma ExecutedOnce(cfg: Config, rw: bool, s: State, id: WorkerId, j: Job)
    requires Reachable(cfg, rw, s) && id in s.workers
    ensures WasExecuted(s.workers[id].ledger, j) ==> s.workers[id].ledger.Releases(j) == 1
    ensures !s.workers[id].ledger.IsSettled(j) ==> s.workers[id].ledger.Releases(j) == 0
  {
    hide Reachable, Sound, Slotted, ReadsOver;
    ReachableClean(cfg, rw, s);
    assert Clean(s.workers[id]);
  }

  lemma DoneClean(cfg: Config, rw: bool, g: Shared, id: WorkerId, w: Worker, j: Job)
    requires Local(cfg, rw, g, id, w) && Slotted(w) && ReadsOver(w) && w.main.Done? && !w.timedOut
    requires j in w.ledger.place
    ensures w.ledger.IsSettled(j) || w.ledger.At(j, Lost)
  {
    hide Counters, Locks;
    assert w.ledger.At(j, w.ledger.place[j]);
  }

  /** In every run: when `run` has returned without a stop timeout, every job the worker accepted is
      settled, or was parked and overwritten by storePending, and so never executed. */
  lemma SettledOrOverwritten(cfg: Config, rw: bool, s: State, id: WorkerId, j: Job)
    requires Reachable(cfg, rw, s) && id in s.workers && s.workers[id].main.Done? && !s.workers[id].timedOut
    requires j in s.workers[id].ledger.place
    ensures s.workers[id].ledger.IsSettled(j) || s.workers[id].ledger.At(j, Lost)
  {
    hide Reachable, Switch, AllFixed, Flags, Owned, Emptied, PlacedUsed, Executions;
    ReachableClean(cfg, rw, s);
    assert Clean(s.workers[id]) && Local(cfg, rw, s.g, id, s.workers[id]);
    DoneClean(cfg, rw, s.g, id, s.workers[id], j);
  }

  lemma GoroutineForGood(cfg: Config, rw: bool, s: State, mover: WorkerId, a: Action, id: WorkerId)
    requires Inv(cfg, rw, s) && AllClean(s) && id in s.workers
    ensures var n := GoroutineStep(cfg, s, mover, a);
            n.Some? ==> id in n.value.workers && ForGood(s.workers[id], n.value.workers[id])
  {
    hide WorkerStep, Clean, Local, Flags, Owned, Emptied;
    if GoroutineStep(cfg, s, mover, a).Some? && mover == id {
      if a.Submit? { SubmittedFresh(s, id, a); }
      CleanStep(cfg, rw, s.g, s.workers[id], id, a);
    }
  }

  lemma StepForGood(cfg: Config, rw: bool, s: State, a: Action, id: WorkerId)
    requires Inv(cfg, rw, s) && AllClean(s) && id in s.workers
    ensures var n := Step(cfg, rw, s, a);
            n.Some? ==> id in n.value.workers && ForGood(s.workers[id], n.value.workers[id])
  {
    hide ControlStep, GoroutineStep, AllClean, Inv;
    if a.ActControl? { ControlSameWorkers(s, a.target, a.alarm); }
    else if a.Grow? { }
    else if !a.Remove? { GoroutineForGood(cfg, rw, s, a.worker, a, id); }
  }

  lemma {:induction false} AfterForGood(cfg: Config, rw: bool, s: State, id: WorkerId, actions: seq<Action>)
    requires Sound(cfg, rw, s) && AllClean(s) && id in s.workers
    ensures var n := After(cfg, rw, s, actions);
            n.Some? ==> id in n.value.workers && ForGood(s.workers[id], n.value.workers[id])
    decreases |actions|
  {
    hide Step, Inv, AllFixed, Switch, AllClean;
    if actions != [] {
      StepForGood(cfg, rw, s, actions[0], id);
      StepClean(cfg, rw, s, actions[0]);
      StepSound(cfg, rw, s, actions[0]);
      var next := Step(cfg, rw, s, actions[0]);
      if next.Some? { AfterForGood(cfg, rw, next.value, id, actions[1..]); }
    }
  }

  /** In every run: an executed job is never discarded or executed again, in any continuation. */
  lemma ExecutedForGood(cfg: Config, rw: bool, s: State, id: WorkerId, j: Job, actions: seq<Action>, s': State)
    requires Reachable(cfg, rw, s) && id in s.workers && WasExecuted(s.workers[id].ledger, j)
    requires After(cfg, rw, s, actions) == Some(s')
    ensures id in s'.workers && WasExecuted(s'.workers[id].ledger, j)
  {
    hide Reachable, Sound, AllClean, Step;
    ReachableClean(cfg, rw, s);
    AfterForGood(cfg, rw, s, id, actions);
  }
}
