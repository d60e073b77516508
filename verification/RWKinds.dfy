/** Which jobs leave the main loop: in every run only reads reach the pipeline and the read
    goroutines, so that exclusion can be stated over jobs. */
module RWKinds {
  import opened RWMachine
  import opened RWLocal
  import opened RWInvariant
  import opened RWFixed
  import opened RWRetired
  import opened RWSwitch
  import opened RWExecuted
  import opened RWTheorems

  /** A job past the kind test of execWithRW, in the channel, with the pipeline or with a read
      goroutine is a read. */
  ghost predicate OnlyReads(w: Worker)
  {
    && (Dispatching(w.main) ==> w.main.job.read)
    && (forall i :: 0 <= i < |w.flow.channel| ==> w.flow.channel[i].read)
    && (!w.pipe.Recv? && !w.pipe.Exited? ==> w.pipe.job.read)
    && (forall j :: j in w.crowd.tasks ==> j.read)
  }

  ghost predicate KindsAfter(r: LocalResult) { r.Moved? ==> OnlyReads(r.w) }

  lemma KindsMain(cfg: Config, g: Shared, w: Worker, id: WorkerId, c: Choice)
    requires OnlyReads(w)
    ensures KindsAfter(MainStep(cfg, g, w, id, c))
  {
    if w.main.MainWrite? { KindsWrite(cfg, g, w, id, c); }
    else if w.main.Drain? { KindsDrain(cfg, g, w, id, c); }
    else { KindsLoop(cfg, g, w, id, c); }
  }

  lemma KindsLoop(cfg: Config, g: Shared, w: Worker, id: WorkerId, c: Choice)
    requires OnlyReads(w) && InLoop(w.main)
    ensures KindsAfter(MainStep(cfg, g, w, id, c))
  {
    hide WriteStep, ShutdownStep, ResidueStep;
  }

  lemma KindsWrite(cfg: Config, g: Shared, w: Worker, id: WorkerId, c: Choice)
    requires OnlyReads(w) && w.main.MainWrite?
    ensures KindsAfter(MainStep(cfg, g, w, id, c))
  {
    hide LoopStep, WriteStep, ShutdownStep, ResidueStep;
  }

  lemma KindsDrain(cfg: Config, g: Shared, w: Worker, id: WorkerId, c: Choice)
    requires OnlyReads(w) && w.main.Drain?
    ensures KindsAfter(MainStep(cfg, g, w, id, c))
  {
    hide LoopStep, WriteStep, ShutdownStep, ResidueStep;
    if InShutdown(w.main) { ShutdownDraining(g, w, id, w.main.drain.at, c); }
    else { ResidueDraining(cfg, g, w, w.main.drain.mode, w.main.drain.pc, c); }
  }

  lemma KindsPipe(cfg: Config, g: Shared, w: Worker, id: WorkerId, c: Choice)
    requires OnlyReads(w)
    ensures KindsAfter(PipeStep(cfg, g, w, id, c))
  {
    hide WriteStep, TokenLeft;
  }

  lemma KindsRead(g: Shared, w: Worker, id: WorkerId, j: Job, cancelled: bool)
    requires OnlyReads(w)
    ensures KindsAfter(ReadStep(g, w, id, j, cancelled))
  {
  }

  lemma KindsStep(cfg: Config, g: Shared, w: Worker, id: WorkerId, a: Action)
    requires OnlyReads(w)
    ensures KindsAfter(WorkerStep(cfg, g, w, id, a))
  {
    hide MainStep, PipeStep, ReadStep;
    match a
    case ActMain(_, c) => KindsMain(cfg, g, w, id, c);
    case ActPipe(_, c) => KindsPipe(cfg, g, w, id, c);
    case ActRead(_, j, cancelled) => KindsRead(g, w, id, j, cancelled);
    case _ =>
  }

  ghost predicate AllReads(s: State) { forall id :: id in s.workers ==> OnlyReads(s.workers[id]) }

  lemma StepKinds(cfg: Config, rw: bool, s: State, a: Action)
    requires AllReads(s)
    ensures var n := Step(cfg, rw, s, a); n.Some? ==> AllReads(n.value)
  {
    hide ControlStep, WorkerStep, OnlyReads;
    if a.ActControl? { ControlSameWorkers(s, a.target, a.alarm); }
    else if a.Grow? { NewKinds(rw); }
    else if !a.Remove? && a.worker in s.workers { KindsStep(cfg, s.g, s.workers[a.worker], a.worker, a); }
  }

  lemma NewKinds(rw: bool)
    ensures OnlyReads(NewWorker(rw))
  {
  }

  lemma {:induction false} AfterKinds(cfg: Config, rw: bool, s: State, actions: seq<Action>)
    requires AllReads(s)
    ensures var n := After(cfg, rw, s, actions); n.Some? ==> AllReads(n.value)
    decreases |actions|
  {
    hide Step, AllReads;
    if actions != [] {
      StepKinds(cfg, rw, s, actions[0]);
      var next := Step(cfg, rw, s, actions[0]);
      if next.Some? { AfterKinds(cfg, rw, next.value, actions[1..]); }
    }
  }

  /** In every run only reads are dispatched, travel in the channel, and reach the pipeline and the
      read goroutines. */
  lemma OnlyReadsLeaveMain(cfg: Config, rw: bool, s: State, id: WorkerId)
    requires Reachable(cfg, rw, s) && id in s.workers
    ensures OnlyReads(s.workers[id])
  {
    hide Step;
    var actions :| After(cfg, rw, Initial(rw), actions) == Some(s);
    AfterKinds(cfg, rw, Initial(rw), actions);
  }

  // ---- Exclusion over jobs

  /** The main loop is in ExecuteJob with `j`. */
  predicate MainExecutes(m: MainPc, j: Job)
  {
    match m
    case MainWrite(i, Hold(true)) => i == j
    case Serial(i, true) => i == j
    case Drain(Residue(_, SettlePending(i, true))) => i == j
    case Drain(Residue(_, SettleQueued(i, true))) => i == j
    case _ => false
  }

  /** Job `j` is in ExecuteJob somewhere on worker `id`. */
  predicate JobRuns(s: State, id: WorkerId, j: Job)
  {
    || (id in s.workers && MainExecutes(s.workers[id].main, j))
    || (PipeRuns(s, id) && s.workers[id].pipe.job == j)
    || TaskRuns(s, id, j)
  }

  /** In every run a job that is not a read runs only on its worker's main loop. */
  lemma WritesRunOnMain(cfg: Config, rw: bool, s: State, id: WorkerId, j: Job)
    requires Reachable(cfg, rw, s) && JobRuns(s, id, j) && !j.read
    ensures MainRuns(s, id) && MainExecutes(s.workers[id].main, j)
  {
    hide Reachable;
    OnlyReadsLeaveMain(cfg, rw, s, id);
  }

  /** RW mode on and no rollback so far: while a job that is not a read is in ExecuteJob, no other
      ExecuteJob runs on any worker, in main loops, drains, pipelines and read goroutines alike. */
  lemma WriteRunsAlone(cfg: Config, rw: bool, s: State, id: WorkerId, j: Job, other: WorkerId, i: Job)
    requires Reachable(cfg, rw, s) && s.g.enabled && !s.rolledBack
    requires JobRuns(s, id, j) && !j.read && JobRuns(s, other, i)
    ensures other == id && i == j
  {
    hide Reachable, Local, Fixed, Switch, Owned, Emptied, PlacedUsed;
    ReachableSound(cfg, rw, s);
    WritesRunOnMain(cfg, rw, s, id, j);
    WritesExcludeAll(cfg, s, id);
    if other in s.workers && MainExecutes(s.workers[other].main, i) { assert MainRuns(s, other); }
  }
}
