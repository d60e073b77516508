/** The promises of the worker protocol, for every reachable state of every run. */
module RWTheorems {
  import opened RWMachine
  import opened RWLocal
  import opened RWInvariant
  import opened RWFixed
  import opened RWRetired
  import opened RWSwitch
  import opened RWSlot
  import opened RWExecuted

  // ---- Ordering

  /** readsDispatched - readsLaunched is the number of reads in readCh plus those held
      uncounted, in every run, also when a full channel makes the main loop bump both. */
  lemma CountersAlways(cfg: Config, rw: bool, s: State, id: WorkerId)
    requires Reachable(cfg, rw, s) && id in s.workers
    ensures var w := s.workers[id];
            w.flow.dispatched - w.flow.launched == |w.flow.channel| + MainUncounted(w.main) + PipeUncounted(w.pipe)
  {
    ReachableSound(cfg, rw, s);
  }

  /** The job has left the queue. */
  predicate Dequeued(w: Worker, j: Job) { j in w.ledger.place && !w.ledger.At(j, Queued) }

  /** ExecuteJob has returned, or the job was discarded without it, or it is about to be
      discarded without it. */
  predicate OverAndDone(w: Worker, j: Job) { w.ledger.IsSettled(j) || w.pipe == DiscardLate(j) }

  /** Beside a write that holds the lock: the job is parked or lost by storePending, or it is a read
      that the pipeline downgraded, counted as launched and has still in execWrite. */
  predicate Overtaken(w: Worker, j: Job)
  {
    w.ledger.At(j, Parked) || w.ledger.At(j, Lost) || (w.pipe.PipeWrite? && PipeJob(w.pipe) == Full(j))
  }

  lemma WriterAlone(cfg: Config, rw: bool, g: Shared, id: WorkerId, w: Worker, j: Job)
    requires Local(cfg, rw, g, id, w) && Dequeued(w, j)
    requires w.main.MainWrite? && w.main.pc.Hold? && j != w.main.job
    ensures OverAndDone(w, j) || Overtaken(w, j)
  {
    assert g.readers == {} && w.flow.channel == [] && PipeUncounted(w.pipe) == 0;
    assert w.ledger.At(j, w.ledger.place[j]) && ReaderOf(id, j) !in g.readers;
  }

  lemma NotOvertaken(rw: bool, w: Worker, j: Job)
    requires Fixed(rw, w) && w.main.MainWrite? && w.main.pc.Hold?
    ensures !Overtaken(w, j)
  {
  }

  /** In every run: while the main loop holds the write lock for a write, every job the worker
      dequeued before it is over, or the write overtakes it. That happens only once a switch has
      turned the mode off, and with the mode on again only after a rollback. */
  lemma ReadsBesideWrite(cfg: Config, rw: bool, s: State, id: WorkerId, j: Job)
    requires Reachable(cfg, rw, s) && id in s.workers && Dequeued(s.workers[id], j)
    requires s.workers[id].main.MainWrite? && s.workers[id].main.pc.Hold? && j != s.workers[id].main.job
    ensures OverAndDone(s.workers[id], j) || Overtaken(s.workers[id], j)
    ensures Overtaken(s.workers[id], j) ==> s.flipped && (s.g.enabled ==> s.rolledBack)
  {
    hide Reachable, Local, Switch, Owned, Emptied, PlacedUsed, Fixed, Overtaken, OverAndDone;
    ReachableSound(cfg, rw, s);
    WriterAlone(cfg, rw, s.g, id, s.workers[id], j);
    if !s.flipped { NotOvertaken(rw, s.workers[id], j); }
  }

  /** RW mode on and no rollback so far: while the main loop holds the write lock for a write, every
      job the worker dequeued before it is over. */
  lemma ReadsBeforeWrite(cfg: Config, rw: bool, s: State, id: WorkerId, j: Job)
    requires Reachable(cfg, rw, s) && s.g.enabled && !s.rolledBack && id in s.workers && Dequeued(s.workers[id], j)
    requires s.workers[id].main.MainWrite? && s.workers[id].main.pc.Hold? && j != s.workers[id].main.job
    ensures OverAndDone(s.workers[id], j)
  {
    hide Reachable, Overtaken, OverAndDone;
    ReadsBesideWrite(cfg, rw, s, id, j);
  }

  lemma DrainAlone(cfg: Config, rw: bool, g: Shared, id: WorkerId, w: Worker, j: Job)
    requires Local(cfg, rw, g, id, w) && Slotted(w) && ReadsOver(w) && Dequeued(w, j)
    requires InResidue(w.main) && !w.timedOut
    ensures || w.ledger.IsSettled(j) || w.ledger.pending == Full(j) || MainJob(w.main) == Full(j)
            || w.ledger.At(j, Lost)
  {
    hide Counters, Locks;
    assert w.pipe.Exited?;
    assert w.ledger.At(j, w.ledger.place[j]);
  }

  /** In every run: while the drain settles residual jobs after no stop timeout, in particular while it
      holds the write lock, every dequeued job is settled, but for the one in pendingJob, the one being
      drained, and, once a switch has turned the mode off, one that storePending overwrote. */
  lemma ReadsBeforeDrain(cfg: Config, rw: bool, s: State, id: WorkerId, j: Job)
    requires Reachable(cfg, rw, s) && id in s.workers && Dequeued(s.workers[id], j) && InResidue(s.workers[id].main)
    requires s.workers[id].main.drain.mode.locked || !s.workers[id].timedOut
    ensures var w := s.workers[id];
            || w.ledger.IsSettled(j) || w.ledger.pending == Full(j) || MainJob(w.main) == Full(j)
            || (s.flipped && w.ledger.At(j, Lost))
  {
    hide Reachable, Switch, Owned, Flags, Emptied, PlacedUsed, Executions, Slotted, ReadsOver, Branches, DrainModes;
    hide Counters, Locks, Places, Crowded;
    ReachableClean(cfg, rw, s);
    assert Local(cfg, rw, s.g, id, s.workers[id]) && Clean(s.workers[id]);
    DrainAlone(cfg, rw, s.g, id, s.workers[id], j);
  }

  // ---- Exclusion

  /** ExecuteJob is running on the main loop of `id`, on its pipeline, on a read goroutine. */
  predicate MainRuns(s: State, id: WorkerId)
  {
    id in s.workers &&
    var m := s.workers[id].main;
    (m.MainWrite? && m.pc == Hold(true)) || (m.Serial? && m.running) || DrainRuns(m)
  }

  predicate PipeRuns(s: State, id: WorkerId)
  {
    id in s.workers && s.workers[id].pipe.PipeWrite? && s.workers[id].pipe.pc == Hold(true)
  }

  predicate TaskRuns(s: State, id: WorkerId, j: Job)
  {
    id in s.workers && j in s.workers[id].crowd.tasks && s.workers[id].crowd.tasks[j].Running?
  }

  lemma RunnerHoldsLock(cfg: Config, s: State, id: WorkerId)
    requires Sound(cfg, true, s) && !s.flipped && MainRuns(s, id)
    ensures s.g.writer == MainOf(id) && s.g.readers == {}
  {
    assert Fixed(true, s.workers[id]) && Local(cfg, true, s.g, id, s.workers[id]);
  }

  lemma NoReaderRuns(cfg: Config, rw: bool, s: State, id: WorkerId, j: Job)
    requires Sound(cfg, rw, s) && s.g.readers == {}
    ensures !TaskRuns(s, id, j)
  {
    if id in s.workers {
      assert Local(cfg, rw, s.g, id, s.workers[id]);
      NoTaskReads(s.g, id, s.workers[id], j);
    }
  }

  lemma NoTaskReads(g: Shared, id: WorkerId, w: Worker, j: Job)
    requires Locks(g, id, w) && g.readers == {}
    ensures j in w.crowd.tasks ==> !Reading(w.crowd.tasks[j])
  {
    assert ReaderOf(id, j) !in g.readers;
  }

  lemma NoPipeRuns(cfg: Config, rw: bool, s: State, id: WorkerId)
    requires Sound(cfg, rw, s) && !s.flipped
    ensures !PipeRuns(s, id)
  {
    if id in s.workers { assert Fixed(rw, s.workers[id]); }
  }

  /** The main loop executes without the lock: serially, or in a drain that did not take it. */
  predicate RunsUnlocked(m: MainPc) { m.Serial? || (InResidue(m) && !m.drain.mode.locked) }

  /** In every run two ExecuteJobs outside read goroutines overlap only if one of them is a main
      loop's without the lock; two pipelines never do. */
  lemma LockedRunsExclude(cfg: Config, rw: bool, s: State, id: WorkerId, other: WorkerId)
    requires Reachable(cfg, rw, s)
    ensures MainRuns(s, id) && MainRuns(s, other) && id != other ==>
              RunsUnlocked(s.workers[id].main) || RunsUnlocked(s.workers[other].main)
    ensures MainRuns(s, id) && PipeRuns(s, other) ==> RunsUnlocked(s.workers[id].main)
    ensures PipeRuns(s, id) && PipeRuns(s, other) ==> id == other
  {
    hide Sound, Reachable, RunsUnlocked, MainRuns, PipeRuns;
    ReachableSound(cfg, rw, s);
    RunnersWrite(cfg, rw, s, id);
    RunnersWrite(cfg, rw, s, other);
  }

  lemma RunnersWrite(cfg: Config, rw: bool, s: State, id: WorkerId)
    requires Sound(cfg, rw, s)
    ensures MainRuns(s, id) ==> id in s.workers && (RunsUnlocked(s.workers[id].main) || s.g.writer == MainOf(id))
    ensures PipeRuns(s, id) ==> s.g.writer == PipeOf(id)
  {
    hide Sound;
    if MainRuns(s, id) && !RunsUnlocked(s.workers[id].main) { MainRunnerWrites(cfg, rw, s, id); }
    if PipeRuns(s, id) { PipeRunnerWrites(cfg, rw, s, id); }
  }

  /** While RW mode stays enabled, an ExecuteJob that is not a read goroutine's overlaps no other
      ExecuteJob, on any worker, in the main loops and in the shutdown drains alike. */
  lemma WritesExcludeAll(cfg: Config, s: State, id: WorkerId)
    requires Reachable(cfg, true, s) && !s.flipped && MainRuns(s, id)
    ensures forall other :: MainRuns(s, other) ==> other == id
    ensures forall other :: !PipeRuns(s, other)
    ensures forall other, j :: !TaskRuns(s, other, j)
  {
    ReachableSound(cfg, true, s);
    RunnerHoldsLock(cfg, s, id);
    forall other | MainRuns(s, other) ensures other == id { RunnerHoldsLock(cfg, s, other); }
    forall other ensures !PipeRuns(s, other) { NoPipeRuns(cfg, true, s, other); }
    forall other, j ensures !TaskRuns(s, other, j) { NoReaderRuns(cfg, true, s, other, j); }
  }

  /** In every run a read goroutine's ExecuteJob overlaps only other read goroutines', unless a
      failed switch rolled the mode back; then it may overlap one that does not hold the lock. */
  lemma ReadsExcludeOthers(cfg: Config, rw: bool, s: State, reader: WorkerId, j: Job)
    requires Reachable(cfg, rw, s) && TaskRuns(s, reader, j)
    ensures forall other :: !PipeRuns(s, other)
    ensures forall other :: MainRuns(s, other) ==> s.rolledBack && RunsUnlocked(s.workers[other].main)
  {
    ReachableSound(cfg, rw, s);
    ReaderHoldsLock(cfg, rw, s, reader, j);
    hide Sound, Reachable;
    forall other ensures !PipeRuns(s, other) { if PipeRuns(s, other) { PipeRunnerWrites(cfg, rw, s, other); } }
    forall other | MainRuns(s, other) ensures s.rolledBack && RunsUnlocked(s.workers[other].main) {
      if !s.rolledBack { ReadsNeedMode(cfg, rw, s, reader, j); WritesExcludeAll(cfg, s, other); }
      else if !RunsUnlocked(s.workers[other].main) { MainRunnerWrites(cfg, rw, s, other); }
    }
  }

  lemma ReaderHoldsLock(cfg: Config, rw: bool, s: State, reader: WorkerId, j: Job)
    requires Sound(cfg, rw, s) && TaskRuns(s, reader, j)
    ensures ReaderOf(reader, j) in s.g.readers && s.g.writer == Nobody
  {
    hide Fixed, Switch, Places, Counters, Life;
    assert Local(cfg, rw, s.g, reader, s.workers[reader]);
  }

  lemma ReadsNeedMode(cfg: Config, rw: bool, s: State, reader: WorkerId, j: Job)
    requires Sound(cfg, rw, s) && TaskRuns(s, reader, j) && !s.rolledBack
    ensures rw && !s.flipped
  {
    hide Fixed, Switch, Places, Counters, Life;
    assert Local(cfg, rw, s.g, reader, s.workers[reader]);
  }

  lemma PipeRunnerWrites(cfg: Config, rw: bool, s: State, id: WorkerId)
    requires Sound(cfg, rw, s) && PipeRuns(s, id)
    ensures s.g.writer == PipeOf(id)
  {
    hide Fixed, Switch, Places, Counters, Life;
    assert Local(cfg, rw, s.g, id, s.workers[id]);
  }

  lemma MainRunnerWrites(cfg: Config, rw: bool, s: State, id: WorkerId)
    requires Sound(cfg, rw, s) && MainRuns(s, id) && !RunsUnlocked(s.workers[id].main)
    ensures s.g.writer == MainOf(id)
  {
    hide Fixed, Switch, Places, Counters, Life;
    assert Local(cfg, rw, s.g, id, s.workers[id]);
  }

  /** With a semaphore, at most MaxConcurrentReads read goroutines execute at a time. */
  lemma ReadsBounded(cfg: Config, rw: bool, s: State, running: set<Holder>)
    requires Reachable(cfg, rw, s) && cfg.tokenCap > 0
    requires forall h :: h in running ==> h.ReaderOf? && TaskRuns(s, h.worker, h.job)
    ensures |running| <= cfg.tokenCap
  {
    hide Reachable, AllFixed, Counters, Life, Places, Crowded, Flags, Emptied, PlacedUsed, WriterLocks, PipeLocks;
    ReachableSound(cfg, rw, s);
    forall h | h in running ensures h in s.g.tokens {
      assert Local(cfg, rw, s.g, h.worker, s.workers[h.worker]);
      assert h == ReaderOf(h.worker, h.job);
    }
    SubsetSize(running, s.g.tokens);
  }

  lemma {:induction false} SubsetSize(a: set<Holder>, b: set<Holder>)
    requires a <= b
    ensures |a| <= |b|
    decreases a
  {
    if a != {} {
      var h :| h in a;
      SubsetSize(a - {h}, b - {h});
    }
  }

  lemma TimedOutDrain(cfg: Config, rw: bool, g: Shared, w: Worker, id: WorkerId, c: Choice, j: Job)
    requires Life(cfg, rw, w) && w.timedOut
    ensures var r := MainStep(cfg, g, w, id, c);
            r.Moved? ==>
              && !(r.w.main.MainWrite? || r.w.main.Serial? || DrainRuns(r.w.main))
              && (r.w.ledger.IsSettled(j) && !w.ledger.IsSettled(j) ==>
                    && InResidue(w.main)
                    && r.w.ledger.At(j, Settled(if w.main.drain.mode.unsafe then Dropped else Discarded)))
  {
    hide LoopStep, WriteStep;
    assert PastPipe(w.main);
  }

  /** In every run, after a stop timeout: no step of the worker's main loop, which is its drain by
      then, calls ExecuteJob, and whatever such a step settles is discarded, silently exactly in an
      unsafe drain. */
  lemma TimedOutDrainExecutesNothing(
    cfg: Config, rw: bool, s: State, id: WorkerId, c: Choice, s': State, j: Job)
    requires Reachable(cfg, rw, s) && id in s.workers && s.workers[id].timedOut
    requires Step(cfg, rw, s, ActMain(id, c)) == Some(s')
    ensures !MainRuns(s', id)
    ensures s'.workers[id].ledger.IsSettled(j) && !s.workers[id].ledger.IsSettled(j) ==>
              var m := s.workers[id].main;
              InResidue(m) && s'.workers[id].ledger.At(j, Settled(if m.drain.mode.unsafe then Dropped else Discarded))
  {
    hide MainStep, Counters, Locks, Places, Crowded, Fixed, Switch;
    ReachableSound(cfg, rw, s);
    assert Local(cfg, rw, s.g, id, s.workers[id]);
    TimedOutDrain(cfg, rw, s.g, s.workers[id], id, c, j);
  }

  /** With RW mode on throughout such a drain is unsafe whenever it settles something: the service
      hears nothing of its jobs. */
  lemma UnsafeDrainSilent(cfg: Config, s: State, id: WorkerId, c: Choice, s': State, j: Job)
    requires Reachable(cfg, true, s) && !s.flipped && id in s.workers && s.workers[id].timedOut
    requires Step(cfg, true, s, ActMain(id, c)) == Some(s')
    ensures !MainRuns(s', id)
    ensures s'.workers[id].ledger.IsSettled(j) && !s.workers[id].ledger.IsSettled(j) ==>
              s'.workers[id].ledger.At(j, Settled(Dropped))
  {
    hide Reachable, MainRuns, LoopStep, WriteStep, ShutdownStep, Local, Branches, Parking, Once, Switch;
    TimedOutDrainExecutesNothing(cfg, true, s, id, c, s', j);
    ReachableSound(cfg, true, s);
    assert Fixed(true, s.workers[id]);
  }

  // ---- Admission and settlement

  /** Still closed, and the same jobs accepted. */
  ghost predicate Frozen(w: Worker, w': Worker) { w'.closed && w'.ledger.place.Keys == w.ledger.place.Keys }

  lemma AcceptedStep(cfg: Config, rw: bool, s: State, a: Action, id: WorkerId)
    requires Sound(cfg, rw, s) && id in s.workers && s.workers[id].closed
    ensures var n := Step(cfg, rw, s, a);
            n.Some? ==> id in n.value.workers && Frozen(s.workers[id], n.value.workers[id])
  {
    hide ControlStep, GoroutineStep, Local, Fixed, Switch;
    if a.ActControl? { ControlShared(rw, s, a.target, a.alarm); }
    else if a.Grow? { }
    else if !a.Remove? { AcceptedGoroutine(cfg, rw, s, a.worker, a, id); }
  }

  lemma AcceptedGoroutine(cfg: Config, rw: bool, s: State, mover: WorkerId, a: Action, id: WorkerId)
    requires Sound(cfg, rw, s) && id in s.workers && s.workers[id].closed
    ensures var n := GoroutineStep(cfg, s, mover, a);
            n.Some? ==> id in n.value.workers && Frozen(s.workers[id], n.value.workers[id])
  {
    hide WorkerStep, Local, Fixed, Switch, Owned, Emptied, PlacedUsed;
    if mover == id { AcceptedLocal(cfg, rw, s.g, s.workers[id], id, a); }
  }

  lemma AcceptedLocal(cfg: Config, rw: bool, g: Shared, w: Worker, id: WorkerId, a: Action)
    requires Local(cfg, rw, g, id, w) && (!rw ==> !g.enabled) && w.closed
    ensures var r := WorkerStep(cfg, g, w, id, a); r.Moved? ==> Frozen(w, r.w)
  {
    hide MainStep, PipeStep, ReadStep;
    var r := WorkerStep(cfg, g, w, id, a);
    if r.Moved? {
      ClosedKept(cfg, g, w, id, a);
      LocalKept(cfg, rw, g, w, id, a);
      KeysAfter(w, ShiftOf(cfg, w, a), r);
    }
  }

  lemma KeysAfter(w: Worker, x: Shift, r: LocalResult)
    requires Places(w) && ShiftAfter(w, x, r) && r.Moved? && !x.Pushed?
    ensures r.w.ledger.place.Keys == w.ledger.place.Keys
  {
    KeysKept(Seen(w), x);
  }

  lemma ClosedKept(cfg: Config, g: Shared, w: Worker, id: WorkerId, a: Action)
    requires w.closed
    ensures var r := WorkerStep(cfg, g, w, id, a); r.Moved? ==> r.w.closed && !ShiftOf(cfg, w, a).Pushed?
  {
  }

  lemma KeysKept(v: View, x: Shift)
    requires Agrees(v) && Allowed(v, x) && !x.Pushed?
    ensures Shifted(v, x).ledger.place.Keys == v.ledger.place.Keys + (if x.LooseSettled? then {x.job} else {})
  {
    if v.mainJob.Full? { assert v.ledger.At(v.mainJob.job, AtMain); }
    if v.pipeJob.Full? { assert v.ledger.At(v.pipeJob.job, AtPipe); }
    if v.channel != [] { assert v.channel[0] in v.channel && v.ledger.At(v.channel[0], InChannel); }
    if x.Popped? { assert v.ledger.At(x.job, Queued); }
    if x.TaskSettled? { assert v.ledger.At(x.job, AtReader); }
  }

  lemma {:induction false} StaysFrozen(cfg: Config, rw: bool, s: State, id: WorkerId, actions: seq<Action>)
    requires Sound(cfg, rw, s) && id in s.workers && s.workers[id].closed
    ensures var n := After(cfg, rw, s, actions);
            n.Some? ==> id in n.value.workers && Frozen(s.workers[id], n.value.workers[id])
    decreases |actions|
  {
    hide Step, Sound;
    if actions != [] {
      var next := Step(cfg, rw, s, actions[0]);
      AcceptedStep(cfg, rw, s, actions[0], id);
      StepSound(cfg, rw, s, actions[0]);
      if next.Some? { StaysFrozen(cfg, rw, next.value, id, actions[1..]); }
    }
  }

  /** Close is linearised with admission: after BeginStop the worker accepts nothing more, in any
      continuation of any run. */
  lemma NothingAcceptedAfterStop(cfg: Config, rw: bool, s: State, id: WorkerId, actions: seq<Action>, s': State)
    requires Reachable(cfg, rw, s) && id in s.workers && s.workers[id].closed
    requires After(cfg, rw, s, actions) == Some(s')
    ensures id in s'.workers && s'.workers[id].closed
    ensures s'.workers[id].ledger.place.Keys == s.workers[id].ledger.place.Keys
  {
    ReachableSound(cfg, rw, s);
    StaysFrozen(cfg, rw, s, id, actions);
  }

  lemma DoneLocal(cfg: Config, rw: bool, g: Shared, id: WorkerId, w: Worker, j: Job)
    requires Local(cfg, rw, g, id, w) && Fixed(rw, w) && w.main.Done? && !w.timedOut && j in w.ledger.place
    ensures w.ledger.IsSettled(j) && w.ledger.Releases(j) == 1
  {
    assert w.pipe.Exited? && w.crowd.tasks == map[];
    assert w.ledger.At(j, w.ledger.place[j]);
  }

  /** RW mode fixed, no stop timeout: when `run` returns, every job whose SubmitJob returned nil is
      settled and was released exactly once, and nothing of the worker is left running. */
  lemma ExactlyOnce(cfg: Config, rw: bool, s: State, id: WorkerId, j: Job)
    requires Reachable(cfg, rw, s) && !s.flipped && id in s.workers && s.workers[id].main.Done?
    requires !s.workers[id].timedOut
    ensures j in s.workers[id].ledger.place ==>
              && s.workers[id].ledger.IsSettled(j)
              && s.workers[id].ledger.Releases(j) == 1
    ensures s.workers[id].pipe.Exited? && s.workers[id].crowd.tasks == map[]
  {
    ReachableSound(cfg, rw, s);
    var w := s.workers[id];
    assert Local(cfg, rw, s.g, id, w) && Fixed(rw, w);
    if j in w.ledger.place { DoneLocal(cfg, rw, s.g, id, w, j); }
  }

  /** RW mode fixed, stop timeouts or not: no job is released twice, one that is not settled is
      not released, and storePending never finds a job to overwrite. */
  lemma AtMostOnce(cfg: Config, rw: bool, s: State, id: WorkerId, j: Job)
    requires Reachable(cfg, rw, s) && !s.flipped && id in s.workers
    ensures s.workers[id].ledger.Releases(j) == if s.workers[id].ledger.IsSettled(j) then 1 else 0
    ensures s.workers[id].main.MainWrite? && Leaving(s.workers[id].main.pc) ==> s.workers[id].ledger.pending.Empty?
    ensures !s.workers[id].ledger.At(j, Lost)
  {
    ReachableSound(cfg, rw, s);
    assert Fixed(rw, s.workers[id]);
  }

  // ---- Turning RW mode off

  /** SetRWEnabled(false) has returned nil: no read goroutine of a published worker is live, and
      none anywhere still executes or holds the read lock. */
  lemma SwitchSucceeded(cfg: Config, rw: bool, s: State, id: WorkerId, j: Job)
    requires Reachable(cfg, rw, s) && s.result == Some(true) && id in s.workers
    ensures !s.g.enabled && !s.g.disabling
    ensures id in s.snap ==> s.workers[id].crowd.tasks == map[]
    ensures j in s.workers[id].crowd.tasks ==>
              && !Reading(s.workers[id].crowd.tasks[j])
              && s.workers[id].ledger.IsSettled(j)
  {
    ReachableSound(cfg, rw, s);
    OffTasks(cfg, rw, s.g, id, s.workers[id], j);
  }

  lemma OffTasks(cfg: Config, rw: bool, g: Shared, id: WorkerId, w: Worker, j: Job)
    requires Local(cfg, rw, g, id, w) && !g.enabled
    ensures w.crowd.group == {} ==> w.crowd.tasks == map[]
    ensures j in w.crowd.tasks ==> !Reading(w.crowd.tasks[j]) && w.ledger.IsSettled(j)
  {
    assert forall i :: i in w.crowd.tasks ==> i in w.crowd.group;
  }

  /** It has returned an error: RW mode is on as before, and no barrier is left behind. */
  lemma SwitchFailed(cfg: Config, rw: bool, s: State)
    requires Reachable(cfg, rw, s) && s.control.Idle? && s.result == Some(false)
    ensures s.g.enabled && !s.g.disabling
  {
    ReachableSound(cfg, rw, s);
  }

  lemma OffStep(cfg: Config, rw: bool, s: State, a: Action, id: WorkerId)
    requires Sound(cfg, rw, s) && s.result == Some(true)
    ensures var n := Step(cfg, rw, s, a);
            n.Some? ==> n.value.result == Some(true) && TasksOf(n.value, id) <= TasksOf(s, id)
  {
    hide GoroutineStep;
    if a.ActControl? { }
    else if a.Grow? { }
    else if !a.Remove? { OffGoroutine(cfg, rw, s, a.worker, a, id); }
  }

  function TasksOf(s: State, id: WorkerId): set<Job> { if id in s.workers then s.workers[id].crowd.tasks.Keys else {} }

  lemma OffGoroutine(cfg: Config, rw: bool, s: State, mover: WorkerId, a: Action, id: WorkerId)
    requires Sound(cfg, rw, s) && !s.g.enabled
    ensures var n := GoroutineStep(cfg, s, mover, a);
            n.Some? ==> n.value.result == s.result && TasksOf(n.value, id) <= TasksOf(s, id)
  {
    hide WorkerStep, Local, Fixed, Switch, Owned, Emptied, PlacedUsed;
    if mover == id && id in s.workers {
      assert Local(cfg, rw, s.g, id, s.workers[id]);
      OffLocal(cfg, rw, s.g, s.workers[id], id, a);
    }
  }

  lemma OffLocal(cfg: Config, rw: bool, g: Shared, w: Worker, id: WorkerId, a: Action)
    requires Local(cfg, rw, g, id, w) && !g.enabled
    ensures var r := WorkerStep(cfg, g, w, id, a); r.Moved? ==> r.w.crowd.tasks.Keys <= w.crowd.tasks.Keys
  {
    hide MainStep, PipeStep, Counters, Life, Places, Crowded, ShiftAfter;
    match a
    case ActMain(_, c) => MainShifting(cfg, g, w, id, c);
    case ActPipe(_, c) => OffPipe(cfg, g, w, id, c);
    case _ =>
  }

  lemma {:induction false} StaysOff(cfg: Config, rw: bool, s: State, id: WorkerId, actions: seq<Action>)
    requires Sound(cfg, rw, s) && s.result == Some(true)
    ensures var n := After(cfg, rw, s, actions);
            n.Some? ==> n.value.result == Some(true) && TasksOf(n.value, id) <= TasksOf(s, id)
    decreases |actions|
  {
    hide Step, Sound;
    if actions != [] {
      var next := Step(cfg, rw, s, actions[0]);
      OffStep(cfg, rw, s, actions[0], id);
      StepSound(cfg, rw, s, actions[0]);
      if next.Some? { StaysOff(cfg, rw, next.value, id, actions[1..]); }
    }
  }

  /** After SetRWEnabled(false) returned nil no read goroutine is ever spawned again, on any worker,
      old or new. */
  lemma NoReadSpawnedAfterSwitch(cfg: Config, rw: bool, s: State, id: WorkerId, actions: seq<Action>, s': State)
    requires Reachable(cfg, rw, s) && s.result == Some(true) && After(cfg, rw, s, actions) == Some(s')
    ensures s'.result == Some(true) && TasksOf(s', id) <= TasksOf(s, id)
  {
    ReachableSound(cfg, rw, s);
    StaysOff(cfg, rw, s, id, actions);
  }

  /** In every run: a worker downgrades at most one read for each flip, and one more if its test of
      execWithRW was torn. */
  lemma StragglersBounded(cfg: Config, rw: bool, s: State, id: WorkerId)
    requires Reachable(cfg, rw, s) && Covered(s, id)
    ensures s.workers[id].downgrades <= s.flips + Tears(s, id) <= s.flips + 1
  {
    hide Inv, AllFixed;
    ReachableSound(cfg, rw, s);
  }

  /** Without a rollback, and unless its own test was torn, a worker downgrades at most one read,
      and the execWrite of that read finds the reads it waits for already launched: it never waits
      for its own pipeline. */
  lemma OneStraggler(cfg: Config, rw: bool, s: State, id: WorkerId)
    requires Reachable(cfg, rw, s) && !s.rolledBack && Covered(s, id) && id !in s.torn
    ensures s.workers[id].downgrades <= 1
    ensures var p := s.workers[id].pipe;
            p.PipeWrite? && (p.pc.AwaitLaunch? || p.pc.AwaitClosed?) ==> p.pc.target <= s.workers[id].flow.launched
  {
    ReachableSound(cfg, rw, s);
    var w := s.workers[id];
    hide Fixed, Places, Locks, Life;
    assert Local(cfg, rw, s.g, id, w) && PipeTarget(w);
    assert s.flipped ==> !s.g.enabled;
    NoSelfWait(w);
  }

  lemma NoSelfWait(w: Worker)
    requires Counters(w) && PipeTarget(w) && (w.downgrades == 0 || Backlog(w) == 0)
    ensures var p := w.pipe;
            p.PipeWrite? && (p.pc.AwaitLaunch? || p.pc.AwaitClosed?) ==> p.pc.target <= w.flow.launched
  {
  }

  /** A torn test included, without a rollback it is at most two. */
  lemma TwoStragglers(cfg: Config, rw: bool, s: State, id: WorkerId)
    requires Reachable(cfg, rw, s) && !s.rolledBack && Covered(s, id)
    ensures s.workers[id].downgrades <= 2
  {
    hide Inv, AllFixed;
    ReachableSound(cfg, rw, s);
  }

  // ---- No mutual waiting

  /** In every run the pipeline finds its write gate open: a main loop that asks for the lock has
      nothing left in the pipeline, and a pipeline that asks for it is not at the gate. */
  lemma WriteGateOpen(cfg: Config, rw: bool, s: State, id: WorkerId)
    requires Reachable(cfg, rw, s) && id in s.workers && s.workers[id].pipe.GateWriter?
    ensures s.workers[id].writeRequested == 0
  {
    ReachableSound(cfg, rw, s);
    hide Fixed, Switch, Places, Locks;
    assert Local(cfg, rw, s.g, id, s.workers[id]);
  }

  /** The main loop waits for reads that are not launched yet. */
  predicate AwaitsReads(w: Worker)
  {
    w.main.MainWrite? && (w.main.pc.AwaitLaunch? || w.main.pc.AwaitClosed?) && w.flow.launched < w.main.pc.target
  }

  function Distance(w: Worker): nat
    requires AwaitsReads(w)
  {
    w.main.pc.target - w.flow.launched
  }

  /** Mode switches and torn tests included, unless a switch rolled back: while a writer waits for
      earlier reads its own writeRequested is 0, and its distance is exactly what the live pipeline
      still has to launch. The pipeline can always step, or it waits for the read lock that the
      controller or a goroutine of another worker holds: the two never wait for each other. */
  lemma WriterWaitsOnLivePipeline(cfg: Config, rw: bool, s: State, id: WorkerId, c: Choice)
    requires Reachable(cfg, rw, s) && !s.rolledBack && id in s.workers && AwaitsReads(s.workers[id])
    ensures var w := s.workers[id];
            w.writeRequested == 0 && !w.pipe.Exited? && Distance(w) == |w.flow.channel| + PipeUncounted(w.pipe)
    ensures var w := s.workers[id];
            PipeStep(cfg, s.g, w, id, c).Moved? ||
            (w.pipe.AcquireRead? && (|| s.g.writer == Controller
                                     || ((s.g.writer.MainOf? || s.g.writer.PipeOf?) && s.g.writer.worker != id)))
  {
    hide PipeStep;
    ReachableSound(cfg, rw, s);
    WaiterNotDowngraded(cfg, rw, s, id);
    assert !s.g.writer.ReaderOf?;
    LivePipeline(cfg, rw, s.g, id, s.workers[id], c);
  }

  /** A main loop that waits in execWrite has a read on its way, which leaves none to be
      downgraded: its pipeline is not in execWrite. */
  lemma AwaitedBacklog(w: Worker)
    requires Counters(w) && AwaitsReads(w)
    ensures w.main.MainWrite? && Backlog(w) >= 1
  {
  }

  lemma WaiterNotDowngraded(cfg: Config, rw: bool, s: State, id: WorkerId)
    requires Sound(cfg, rw, s) && !s.rolledBack && id in s.workers && AwaitsReads(s.workers[id])
    ensures !s.workers[id].pipe.PipeWrite?
  {
    var w := s.workers[id];
    hide AllFixed, Counters, Places, Locks, Life, Crowded, PlacedUsed, Owned, Emptied, Scanned, Backlog, AwaitsReads;
    assert Local(cfg, rw, s.g, id, w) && PipeTarget(w);
    AwaitedBacklog(w);
    assert id in s.snap && Covered(s, id) && id !in s.torn;
  }

  lemma LivePipeline(cfg: Config, rw: bool, g: Shared, id: WorkerId, w: Worker, c: Choice)
    requires Local(cfg, rw, g, id, w) && !w.pipe.PipeWrite? && AwaitsReads(w)
    ensures w.writeRequested == 0 && !w.pipe.Exited? && Distance(w) == |w.flow.channel| + PipeUncounted(w.pipe)
    ensures PipeStep(cfg, g, w, id, c).Moved? ||
            (w.pipe.AcquireRead? && g.writer != Nobody && g.writer != MainOf(id) && g.writer != PipeOf(id))
  {
    hide Places;
  }

  // ---- The writer's distance

  predicate CountsLaunch(p: PipePc) { p.CountLaunch? || p.CountLate? || p.CountDowngrade? }

  /** How a step moves a waiting writer: one closer when the pipeline counts a launch; otherwise not
      at all, unless it gives up because the worker is closed. */
  ghost predicate DistanceAfter(w: Worker, w': Worker, counted: bool, waiter: bool)
    requires AwaitsReads(w)
  {
    if counted then
      if Distance(w) == 1 then !AwaitsReads(w') else AwaitsReads(w') && Distance(w') == Distance(w) - 1
    else if waiter && w.main.pc.AwaitClosed? && w.closed then !AwaitsReads(w')
    else AwaitsReads(w') && Distance(w') == Distance(w)
  }

  lemma PipeDistance(cfg: Config, g: Shared, w: Worker, id: WorkerId, c: Choice)
    requires AwaitsReads(w) && PipeStep(cfg, g, w, id, c).Moved?
    ensures DistanceAfter(w, PipeStep(cfg, g, w, id, c).w, CountsLaunch(w.pipe), false)
  {
    if w.pipe.PipeWrite? { } else if Gating(w.pipe) { } else { }
  }

  lemma MainDistance(cfg: Config, g: Shared, w: Worker, id: WorkerId, c: Choice)
    requires AwaitsReads(w) && MainStep(cfg, g, w, id, c).Moved?
    ensures DistanceAfter(w, MainStep(cfg, g, w, id, c).w, false, true)
  {
  }

  lemma WorkerDistance(cfg: Config, g: Shared, w: Worker, id: WorkerId, a: Action)
    requires AwaitsReads(w) && WorkerStep(cfg, g, w, id, a).Moved?
    ensures DistanceAfter(w, WorkerStep(cfg, g, w, id, a).w, a.ActPipe? && CountsLaunch(w.pipe), a.ActMain?)
  {
    hide MainStep, PipeStep;
    match a
    case ActMain(_, c) => MainDistance(cfg, g, w, id, c);
    case ActPipe(_, c) => PipeDistance(cfg, g, w, id, c);
    case _ =>
  }

  /** Any step of anybody: each launch the worker's own pipeline counts brings a waiting writer
      exactly one closer, and no other step moves it. */
  lemma PipelineClosesDistance(cfg: Config, rw: bool, s: State, a: Action, s': State, id: WorkerId)
    requires id in s.workers && AwaitsReads(s.workers[id]) && Step(cfg, rw, s, a) == Some(s')
    ensures id in s'.workers
    ensures DistanceAfter(s.workers[id], s'.workers[id],
                          a.ActPipe? && a.worker == id && CountsLaunch(s.workers[id].pipe),
                          a.ActMain? && a.worker == id)
  {
    hide WorkerStep;
    if !a.ActControl? && !a.Grow? && !a.Remove? && a.worker == id { WorkerDistance(cfg, s.g, s.workers[id], id, a); }
  }

  /** Somebody holds a token: a read goroutine or a pipeline that has still to give it back. */
  ghost predicate TokenLive(s: State, h: Holder)
  {
    && (h.ReaderOf? || h.PipeOf?) && h.worker in s.workers
    && (h.ReaderOf? ==> h.job in s.workers[h.worker].crowd.tasks && HasToken(s.workers[h.worker].crowd.tasks[h.job]))
    && (h.PipeOf? ==> PipeHasToken(s.workers[h.worker].pipe))
  }

  /** A pipeline that is refused a token holds none itself, and exactly MaxConcurrentReads live
      goroutines do. */
  lemma TokenRefused(cfg: Config, rw: bool, s: State, id: WorkerId, c: Choice)
    requires Reachable(cfg, rw, s) && id in s.workers && s.workers[id].pipe.GateToken?
    requires PipeStep(cfg, s.g, s.workers[id], id, c).w.pipe.Gate?
    ensures 0 < cfg.tokenCap == |s.g.tokens| && PipeOf(id) !in s.g.tokens
    ensures forall h :: h in s.g.tokens ==> TokenLive(s, h)
  {
    hide Reachable, AllFixed, Scanned, Stragglers, TornLast, Flips, Undowngraded, Retired, PipeTarget;
    hide Counters, Life, Places, Crowded, Flags, Emptied, PlacedUsed;
    ReachableSound(cfg, rw, s);
    assert Local(cfg, rw, s.g, id, s.workers[id]);
    forall h | h in s.g.tokens ensures TokenLive(s, h) {
      assert Local(cfg, rw, s.g, h.worker, s.workers[h.worker]);
      if h.ReaderOf? { assert h == ReaderOf(h.worker, h.job); } else { assert h == PipeOf(h.worker); }
    }
  }
}
