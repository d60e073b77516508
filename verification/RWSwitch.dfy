/** What SetRWEnabled(false) leaves in the read pipelines, and the semaphore bound. */
module RWSwitch {
  import opened RWMachine
  import opened RWLocal
  import opened RWInvariant
  import opened RWFixed
  import opened RWRetired

  /** Reads past the test of execWithRW that are not yet counted as launched. */
  function Backlog(w: Worker): nat
  {
    |w.flow.channel| + PipeUncounted(w.pipe) + (if w.main.Dispatch? || w.main.Send? || w.main.Overflow? then 1 else 0)
  }

  /** A read that the pipeline is about to downgrade. */
  function Dropping(p: PipePc): nat { if p.DropRead? || p.DropToken? || p.CountDowngrade? then 1 else 0 }

  /** The reads that may still be downgraded by the present switch: all that are on their way
      while the mode is off, only the one being downgraded once it is on again. */
  function Doomed(enabled: bool, w: Worker): nat { if enabled then Dropping(w.pipe) else Backlog(w) }

  /** A downgraded read was counted, and waits for no more reads than were dispatched. */
  ghost predicate PipeTarget(w: Worker)
  {
    w.pipe.PipeWrite? ==>
      && w.downgrades >= 1
      && (w.pipe.pc.AwaitLaunch? || w.pipe.pc.AwaitClosed? ==> w.pipe.pc.target <= w.flow.dispatched)
  }

  ghost predicate Slim(s: State, todo: set<WorkerId>)
  {
    forall id :: id in s.snap && id !in todo && id in s.workers ==> Backlog(s.workers[id]) <= 1
  }

  /** While a switch is on: workers already scanned have at most one read on its way to the
      pipeline. */
  ghost predicate Scanned(s: State)
  {
    && (s.control.Scan? ==> Slim(s, s.control.todo))
    && (s.control.Compare? ==> Slim(s, s.control.todo))
    && (s.control.Compare? && s.control.worker in s.workers ==>
          s.control.seen <= s.workers[s.control.worker].flow.launched)
    && (s.control.DisableLock? || s.control.Flip? ==> Slim(s, {}))
  }

  function Tears(s: State, id: WorkerId): nat { if id in s.torn then 1 else 0 }

  /** All workers but those that were removed after a stop timeout, whose pipeline may be left. */
  predicate Covered(s: State, id: WorkerId) { id in s.workers && (id in s.snap || !s.workers[id].timedOut) }

  /** Each flip downgrades at most one read of a worker, and each torn test adds at most one. */
  ghost predicate Stragglers(s: State)
  {
    forall id :: Covered(s, id) ==>
      s.workers[id].downgrades + Doomed(s.g.enabled, s.workers[id]) <= s.flips + Tears(s, id)
  }

  /** The main loop has no job that execWithRW might turn into a write. */
  predicate SerialOnly(m: MainPc) { !m.CheckEnabled? && !m.CheckDisabling? && !m.MainWrite? }

  /** A torn test happens after the last switch, and that main loop executes serially from then on. */
  ghost predicate TornLast(s: State)
  {
    && (s.torn != {} ==> s.control.Idle? && !s.g.enabled)
    && (forall id :: id in s.torn && id in s.workers ==> SerialOnly(s.workers[id].main))
  }

  /** Without a rollback there is at most one flip. */
  ghost predicate Flips(s: State)
  {
    (s.flipped <==> s.flips > 0) && (!s.rolledBack ==> s.flips <= 1)
  }

  ghost predicate Undowngraded(s: State)
  {
    !s.flipped ==> forall id :: id in s.workers ==> s.workers[id].downgrades == 0
  }

  ghost predicate Switch(cfg: Config, s: State)
  {
    && Scanned(s) && Stragglers(s) && TornLast(s) && Flips(s) && Undowngraded(s) && Retired(s)
    && (forall id :: id in s.workers ==> PipeTarget(s.workers[id]))
    && (cfg.tokenCap > 0 ==> |s.g.tokens| <= cfg.tokenCap)
  }

  /** What a worker's step does to the quantities above. */
  ghost predicate SwitchStep(g: Shared, w: Worker, a: Action, r: LocalResult)
  {
    r.Moved? ==>
      && w.flow.launched <= r.w.flow.launched && w.flow.dispatched <= r.w.flow.dispatched
      && w.downgrades <= r.w.downgrades && (w.timedOut ==> r.w.timedOut)
      && Backlog(r.w) <= Backlog(w) + (if PassesTest(g, w, a) then 1 else 0)
      && Backlog(r.w) + r.w.downgrades <= Backlog(w) + w.downgrades + (if PassesTest(g, w, a) then 1 else 0)
      && (g.enabled ==> r.w.downgrades + Dropping(r.w.pipe) <= w.downgrades + Dropping(w.pipe))
      && (r.w.downgrades != w.downgrades ==> w.pipe.CountDowngrade?)
      && (PipeTarget(w) ==> PipeTarget(r.w))
      && (!g.enabled && !g.disabling && (SerialOnly(w.main) || PassesTest(g, w, a)) ==> SerialOnly(r.w.main))
  }

  /** The second load of the test of execWithRW, and it passes. */
  predicate PassesTest(g: Shared, w: Worker, a: Action) { a.ActMain? && w.main.CheckDisabling? && !g.disabling }

  lemma SwitchLoop(cfg: Config, g: Shared, w: Worker, id: WorkerId, c: Choice)
    requires InLoop(w.main)
    ensures SwitchStep(g, w, ActMain(id, c), MainStep(cfg, g, w, id, c))
  {
    hide WriteStep, ShutdownStep, ResidueStep;
  }

  lemma SwitchWrite(cfg: Config, g: Shared, w: Worker, id: WorkerId, c: Choice)
    requires w.main.MainWrite?
    ensures SwitchStep(g, w, ActMain(id, c), MainStep(cfg, g, w, id, c))
  {
    hide LoopStep, ShutdownStep, ResidueStep;
  }

  lemma SwitchShutdown(cfg: Config, g: Shared, w: Worker, id: WorkerId, c: Choice)
    requires InShutdown(w.main)
    ensures SwitchStep(g, w, ActMain(id, c), MainStep(cfg, g, w, id, c))
  {
    hide LoopStep, WriteStep, ResidueStep, ShutdownStep;
    ShutdownDraining(g, w, id, w.main.drain.at, c);
  }

  lemma SwitchResidue(cfg: Config, g: Shared, w: Worker, id: WorkerId, c: Choice)
    requires InResidue(w.main)
    ensures SwitchStep(g, w, ActMain(id, c), MainStep(cfg, g, w, id, c))
  {
    hide LoopStep, WriteStep, ShutdownStep, ResidueStep;
    ResidueDraining(cfg, g, w, w.main.drain.mode, w.main.drain.pc, c);
  }

  lemma SwitchLaunch(cfg: Config, g: Shared, w: Worker, id: WorkerId, c: Choice)
    requires !w.pipe.PipeWrite?
    ensures SwitchStep(g, w, ActPipe(id, c), PipeStep(cfg, g, w, id, c))
  {
    hide WriteStep, TokenLeft;
  }

  lemma SwitchPipeWrite(cfg: Config, g: Shared, w: Worker, id: WorkerId, c: Choice)
    requires w.pipe.PipeWrite?
    ensures SwitchStep(g, w, ActPipe(id, c), PipeStep(cfg, g, w, id, c))
  {
    hide GateStep, RegisterStep;
  }

  lemma SwitchRead(cfg: Config, g: Shared, w: Worker, id: WorkerId, j: Job, cancelled: bool)
    ensures SwitchStep(g, w, ActRead(id, j, cancelled), ReadStep(g, w, id, j, cancelled))
  {
  }

  lemma SwitchLocal(cfg: Config, g: Shared, w: Worker, id: WorkerId, a: Action)
    ensures SwitchStep(g, w, a, WorkerStep(cfg, g, w, id, a))
  {
    hide MainStep, PipeStep, ReadStep;
    match a
    case ActMain(_, c) =>
      if w.main.MainWrite? { SwitchWrite(cfg, g, w, id, c); }
      else if InShutdown(w.main) { SwitchShutdown(cfg, g, w, id, c); }
      else if InResidue(w.main) { SwitchResidue(cfg, g, w, id, c); } else { SwitchLoop(cfg, g, w, id, c); }
    case ActPipe(_, c) =>
      if w.pipe.PipeWrite? { SwitchPipeWrite(cfg, g, w, id, c); } else { SwitchLaunch(cfg, g, w, id, c); }
    case ActRead(_, j, cancelled) => SwitchRead(cfg, g, w, id, j, cancelled);
    case _ =>
  }

  /** The main loop and execWrite leave the tokens alone. */
  lemma TokensMain(cfg: Config, g: Shared, w: Worker, id: WorkerId, c: Choice)
    requires Locks(g, id, w)
    ensures var r := MainStep(cfg, g, w, id, c); r.Moved? ==> r.g.tokens == g.tokens
  {
    hide MainStep;
    MainWriter(cfg, g, w, id, c);
  }

  lemma TokensWrite(cfg: Config, g: Shared, w: Worker, id: WorkerId, c: Choice)
    requires Locks(g, id, w) && w.pipe.PipeWrite?
    ensures var r := PipeStep(cfg, g, w, id, c); r.Moved? ==> r.g.tokens == g.tokens
  {
    hide PipeStep;
    WriterPipeWrite(cfg, g, w, id, c);
  }

  /** A pipeline takes a token only below the bound. */
  lemma TokensGate(cfg: Config, g: Shared, w: Worker, id: WorkerId, c: Choice)
    requires Gating(w.pipe) && |g.tokens| <= cfg.tokenCap && cfg.tokenCap > 0
    ensures var r := PipeStep(cfg, g, w, id, c); r.Moved? ==> |r.g.tokens| <= cfg.tokenCap
  {
    hide WriteStep, RegisterStep;
  }

  /** It hands its own token over to the read it spawns, or gives it back. */
  lemma TokensRegister(cfg: Config, g: Shared, w: Worker, id: WorkerId, c: Choice)
    requires Registering(w.pipe) && (w.pipe.Spawn? ==> PipeOf(id) in g.tokens)
    ensures var r := PipeStep(cfg, g, w, id, c); r.Moved? ==> |r.g.tokens| <= |g.tokens|
  {
    hide WriteStep, GateStep;
    Fewer(g.tokens, PipeOf(id));
  }

  lemma TokensRead(g: Shared, w: Worker, id: WorkerId, j: Job, cancelled: bool)
    ensures var r := ReadStep(g, w, id, j, cancelled); r.Moved? ==> |r.g.tokens| <= |g.tokens|
  {
    var r := ReadStep(g, w, id, j, cancelled);
    if r.Moved? {
      assert r.g.tokens == g.tokens || r.g.tokens == g.tokens - {ReaderOf(id, j)};
      Fewer(g.tokens, ReaderOf(id, j));
    }
  }

  lemma Fewer(holders: set<Holder>, h: Holder)
    ensures |holders - {h}| == if h in holders then |holders| - 1 else |holders|
  {
    if h !in holders { assert holders - {h} == holders; }
  }

  lemma TokensKept(cfg: Config, g: Shared, w: Worker, id: WorkerId, a: Action)
    requires Locks(g, id, w) && |g.tokens| <= cfg.tokenCap && cfg.tokenCap > 0
    ensures var r := WorkerStep(cfg, g, w, id, a); r.Moved? ==> |r.g.tokens| <= cfg.tokenCap
  {
    hide MainStep, PipeStep, ReadStep;
    match a
    case ActMain(_, c) => TokensMain(cfg, g, w, id, c);
    case ActPipe(_, c) =>
      if w.pipe.PipeWrite? { TokensWrite(cfg, g, w, id, c); }
      else if Gating(w.pipe) { TokensGate(cfg, g, w, id, c); }
      else { TokensRegister(cfg, g, w, id, c); }
    case ActRead(_, j, cancelled) => TokensRead(g, w, id, j, cancelled);
    case _ =>
  }

  // ---- A step of a worker

  lemma ScannedKept(rw: bool, s: State, id: WorkerId, a: Action, r: LocalResult, s': State)
    requires Flags(rw, s) && Scanned(s) && Advanced(s, id, r, s') && SwitchStep(s.g, s.workers[id], a, r)
    ensures Scanned(s')
  {
  }

  lemma StragglersKept(s: State, id: WorkerId, a: Action, r: LocalResult, s': State)
    requires Stragglers(s) && TornLast(s) && Advanced(s, id, r, s') && SwitchStep(s.g, s.workers[id], a, r)
    requires s'.torn == s.torn + TornBy(s, a) && (a.ActMain? ==> a.worker == id) && r.g.enabled == s.g.enabled
    ensures Stragglers(s')
  {
    forall i | Covered(s', i)
      ensures s'.workers[i].downgrades + Doomed(s'.g.enabled, s'.workers[i]) <= s'.flips + Tears(s', i)
    {
      assert Covered(s, i);
    }
  }

  lemma TornKept(s: State, id: WorkerId, a: Action, r: LocalResult, s': State)
    requires TornLast(s) && Advanced(s, id, r, s') && SwitchStep(s.g, s.workers[id], a, r)
    requires s'.torn == s.torn + TornBy(s, a) && (a.ActMain? ==> a.worker == id)
    requires r.g.enabled == s.g.enabled && (s.g.disabling <==> !s.control.Idle? && !s.control.BeginDisable?)
    requires !s.control.Idle? && !Flipped(s.control) ==> s.g.enabled
    ensures TornLast(s')
  {
  }

  lemma AdvancedSwitch(cfg: Config, rw: bool, s: State, id: WorkerId, a: Action, r: LocalResult, s': State)
    requires Flags(rw, s) && AllFixed(rw, s) && Switch(cfg, s) && Advanced(s, id, r, s')
    requires s'.torn == s.torn + TornBy(s, a) && (a.ActMain? ==> a.worker == id)
    requires r.g.enabled == s.g.enabled && SwitchStep(s.g, s.workers[id], a, r)
    requires s.workers[id].main.Done? ==> r.w.main.Done?
    requires cfg.tokenCap > 0 ==> |r.g.tokens| <= cfg.tokenCap
    ensures Switch(cfg, s')
  {
    ScannedKept(rw, s, id, a, r, s');
    StragglersKept(s, id, a, r, s');
    TornKept(s, id, a, r, s');
    hide Scanned, Stragglers, TornLast;
  }

  lemma GoroutineSwitch(cfg: Config, rw: bool, s: State, id: WorkerId, a: Action)
    requires Inv(cfg, rw, s) && AllFixed(rw, s) && Switch(cfg, s) && (a.ActMain? ==> a.worker == id)
    ensures var n := GoroutineStep(cfg, s, id, a); n.Some? ==> Switch(cfg, n.value)
  {
    hide WorkerStep, Switch, SwitchStep, AllFixed, Owned, Emptied, Local;
    var n := GoroutineStep(cfg, s, id, a);
    if n.Some? {
      var r := WorkerStep(cfg, s.g, s.workers[id], id, a);
      if a.Submit? { SubmittedFresh(s, id, a); }
      EnabledKept(cfg, rw, s.g, s.workers[id], id, a);
      SwitchLocal(cfg, s.g, s.workers[id], id, a);
      DoneAfter(cfg, s.g, s.workers[id], id, a);
      GoroutineTokens(cfg, rw, s, id, a);
      AdvancedSwitch(cfg, rw, s, id, a, r, n.value);
    }
  }

  lemma EnabledKept(cfg: Config, rw: bool, g: Shared, w: Worker, id: WorkerId, a: Action)
    requires Local(cfg, rw, g, id, w) && (!rw ==> !g.enabled) && (a.Submit? ==> a.job !in w.ledger.place)
    ensures var r := WorkerStep(cfg, g, w, id, a); r.Moved? ==> r.g.enabled == g.enabled
  {
    hide WorkerStep, Local;
    LocalKept(cfg, rw, g, w, id, a);
  }

  lemma DoneAfter(cfg: Config, g: Shared, w: Worker, id: WorkerId, a: Action)
    ensures var r := WorkerStep(cfg, g, w, id, a); r.Moved? && w.main.Done? ==> r.w.main.Done?
  {
    if w.main.Done? { DoneStays(cfg, g, w, id, a); }
  }

  lemma GoroutineTokens(cfg: Config, rw: bool, s: State, id: WorkerId, a: Action)
    requires Inv(cfg, rw, s) && Switch(cfg, s) && id in s.workers
    ensures var r := WorkerStep(cfg, s.g, s.workers[id], id, a);
            r.Moved? && cfg.tokenCap > 0 ==> |r.g.tokens| <= cfg.tokenCap
  {
    hide WorkerStep, Scanned, Stragglers, TornLast, Flips, Retired, PipeTarget;
    if cfg.tokenCap > 0 { TokensKept(cfg, s.g, s.workers[id], id, a); }
  }

  // ---- A step of the controller

  /** A worker whose readsLaunched, read first, is not below its readsDispatched, read second,
      has at most the read its main loop is about to count. */
  lemma CompareSlim(w: Worker, seen: nat)
    requires Counters(w) && w.flow.dispatched <= seen <= w.flow.launched
    ensures Backlog(w) <= 1
  {
  }

  /** Loading and comparing the counters. */
  predicate Scanning(c: ControlPc) { c.Idle? || c.BeginDisable? || c.Scan? || c.Compare? || c.ScanAgain? }

  lemma ScannedScanning(rw: bool, s: State, target: WorkerId, alarm: bool)
    requires Flags(rw, s) && Scanned(s) && Scanning(s.control)
    requires s.control.Compare? && s.control.worker in s.workers ==> Counters(s.workers[s.control.worker])
    ensures var n := ControlStep(s, target, alarm); n.Some? ==> Scanned(n.value)
  {
    var n := ControlStep(s, target, alarm);
    if n.Some? && s.control.Compare? && n.value.control.Scan? {
      CompareSlim(s.workers[s.control.worker], s.control.seen);
    }
  }

  lemma ScannedLate(rw: bool, s: State, target: WorkerId, alarm: bool)
    requires Flags(rw, s) && Scanned(s) && !Scanning(s.control)
    ensures var n := ControlStep(s, target, alarm); n.Some? ==> Scanned(n.value)
  {
  }

  /** Disable: every published worker has at most one read on its way, every other one none. */
  lemma FlipStragglers(cfg: Config, rw: bool, s: State, s': State)
    requires (forall id :: id in s.workers ==> Local(cfg, rw, s.g, id, s.workers[id]))
    requires Slim(s, {}) && Stragglers(s) && Retired(s) && s.g.enabled
    requires s'.workers == s.workers && s'.snap == s.snap && s'.torn == s.torn && s'.flips == s.flips + 1
    requires !s'.g.enabled
    ensures Stragglers(s')
  {
    hide Places, Locks, Crowded;
    forall id | Covered(s', id)
      ensures s'.workers[id].downgrades + Doomed(s'.g.enabled, s'.workers[id]) <= s'.flips + Tears(s', id)
    {
      assert Covered(s, id) && Local(cfg, rw, s.g, id, s.workers[id]);
      if id !in s.snap { RetiredPipe(cfg, rw, s, id); }
    }
  }

  /** Enable: fewer reads are doomed. */
  lemma RollbackStragglers(s: State, s': State)
    requires Stragglers(s) && !s.g.enabled && s'.workers == s.workers && s'.snap == s.snap && s'.torn == s.torn
    requires s'.flips == s.flips
    ensures Stragglers(s')
  {
    forall id | Covered(s', id)
      ensures s'.workers[id].downgrades + Doomed(s'.g.enabled, s'.workers[id]) <= s'.flips + Tears(s', id)
    {
      assert Covered(s, id);
    }
  }

  /** The other steps of the controller leave the mode alone. */
  ghost predicate Steady(s: State, s': State)
  {
    && s'.workers == s.workers && s'.snap == s.snap && s'.torn == s.torn && s'.g.tokens == s.g.tokens
    && s'.flips == s.flips && s'.flipped == s.flipped && s'.rolledBack == s.rolledBack && s'.g.enabled == s.g.enabled
  }

  lemma SteadyScanning(s: State, target: WorkerId, alarm: bool)
    requires Scanning(s.control)
    ensures var n := ControlStep(s, target, alarm); n.Some? ==> Steady(s, n.value)
  {
  }

  lemma SteadyLate(s: State, target: WorkerId, alarm: bool)
    requires !Scanning(s.control) && !s.control.Flip? && !s.control.Rollback?
    ensures var n := ControlStep(s, target, alarm); n.Some? ==> Steady(s, n.value)
  {
  }

  lemma SteadySwitch(cfg: Config, rw: bool, s: State, s': State)
    requires Flags(rw, s) && Switch(cfg, s) && Steady(s, s') && Scanned(s') && (s.control.Idle? ==> s.g.enabled)
    ensures Switch(cfg, s')
  {
    hide Scanned;
    forall id | Covered(s', id)
      ensures s'.workers[id].downgrades + Doomed(s'.g.enabled, s'.workers[id]) <= s'.flips + Tears(s', id)
    {
      assert Covered(s, id);
    }
  }

  lemma FlipSwitch(cfg: Config, rw: bool, s: State, target: WorkerId, alarm: bool)
    requires Inv(cfg, rw, s) && Switch(cfg, s) && s.control.Flip?
    ensures var n := ControlStep(s, target, alarm); n.Some? ==> Switch(cfg, n.value)
  {
    hide Local, Slim, Stragglers, PlacedUsed, Owned, Emptied, PipeTarget;
    var s' := ControlStep(s, target, alarm).value;
    FlipStragglers(cfg, rw, s, s');
    ScannedLate(rw, s, target, alarm);
  }

  lemma RollbackSwitch(cfg: Config, rw: bool, s: State, target: WorkerId, alarm: bool)
    requires Flags(rw, s) && Switch(cfg, s) && s.control.Rollback?
    ensures var n := ControlStep(s, target, alarm); n.Some? ==> Switch(cfg, n.value)
  {
    var s' := ControlStep(s, target, alarm).value;
    RollbackStragglers(s, s');
    ScannedLate(rw, s, target, alarm);
    hide Scanned, Stragglers;
  }

  lemma ControlSwitch(cfg: Config, rw: bool, s: State, target: WorkerId, alarm: bool)
    requires Inv(cfg, rw, s) && Switch(cfg, s)
    ensures var n := ControlStep(s, target, alarm); n.Some? ==> Switch(cfg, n.value)
  {
    var n := ControlStep(s, target, alarm);
    if n.Some? {
      if s.control.Flip? { FlipSwitch(cfg, rw, s, target, alarm); }
      else if s.control.Rollback? { RollbackSwitch(cfg, rw, s, target, alarm); }
      else { SteadyControl(cfg, rw, s, target, alarm); }
    }
    hide ControlStep, Switch;
  }

  lemma SteadyControl(cfg: Config, rw: bool, s: State, target: WorkerId, alarm: bool)
    requires Inv(cfg, rw, s) && Switch(cfg, s) && !s.control.Flip? && !s.control.Rollback?
    requires ControlStep(s, target, alarm).Some?
    ensures Switch(cfg, ControlStep(s, target, alarm).value)
  {
    assert s.control.Idle? ==> s.g.enabled;
    hide ControlStep;
    var s' := ControlStep(s, target, alarm).value;
    assert forall id :: id in s.workers ==> Local(cfg, rw, s.g, id, s.workers[id]);
    if Scanning(s.control) {
      SteadyScanning(s, target, alarm);
      ScannedScanning(rw, s, target, alarm);
    } else {
      SteadyLate(s, target, alarm);
      ScannedLate(rw, s, target, alarm);
    }
    hide Local;
    SteadySwitch(cfg, rw, s, s');
  }

  /** Everything that holds in every reachable state. */
  ghost predicate Sound(cfg: Config, rw: bool, s: State)
  {
    Inv(cfg, rw, s) && AllFixed(rw, s) && Switch(cfg, s)
  }

  lemma GrowSwitch(cfg: Config, s: State, id: WorkerId, w: Worker)
    requires Switch(cfg, s) && s.control.Idle? && id !in s.workers && Backlog(w) == 0 && w.downgrades == 0
    requires PipeTarget(w)
    requires Dropping(w.pipe) == 0 && SerialOnly(w.main)
    ensures Switch(cfg, s.(workers := s.workers[id := w], snap := s.snap + {id}))
  {
    var s' := s.(workers := s.workers[id := w], snap := s.snap + {id});
    forall i | Covered(s', i)
      ensures s'.workers[i].downgrades + Doomed(s'.g.enabled, s'.workers[i]) <= s'.flips + Tears(s', i)
    {
      assert i != id ==> Covered(s, i);
    }
  }

  lemma RemoveSwitch(cfg: Config, s: State, gone: set<WorkerId>)
    requires Switch(cfg, s) && s.control.Idle?
    requires forall id :: id in gone ==> id in s.workers && s.workers[id].main.Done?
    ensures Switch(cfg, s.(snap := s.snap - gone))
  {
    var s' := s.(snap := s.snap - gone);
    forall i | Covered(s', i)
      ensures s'.workers[i].downgrades + Doomed(s'.g.enabled, s'.workers[i]) <= s'.flips + Tears(s', i)
    {
      assert Covered(s, i);
    }
  }

  lemma StepSwitch(cfg: Config, rw: bool, s: State, a: Action)
    requires Sound(cfg, rw, s)
    ensures var n := Step(cfg, rw, s, a); n.Some? ==> Switch(cfg, n.value)
  {
    hide ControlStep, GoroutineStep, Inv, Switch;
    if a.ActControl? { ControlSwitch(cfg, rw, s, a.target, a.alarm); }
    else if a.Grow? { if a.worker !in s.workers && s.control.Idle? { GrowSwitch(cfg, s, a.worker, NewWorker(rw)); } }
    else if a.Remove? { if Step(cfg, rw, s, a).Some? { RemoveSwitch(cfg, s, a.gone); } }
    else { GoroutineSwitch(cfg, rw, s, a.worker, a); }
  }

  lemma StepSound(cfg: Config, rw: bool, s: State, a: Action)
    requires Sound(cfg, rw, s)
    ensures var n := Step(cfg, rw, s, a); n.Some? ==> Sound(cfg, rw, n.value)
  {
    hide Step, Inv, AllFixed, Switch;
    StepKept(cfg, rw, s, a);
    StepFixed(cfg, rw, s, a);
    StepSwitch(cfg, rw, s, a);
  }

  lemma {:induction false} AfterSound(cfg: Config, rw: bool, s: State, actions: seq<Action>)
    requires Sound(cfg, rw, s)
    ensures var n := After(cfg, rw, s, actions); n.Some? ==> Sound(cfg, rw, n.value)
    decreases |actions|
  {
    hide Step, Sound;
    if actions != [] {
      StepSound(cfg, rw, s, actions[0]);
      var next := Step(cfg, rw, s, actions[0]);
      if next.Some? { AfterSound(cfg, rw, next.value, actions[1..]); }
    }
  }

  lemma ReachableSound(cfg: Config, rw: bool, s: State)
    requires Reachable(cfg, rw, s)
    ensures Sound(cfg, rw, s)
  {
    var actions :| After(cfg, rw, Initial(rw), actions) == Some(s);
    AfterSound(cfg, rw, Initial(rw), actions);
  }
}
