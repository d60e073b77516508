/** What every reachable state satisfies, in every run: the workers' own invariants, who owns
    the lock, and what the controller has established at each of its program counters. */
module RWInvariant {
  import opened RWMachine
  import opened RWLocal

  /** Whoever holds the lock or a token exists. */
  ghost predicate Owned(s: State)
  {
    && (s.g.writer != Nobody ==> s.g.readers == {})
    && (s.g.writer.MainOf? || s.g.writer.PipeOf? ==> s.g.writer.worker in s.workers)
    && !s.g.writer.ReaderOf?
    && (forall h :: h in s.g.readers ==> (h.PipeOf? || h.ReaderOf?) && h.worker in s.workers)
    && (forall h :: h in s.g.tokens ==> (h.PipeOf? || h.ReaderOf?) && h.worker in s.workers)
  }

  predicate Flipped(c: ControlPc)
  {
    c.FlipUnlock? || c.Count? || c.CountAgain? || c.GroupWait? || c.Finish? || c.Rollback?
  }

  predicate Todo(c: ControlPc, snap: set<WorkerId>)
  {
    match c
    case Scan(todo) => todo <= snap
    case Compare(w, _, todo) => w in todo && todo <= snap
    case Count(todo) => todo <= snap
    case GroupWait(todo) => todo <= snap
    case _ => true
  }

  /** The flags and the lock as the controller's program counter says. */
  ghost predicate Flags(rw: bool, s: State)
  {
    && (s.g.disabling <==> !s.control.Idle? && !s.control.BeginDisable?)
    && (Flipped(s.control) ==> !s.g.enabled && s.flipped)
    && (!s.control.Idle? && !Flipped(s.control) ==> s.g.enabled)
    && (s.g.writer == Controller <==> s.control.Flip? || s.control.FlipUnlock?)
    && (s.result == Some(true) ==> s.control.Idle? && !s.g.enabled)
    && (s.control.Idle? && !s.g.enabled ==> !rw || s.result == Some(true))
    && (!rw ==> !s.g.enabled && s.control.Idle? && !s.flipped && s.result == None)
    && (!s.flipped ==> s.g.enabled == rw && !s.rolledBack)
    && (s.flipped && !s.rolledBack ==> !s.g.enabled)
    && s.snap <= s.workers.Keys
    && Todo(s.control, s.snap)
  }

  /** Which workers the controller has already found without registered reads. */
  ghost predicate Emptied(s: State)
  {
    && (s.control.Count? ==> forall id :: id in s.snap && id !in s.control.todo && id in s.workers ==>
         s.workers[id].crowd.inflight == {})
    && (s.control.GroupWait? ==> forall id :: id in s.snap && id !in s.control.todo && id in s.workers ==>
         s.workers[id].crowd.group == {})
    && (s.control.Finish? || s.result == Some(true) ==> forall id :: id in s.snap && id in s.workers ==>
         s.workers[id].crowd.group == {})
  }

  /** Every job a worker knows was submitted. */
  ghost predicate PlacedUsed(s: State)
  {
    forall id, j :: id in s.workers && j in s.workers[id].ledger.place ==> j in s.used
  }

  ghost predicate Inv(cfg: Config, rw: bool, s: State)
  {
    && (forall id :: id in s.workers ==> Local(cfg, rw, s.g, id, s.workers[id]))
    && PlacedUsed(s)
    && Owned(s) && Flags(rw, s) && Emptied(s)
  }

  /** What a step of one worker leaves of another's invariant: all of it. */
  lemma OthersKept(cfg: Config, rw: bool, g: Shared, g': Shared, id: WorkerId, other: WorkerId, w: Worker)
    requires Local(cfg, rw, g, other, w) && OthersUntouched(g, g', id) && other != id
    requires g'.writer != Nobody ==> g'.readers == {}
    ensures Local(cfg, rw, g', other, w)
  {
    assert !WritesFor(MainOf(other), id) && !WritesFor(PipeOf(other), id) && !ReadsFor(PipeOf(other), id);
    assert forall j :: !ReadsFor(ReaderOf(other, j), id);
  }

  lemma UsedKept(cfg: Config, w: Worker, a: Action, x: Shift, r: LocalResult, j: Job)
    requires ShiftAfter(w, x, r) && x == ShiftOf(cfg, w, a) && r.Moved? && Places(w) && j in r.w.ledger.place
    ensures j in w.ledger.place || j in Submitted(a)
  {
    hide Agrees;
    Origin(Seen(w), x);
    match x
    case Stay =>
    case _ =>
  }

  lemma OffPipe(cfg: Config, g: Shared, w: Worker, id: WorkerId, c: Choice)
    requires PipeLocks(id, g.readers, g.tokens, g.enabled, w.pipe) && !g.enabled
    ensures var r := PipeStep(cfg, g, w, id, c); r.Moved? ==> r.w.crowd == w.crowd
  {
  }

  /** Once RW mode is off nobody registers a read. */
  lemma CrowdShrinks(cfg: Config, rw: bool, g: Shared, w: Worker, id: WorkerId, a: Action)
    requires Local(cfg, rw, g, id, w) && !g.enabled
    ensures var r := WorkerStep(cfg, g, w, id, a);
            r.Moved? ==> r.w.crowd.group <= w.crowd.group && r.w.crowd.inflight <= w.crowd.inflight
  {
    hide MainStep, PipeStep, Counters, Life, Places, Crowded, ShiftAfter;
    match a
    case ActMain(_, c) => MainShifting(cfg, g, w, id, c);
    case ActPipe(_, c) => OffPipe(cfg, g, w, id, c);
    case _ =>
  }

  /** `s'` is `s` after worker `id` moved to `r`. */
  ghost predicate Advanced(s: State, id: WorkerId, r: LocalResult, s': State)
  {
    && id in s.workers && r.Moved? && s.used <= s'.used
    && s' == s.(g := r.g, workers := s.workers[id := r.w], used := s'.used, torn := s'.torn)
  }

  lemma LocalLocks(cfg: Config, rw: bool, g: Shared, id: WorkerId, w: Worker)
    requires Local(cfg, rw, g, id, w)
    ensures g.writer != Nobody ==> g.readers == {}
  {
  }

  lemma LocalsKept(cfg: Config, rw: bool, s: State, id: WorkerId, r: LocalResult, s': State)
    requires Inv(cfg, rw, s) && Advanced(s, id, r, s')
    requires Local(cfg, rw, r.g, id, r.w) && OthersUntouched(s.g, r.g, id)
    ensures forall other :: other in s'.workers ==> Local(cfg, rw, s'.g, other, s'.workers[other])
  {
    hide Local, PlacedUsed, Flags, Emptied, OthersUntouched;
    assert r.g.writer != Nobody ==> r.g.readers == {} by { LocalLocks(cfg, rw, r.g, id, r.w); }
    forall other | other in s'.workers ensures Local(cfg, rw, s'.g, other, s'.workers[other]) {
      if other != id { OthersKept(cfg, rw, s.g, s'.g, id, other, s.workers[other]); }
    }
  }

  lemma OwnedKept(rw: bool, s: State, id: WorkerId, r: LocalResult, s': State)
    requires Owned(s) && Flags(rw, s) && Advanced(s, id, r, s') && OthersUntouched(s.g, r.g, id)
    requires r.g.writer != Nobody ==> r.g.readers == {}
    ensures Owned(s') && Flags(rw, s')
  {
    assert !WritesFor(Controller, id);
    if s'.g.writer != Nobody && !WritesFor(s'.g.writer, id) { assert s.g.writer == s'.g.writer; }
  }

  lemma EmptiedKept(rw: bool, s: State, id: WorkerId, r: LocalResult, s': State)
    requires Flags(rw, s) && Emptied(s) && Advanced(s, id, r, s')
    requires !s.g.enabled ==>
               && r.w.crowd.group <= s.workers[id].crowd.group
               && r.w.crowd.inflight <= s.workers[id].crowd.inflight
    ensures Emptied(s')
  {
  }

  lemma PlacedUsedKept(cfg: Config, rw: bool, s: State, id: WorkerId, a: Action, r: LocalResult, s': State)
    requires Inv(cfg, rw, s) && Advanced(s, id, r, s') && s'.used == s.used + Submitted(a)
    requires ShiftAfter(s.workers[id], ShiftOf(cfg, s.workers[id], a), r)
    ensures PlacedUsed(s')
  {
    hide Counters, Locks, Life, Agrees, Crowded, ShiftAfter, Owned, Flags, Emptied;
    forall other, j | other in s'.workers && j in s'.workers[other].ledger.place ensures j in s'.used {
      if other == id { UsedKept(cfg, s.workers[id], a, ShiftOf(cfg, s.workers[id], a), r, j); }
    }
  }

  lemma AdvancedKept(cfg: Config, rw: bool, s: State, id: WorkerId, a: Action, r: LocalResult, s': State)
    requires Inv(cfg, rw, s) && Advanced(s, id, r, s') && s'.used == s.used + Submitted(a)
    requires LocalAfter(cfg, rw, s.g, s.workers[id], id, ShiftOf(cfg, s.workers[id], a), r)
    requires !s.g.enabled ==>
               && r.w.crowd.group <= s.workers[id].crowd.group
               && r.w.crowd.inflight <= s.workers[id].crowd.inflight
    ensures Inv(cfg, rw, s')
  {
    LocalsKept(cfg, rw, s, id, r, s');
    PlacedUsedKept(cfg, rw, s, id, a, r, s');
    OwnedKept(rw, s, id, r, s');
    EmptiedKept(rw, s, id, r, s');
  }

  lemma SubmittedFresh(s: State, id: WorkerId, a: Action)
    requires PlacedUsed(s) && id in s.workers && a.Submit? && Submitted(a) * s.used == {}
    ensures a.job !in s.workers[id].ledger.place
  {
    assert a.job in Submitted(a) && a.job !in Submitted(a) * s.used;
  }

  lemma GoroutineKept(cfg: Config, rw: bool, s: State, id: WorkerId, a: Action)
    requires Inv(cfg, rw, s)
    ensures var n := GoroutineStep(cfg, s, id, a); n.Some? ==> Inv(cfg, rw, n.value)
  {
    hide WorkerStep;
    var n := GoroutineStep(cfg, s, id, a);
    if n.Some? {
      var r := WorkerStep(cfg, s.g, s.workers[id], id, a);
      if a.Submit? { SubmittedFresh(s, id, a); }
      LocalKept(cfg, rw, s.g, s.workers[id], id, a);
      if !s.g.enabled { CrowdShrinks(cfg, rw, s.g, s.workers[id], id, a); }
      AdvancedKept(cfg, rw, s, id, a, r, n.value);
    }
  }

  /** How the controller moves the shared state: it turns `enabled` off only while nobody holds
      the read lock. */
  ghost predicate ControlMoves(g: Shared, g': Shared)
  {
    && g'.readers == g.readers && g'.tokens == g.tokens
    && (g'.enabled || g'.enabled == g.enabled || g.readers == {})
    && (g'.writer == g.writer || (g.Free() && g'.writer == Controller)
        || (g.writer == Controller && g'.writer == Nobody))
  }

  lemma ControlLocal(cfg: Config, rw: bool, g: Shared, g': Shared, id: WorkerId, w: Worker)
    requires Local(cfg, rw, g, id, w) && ControlMoves(g, g')
    ensures Local(cfg, rw, g', id, w)
  {
    if g.readers == {} { assert forall j :: ReaderOf(id, j) !in g.readers; }
  }

  ghost predicate ControlFrame(s: State, s': State)
  {
    && ControlMoves(s.g, s'.g) && s'.workers == s.workers && s'.used == s.used
    && s'.snap == s.snap && (s.flipped ==> s'.flipped)
  }

  /** Disable flips `enabled` while it holds the write lock. */
  lemma ControlShared(rw: bool, s: State, target: WorkerId, alarm: bool)
    requires Owned(s) && Flags(rw, s)
    ensures var n := ControlStep(s, target, alarm); n.Some? ==> ControlFrame(s, n.value)
  {
    hide ControlStep, Owned, Flags;
    if Flipped(s.control) { ControlSharedOff(rw, s, target, alarm); } else { ControlSharedOn(rw, s, target, alarm); }
  }

  lemma ControlSharedOn(rw: bool, s: State, target: WorkerId, alarm: bool)
    requires Owned(s) && Flags(rw, s) && !Flipped(s.control)
    ensures var n := ControlStep(s, target, alarm); n.Some? ==> ControlFrame(s, n.value)
  {
  }

  lemma ControlSharedOff(rw: bool, s: State, target: WorkerId, alarm: bool)
    requires Owned(s) && Flags(rw, s) && Flipped(s.control)
    ensures var n := ControlStep(s, target, alarm); n.Some? ==> ControlFrame(s, n.value)
  {
  }

  lemma ControlOwned(rw: bool, s: State, target: WorkerId, alarm: bool)
    requires Owned(s) && Flags(rw, s)
    ensures var n := ControlStep(s, target, alarm); n.Some? ==> Owned(n.value)
  {
    ControlShared(rw, s, target, alarm);
  }

  lemma ControlFlags(rw: bool, s: State, target: WorkerId, alarm: bool)
    requires Flags(rw, s) && !Flipped(s.control)
    ensures var n := ControlStep(s, target, alarm); n.Some? ==> Flags(rw, n.value)
  {
  }

  lemma ControlFlagsOff(rw: bool, s: State, target: WorkerId, alarm: bool)
    requires Flags(rw, s) && Flipped(s.control)
    ensures var n := ControlStep(s, target, alarm); n.Some? ==> Flags(rw, n.value)
  {
  }

  lemma ControlEmptied(rw: bool, s: State, target: WorkerId, alarm: bool)
    requires Flags(rw, s) && Emptied(s) && !Flipped(s.control)
    ensures var n := ControlStep(s, target, alarm); n.Some? ==> Emptied(n.value)
  {
  }

  lemma ControlEmptiedOff(rw: bool, s: State, target: WorkerId, alarm: bool)
    requires Flags(rw, s) && Emptied(s) && Flipped(s.control)
    ensures var n := ControlStep(s, target, alarm); n.Some? ==> Emptied(n.value)
  {
  }

  lemma ControlKept(cfg: Config, rw: bool, s: State, target: WorkerId, alarm: bool)
    requires Inv(cfg, rw, s)
    ensures var n := ControlStep(s, target, alarm); n.Some? ==> Inv(cfg, rw, n.value)
  {
    hide ControlStep;
    var n := ControlStep(s, target, alarm);
    if n.Some? {
      ControlShared(rw, s, target, alarm);
      ControlOwned(rw, s, target, alarm);
      if Flipped(s.control) { ControlFlagsOff(rw, s, target, alarm); ControlEmptiedOff(rw, s, target, alarm); }
      else { ControlFlags(rw, s, target, alarm); ControlEmptied(rw, s, target, alarm); }
      forall id | id in s.workers ensures Local(cfg, rw, n.value.g, id, n.value.workers[id]) {
        ControlLocal(cfg, rw, s.g, n.value.g, id, s.workers[id]);
      }
    }
  }

  /** A new worker joins while the controller is idle. */
  lemma GrowKept(cfg: Config, rw: bool, s: State, id: WorkerId)
    requires Inv(cfg, rw, s) && id !in s.workers && s.control.Idle?
    ensures Inv(cfg, rw, s.(workers := s.workers[id := NewWorker(rw)], snap := s.snap + {id}))
  {
    NewWorkerLocal(cfg, rw, s, id);
    GrowRest(rw, s, id, NewWorker(rw));
  }

  lemma GrowRest(rw: bool, s: State, id: WorkerId, w: Worker)
    requires PlacedUsed(s) && Owned(s) && Flags(rw, s) && Emptied(s) && id !in s.workers && s.control.Idle?
    requires w.ledger.place == map[] && w.crowd.group == {}
    ensures var s' := s.(workers := s.workers[id := w], snap := s.snap + {id});
            PlacedUsed(s') && Owned(s') && Flags(rw, s') && Emptied(s')
  {
  }

  lemma NewWorkerLocal(cfg: Config, rw: bool, s: State, id: WorkerId)
    requires Owned(s) && id !in s.workers
    ensures Local(cfg, rw, s.g, id, NewWorker(rw))
  {
  }

  /** Workers that are Done may leave the published set while the controller is idle. */
  lemma RemoveKept(cfg: Config, rw: bool, s: State, gone: set<WorkerId>)
    requires Inv(cfg, rw, s) && s.control.Idle?
    ensures Inv(cfg, rw, s.(snap := s.snap - gone))
  {
  }

  lemma StepKept(cfg: Config, rw: bool, s: State, a: Action)
    requires Inv(cfg, rw, s)
    ensures var n := Step(cfg, rw, s, a); n.Some? ==> Inv(cfg, rw, n.value)
  {
    hide ControlStep, GoroutineStep, Inv;
    if a.ActControl? { ControlKept(cfg, rw, s, a.target, a.alarm); }
    else if a.Grow? { if a.worker !in s.workers && s.control.Idle? { GrowKept(cfg, rw, s, a.worker); } }
    else if a.Remove? { if s.control.Idle? { RemoveKept(cfg, rw, s, a.gone); } }
    else { GoroutineKept(cfg, rw, s, a.worker, a); }
  }
}
