/** What is possible when: where a goroutine blocks, when a worker accepts a job, and that
    SetRWEnabled(false) succeeds on quiet workers. */
module RWProgress {
  import opened RWMachine
  import opened RWLocal
  import opened RWInvariant
  import opened RWFixed
  import opened RWRetired
  import opened RWSwitch
  import opened RWTheorems

  // ---- Blocking

  /** A main loop has to wait, or the queue cannot hand out the job that the choice names. */
  predicate MainWaits(g: Shared, w: Worker, c: Choice)
  {
    match w.main
    case Poll => c.pick.Full? && c.pick.job !in w.ledger.queue
    case Drain(Shutdown(AwaitPipe)) => !w.pipe.Exited? && !c.alarm
    case Drain(Shutdown(AwaitInflight)) => w.crowd.inflight != {} && !c.alarm
    case Drain(Shutdown(AwaitGroup)) => w.crowd.group != {}
    case Drain(Shutdown(AcquireLock)) => !g.Free()
    case Drain(Residue(_, TakeQueued)) => w.ledger.queue != {} && !(c.pick.Full? && c.pick.job in w.ledger.queue)
    case Done => true
    case _ => false
  }

  /** In every run a main loop is blocked exactly there: in the waits of its drain, or when it is
      done. */
  lemma MainBlocks(cfg: Config, rw: bool, s: State, id: WorkerId, c: Choice)
    requires Reachable(cfg, rw, s) && id in s.workers
    ensures MainStep(cfg, s.g, s.workers[id], id, c).Stuck? <==> MainWaits(s.g, s.workers[id], c)
  {
    hide Reachable, Counters, Locks, Places, Crowded, Switch, AllFixed, Owned, Flags, Emptied, PlacedUsed, WriteStep;
    ReachableSound(cfg, rw, s);
    assert Local(cfg, rw, s.g, id, s.workers[id]);
  }

  /** The pipeline is blocked exactly on an empty open channel and while a writer has the lock, or
      when it is over. */
  lemma PipeBlocks(cfg: Config, g: Shared, w: Worker, id: WorkerId, c: Choice)
    ensures PipeStep(cfg, g, w, id, c).Stuck? <==>
              || w.pipe.Exited? || (w.pipe.Recv? && w.flow.channel == [] && !w.flow.shut)
              || (w.pipe.AcquireRead? && g.writer != Nobody)
  {
    hide WriteStep, TokenLeft;
  }

  /** A live read goroutine is never blocked. */
  lemma ReadNeverBlocks(g: Shared, w: Worker, id: WorkerId, j: Job, cancelled: bool)
    ensures ReadStep(g, w, id, j, cancelled).Stuck? <==> j !in w.crowd.tasks
  {
  }

  // ---- Admission and the published set

  /** A worker accepts a new job exactly while it is open; the job is then queued, and nothing else
      changes. */
  lemma AdmissionExact(cfg: Config, rw: bool, s: State, id: WorkerId, j: Job)
    ensures var n := Step(cfg, rw, s, Submit(id, j));
            && (n.Some? <==> id in s.workers && !s.workers[id].closed && j !in s.used)
            && (n.Some? ==>
                  var w, w' := s.workers[id], n.value.workers[id];
                  && w'.ledger.At(j, Queued) && w'.ledger.queue == w.ledger.queue + {j}
                  && w' == w.(ledger := w'.ledger) && w'.ledger.pending == w.ledger.pending
                  && w'.ledger.releases == w.ledger.releases
                  && n.value == s.(workers := s.workers[id := w'], used := s.used + {j}))
  {
    if j in s.used { assert j in Submitted(Submit(id, j)) * s.used; }
  }

  /** BeginStop closes its worker, always, and does nothing else. */
  lemma StopExact(cfg: Config, rw: bool, s: State, id: WorkerId)
    ensures var n := Step(cfg, rw, s, BeginStop(id));
            && (n.Some? <==> id in s.workers)
            && (n.Some? ==> n.value == s.(workers := s.workers[id := s.workers[id].(closed := true)]))
  {
    assert s.used + {} == s.used && Submitted(BeginStop(id)) * s.used == {} && s.torn + {} == s.torn;
  }

  // ---- SetRWEnabled(false)

  function Tick(target: WorkerId): Action { ActControl(target, false) }

  /** The controller alone, before any deadline passes, gets from one state to the other. */
  ghost predicate Controls(cfg: Config, rw: bool, s: State, s': State)
  {
    exists acts :: Ticks(acts) && After(cfg, rw, s, acts) == Some(s')
  }

  ghost predicate Ticks(acts: seq<Action>) { forall a :: a in acts ==> a.ActControl? && !a.alarm }

  lemma ControlsStep(cfg: Config, rw: bool, s: State, target: WorkerId, s1: State, s2: State)
    requires ControlStep(s, target, false) == Some(s1) && Controls(cfg, rw, s1, s2)
    ensures Controls(cfg, rw, s, s2)
  {
    hide ControlStep;
    var acts :| Ticks(acts) && After(cfg, rw, s1, acts) == Some(s2);
    var all := [Tick(target)] + acts;
    assert all[1..] == acts && Ticks(all);
    assert After(cfg, rw, s, all) == Some(s2);
  }

  lemma ControlsNothing(cfg: Config, rw: bool, s: State)
    ensures Controls(cfg, rw, s, s)
  {
    assert Ticks([]) && After(cfg, rw, s, []) == Some(s);
  }

  /** No read of a published worker is on its way, registered or live. */
  ghost predicate AllQuiet(s: State)
  {
    forall id :: id in s.snap ==>
      && id in s.workers && s.workers[id].flow.dispatched <= s.workers[id].flow.launched
      && s.workers[id].crowd.inflight == {} && s.workers[id].crowd.group == {}
  }

  lemma {:induction false} ScanPasses(cfg: Config, rw: bool, s: State, s': State)
    requires s.control.Scan? && s.control.todo <= s.snap && AllQuiet(s)
    requires Controls(cfg, rw, s.(control := DisableLock), s')
    ensures Controls(cfg, rw, s, s')
    decreases |s.control.todo|
  {
    var todo := s.control.todo;
    if todo == {} {
      ControlsStep(cfg, rw, s, 0, s.(control := DisableLock), s');
    } else {
      var id :| id in todo;
      var compare := s.(control := Compare(id, s.workers[id].flow.launched, todo));
      var rest := s.(control := Scan(todo - {id}));
      ScanPasses(cfg, rw, rest, s');
      ControlsStep(cfg, rw, compare, id, rest, s');
      ControlsStep(cfg, rw, s, id, compare, s');
    }
  }

  lemma {:induction false} CountPasses(cfg: Config, rw: bool, s: State, s': State)
    requires s.control.Count? && s.control.todo <= s.snap && AllQuiet(s)
    requires Controls(cfg, rw, s.(control := GroupWait(s.snap)), s')
    ensures Controls(cfg, rw, s, s')
    decreases |s.control.todo|
  {
    var todo := s.control.todo;
    if todo == {} {
      ControlsStep(cfg, rw, s, 0, s.(control := GroupWait(s.snap)), s');
    } else {
      var id :| id in todo;
      var rest := s.(control := Count(todo - {id}));
      CountPasses(cfg, rw, rest, s');
      ControlsStep(cfg, rw, s, id, rest, s');
    }
  }

  lemma {:induction false} GroupPasses(cfg: Config, rw: bool, s: State, s': State)
    requires s.control.GroupWait? && s.control.todo <= s.snap && AllQuiet(s)
    requires Controls(cfg, rw, s.(control := Finish), s')
    ensures Controls(cfg, rw, s, s')
    decreases |s.control.todo|
  {
    var todo := s.control.todo;
    if todo == {} {
      ControlsStep(cfg, rw, s, 0, s.(control := Finish), s');
    } else {
      var id :| id in todo;
      var rest := s.(control := GroupWait(todo - {id}));
      GroupPasses(cfg, rw, rest, s');
      ControlsStep(cfg, rw, s, id, rest, s');
    }
  }

  /** Where the switch ends when nothing stops it. */
  function Ended(s: State): State
  {
    var on := s.control.BeginDisable? || Scanning(s.control) || s.control.DisableLock? || s.control.Flip?;
    s.(g := s.g.(enabled := false, disabling := false, writer := Nobody), result := Some(true), control := Idle,
       flipped := true, flips := if on then s.flips + 1 else s.flips)
  }

  lemma FromCount(cfg: Config, rw: bool, s: State)
    requires s.control == Count(s.snap) && AllQuiet(s) && !s.g.enabled && s.g.writer == Nobody && s.flipped
    ensures Controls(cfg, rw, s, Ended(s))
  {
    hide Controls;
    ControlsNothing(cfg, rw, Ended(s));
    ControlsStep(cfg, rw, s.(control := Finish), 0, Ended(s), Ended(s));
    GroupPasses(cfg, rw, s.(control := GroupWait(s.snap)), Ended(s));
    CountPasses(cfg, rw, s, Ended(s));
  }

  lemma FromLock(cfg: Config, rw: bool, s: State)
    requires s.control.DisableLock? && AllQuiet(s) && s.g.Free()
    ensures Controls(cfg, rw, s, Ended(s))
  {
    hide Controls;
    var off := s.(g := s.g.(enabled := false), flipped := true, flips := s.flips + 1);
    var locked := s.(g := s.g.(writer := Controller));
    var flipped := off.(g := off.g.(writer := Controller));
    FromCount(cfg, rw, off.(control := Count(s.snap)));
    assert Ended(off.(control := Count(s.snap))) == Ended(s);
    ControlsStep(cfg, rw, flipped.(control := FlipUnlock), 0, off.(control := Count(s.snap)), Ended(s));
    ControlsStep(cfg, rw, locked.(control := Flip), 0, flipped.(control := FlipUnlock), Ended(s));
    ControlsStep(cfg, rw, s, 0, locked.(control := Flip), Ended(s));
  }

  lemma FromScan(cfg: Config, rw: bool, s: State)
    requires s.control.Scan? && s.control.todo <= s.snap && AllQuiet(s) && s.g.Free()
    ensures Controls(cfg, rw, s, Ended(s))
  {
    hide Controls;
    var lock := s.(control := DisableLock);
    FromLock(cfg, rw, lock);
    assert Ended(lock) == Ended(s);
    ScanPasses(cfg, rw, s, Ended(s));
  }

  /** The switch has been decided against: its deadline had passed. */
  predicate GivingUp(c: ControlPc) { c.Abort? || c.Rollback? || c.RollbackEnd? }

  /** In every run: wherever SetRWEnabled(false) stands, once the published workers are quiet and nobody
      else has the lock it goes on to turn the mode off and return nil, also after passes that found
      reads on their way; only a deadline that had already passed makes it fail. */
  lemma SwitchGoesOn(cfg: Config, rw: bool, s: State)
    requires Reachable(cfg, rw, s) && !s.control.Idle? && !GivingUp(s.control) && AllQuiet(s)
    requires s.g.readers == {} && (s.g.writer == Nobody || s.g.writer == Controller)
    ensures Controls(cfg, rw, s, Ended(s))
  {
    hide Reachable, Controls, Local, Switch, AllFixed, Owned, Emptied, PlacedUsed;
    ReachableSound(cfg, rw, s);
    match s.control
    case BeginDisable =>
      var scan := s.(g := s.g.(disabling := true), control := Scan(s.snap));
      FromScan(cfg, rw, scan);
      assert Ended(scan) == Ended(s);
      ControlsStep(cfg, rw, s, 0, scan, Ended(s));
    case Scan(_) => FromScan(cfg, rw, s);
    case Compare(_, _, _) => FromCompare(cfg, rw, s);
    case ScanAgain =>
      FromScan(cfg, rw, s.(control := Scan(s.snap)));
      assert Ended(s.(control := Scan(s.snap))) == Ended(s);
      ControlsStep(cfg, rw, s, 0, s.(control := Scan(s.snap)), Ended(s));
    case DisableLock => FromLock(cfg, rw, s);
    case _ => FromFlip(cfg, rw, s);
  }

  lemma FromCompare(cfg: Config, rw: bool, s: State)
    requires s.control.Compare? && Todo(s.control, s.snap) && AllQuiet(s) && s.g.Free()
    ensures Controls(cfg, rw, s, Ended(s))
  {
    hide Controls;
    var id, todo := s.control.worker, s.control.todo;
    if s.control.seen < s.workers[id].flow.dispatched {
      var again, scan := s.(control := ScanAgain), s.(control := Scan(s.snap));
      FromScan(cfg, rw, scan);
      assert Ended(scan) == Ended(s);
      ControlsStep(cfg, rw, again, 0, scan, Ended(s));
      ControlsStep(cfg, rw, s, 0, again, Ended(s));
    } else {
      var scan := s.(control := Scan(todo - {id}));
      FromScan(cfg, rw, scan);
      assert Ended(scan) == Ended(s);
      ControlsStep(cfg, rw, s, 0, scan, Ended(s));
    }
  }

  /** From the flip on. */
  lemma FromFlip(cfg: Config, rw: bool, s: State)
    requires s.control.Flip? || Flipped(s.control)
    requires !s.control.Rollback? && AllQuiet(s) && Todo(s.control, s.snap) && (s.control.Flip? || s.flipped)
    requires (s.control.Flip? || s.control.FlipUnlock?) || s.g.writer == Nobody
    requires Flipped(s.control) ==> !s.g.enabled
    ensures Controls(cfg, rw, s, Ended(s))
  {
    hide Controls;
    var off := if s.control.Flip? then s.(g := s.g.(enabled := false), flipped := true, flips := s.flips + 1) else s;
    var free := off.(g := off.g.(writer := Nobody));
    var count := free.(control := Count(s.snap));
    match s.control
    case Flip =>
      FromCount(cfg, rw, count);
      assert Ended(count) == Ended(s);
      ControlsStep(cfg, rw, off.(control := FlipUnlock), 0, count, Ended(s));
      ControlsStep(cfg, rw, s, 0, off.(control := FlipUnlock), Ended(s));
    case FlipUnlock =>
      FromCount(cfg, rw, count);
      assert Ended(count) == Ended(s);
      ControlsStep(cfg, rw, s, 0, count, Ended(s));
    case Count(_) =>
      FromGroups(cfg, rw, s);
      CountPasses(cfg, rw, s, Ended(s));
    case CountAgain =>
      FromCount(cfg, rw, count);
      assert Ended(count) == Ended(s);
      ControlsStep(cfg, rw, s, 0, count, Ended(s));
    case GroupWait(_) =>
      FromFinish(cfg, rw, s);
      GroupPasses(cfg, rw, s, Ended(s));
    case Finish => FromFinish(cfg, rw, s);
  }

  lemma FromFinish(cfg: Config, rw: bool, s: State)
    requires Flipped(s.control) && !s.g.enabled && s.g.writer == Nobody && s.flipped
    ensures Controls(cfg, rw, s.(control := Finish), Ended(s))
  {
    hide Controls;
    ControlsNothing(cfg, rw, Ended(s));
    ControlsStep(cfg, rw, s.(control := Finish), 0, Ended(s), Ended(s));
  }

  lemma FromGroups(cfg: Config, rw: bool, s: State)
    requires Flipped(s.control) && !s.g.enabled && s.g.writer == Nobody && s.flipped && AllQuiet(s)
    ensures Controls(cfg, rw, s.(control := GroupWait(s.snap)), Ended(s))
  {
    hide Controls;
    FromFinish(cfg, rw, s);
    GroupPasses(cfg, rw, s.(control := GroupWait(s.snap)), Ended(s));
  }

  /** It starts whenever RW mode is on, and gives up only at a step where its deadline has passed. */
  lemma GivesUpLate(s: State, target: WorkerId, alarm: bool)
    ensures var n := ControlStep(s, target, alarm);
            && (s.control.Idle? ==> (n.Some? <==> s.g.enabled) && (n.Some? ==> n.value.control == BeginDisable))
            && (n.Some? && GivingUp(n.value.control) && !GivingUp(s.control) ==> alarm)
  {
  }

  /** With nothing to wait for it succeeds from the start, whatever the published set. */
  lemma SwitchSucceedsAlone(cfg: Config, rw: bool, s: State)
    requires s.control == Idle && s.g.enabled && s.g.Free() && AllQuiet(s)
    ensures Controls(cfg, rw, s, s.(g := s.g.(enabled := false, disabling := false), result := Some(true),
                                    flipped := true, flips := s.flips + 1))
  {
    hide Controls;
    var begin := s.(control := BeginDisable);
    var scan := s.(g := s.g.(disabling := true), control := Scan(s.snap));
    FromScan(cfg, rw, scan);
    ControlsStep(cfg, rw, begin, 0, scan, Ended(scan));
    ControlsStep(cfg, rw, s, 0, begin, Ended(scan));
  }

  // ---- Growth and removal

  /** A worker joins under a new id, open and empty, and several leave together, exactly when run has
      returned in each, while no switch is under way. */
  lemma PublishExact(cfg: Config, rw: bool, s: State, id: WorkerId, gone: set<WorkerId>)
    ensures var n := Step(cfg, rw, s, Grow(id));
            && (n.Some? <==> s.control.Idle? && id !in s.workers)
            && (n.Some? ==> n.value == s.(workers := s.workers[id := NewWorker(rw)], snap := s.snap + {id}))
    ensures var w := NewWorker(rw);
            && !w.closed && !w.timedOut && w.writeRequested == 0 && w.downgrades == 0 && w.main == Loop
            && (w.pipe.Recv? <==> rw) && (w.pipe.Exited? <==> !rw) && w.flow == Flow(0, 0, [], false)
            && w.crowd == Crowd({}, {}, map[]) && w.ledger == Ledger({}, Empty, map[], map[])
    ensures var n := Step(cfg, rw, s, Remove(gone));
            && (n.Some? <==> s.control.Idle? && forall i :: i in gone ==> i in s.workers && s.workers[i].main.Done?)
            && (n.Some? ==> n.value == s.(snap := s.snap - gone))
  {
  }
}
