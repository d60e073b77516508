/** Shrinking the pool and the order of the jobs of one key. A Submit may go to any worker at any
    time, so it covers dispatchers that still hold an old snapshot. */
module RWShrink {
  import opened RWMachine
  import opened RWLocal
  import opened RWInvariant
  import opened RWFixed
  import opened RWRetired
  import opened RWSwitch
  import opened RWSlot
  import opened RWExecuted
  import JumpHash
  import WorkerPool

  /** A worker that will do nothing more with a job. */
  ghost predicate Stopped(w: Worker)
  {
    w.closed && w.main.Done? && w.pipe.Exited? && forall j :: j in w.crowd.tasks ==> !Unread(w.crowd.tasks[j])
  }

  lemma StoppedStep(cfg: Config, g: Shared, w: Worker, id: WorkerId, a: Action)
    requires Stopped(w)
    ensures var r := WorkerStep(cfg, g, w, id, a); r.Moved? ==> Stopped(r.w) && r.w.ledger == w.ledger
  {
  }

  lemma StepStopped(cfg: Config, rw: bool, s: State, a: Action, id: WorkerId)
    requires id in s.workers && Stopped(s.workers[id])
    ensures var n := Step(cfg, rw, s, a);
            n.Some? ==> && id in n.value.workers && Stopped(n.value.workers[id])
                        && n.value.workers[id].ledger == s.workers[id].ledger
  {
    hide WorkerStep, Stopped;
    if !a.ActControl? && !a.Grow? && !a.Remove? && a.worker == id { StoppedStep(cfg, s.g, s.workers[id], id, a); }
  }

  lemma {:induction false} AfterStopped(cfg: Config, rw: bool, s: State, id: WorkerId, actions: seq<Action>, s': State)
    requires id in s.workers && Stopped(s.workers[id]) && After(cfg, rw, s, actions) == Some(s')
    ensures id in s'.workers && s'.workers[id].ledger == s.workers[id].ledger
    decreases |actions|
  {
    hide Step, Stopped;
    if actions != [] {
      StepStopped(cfg, rw, s, actions[0], id);
      AfterStopped(cfg, rw, Step(cfg, rw, s, actions[0]).value, id, actions[1..], s');
    }
  }

  lemma RetiredStopped(cfg: Config, rw: bool, s: State, id: WorkerId)
    requires Sound(cfg, rw, s) && AllClean(s) && id in s.workers && id !in s.snap && !s.workers[id].timedOut
    ensures Stopped(s.workers[id])
  {
    hide Executions, Slotted, AllFixed, Flags, Owned, Emptied, Scanned, Stragglers, TornLast;
    var w := s.workers[id];
    assert Clean(w) && Local(cfg, rw, s.g, id, w) && w.main.Done?;
    hide Counters, Locks, Places;
  }

  /** In every run without a stop timeout of the worker, whatever mode switches it has: in every
      state whose published set no longer has the worker, every job the worker ever accepted is
      settled, or was overwritten by storePending and never executed; and no continuation changes
      that or adds a job. */
  lemma RemovedSettled(cfg: Config, rw: bool, s: State, id: WorkerId, j: Job, later: seq<Action>, s': State)
    requires Reachable(cfg, rw, s) && id in s.workers && id !in s.snap && !s.workers[id].timedOut
    requires After(cfg, rw, s, later) == Some(s')
    ensures s.workers[id].closed
    ensures j in s.workers[id].ledger.place ==> s.workers[id].ledger.IsSettled(j) || s.workers[id].ledger.At(j, Lost)
    ensures id in s'.workers && s'.workers[id].ledger == s.workers[id].ledger
  {
    hide Step, Reachable, Sound, AllClean;
    ReachableClean(cfg, rw, s);
    RetiredStopped(cfg, rw, s, id);
    if j in s.workers[id].ledger.place { SettledOrOverwritten(cfg, rw, s, id, j); }
    AfterStopped(cfg, rw, s, id, later, s');
  }

  /** Per-key order across a shrink, in every run without a stop timeout of the worker the key had.
      `before` and `after` are coherent snapshots, `after` being published in `s`; its ring is a
      prefix of the other. If the key changes its worker, then when `after` is published every job
      its old worker accepted is settled or will never run, and in every continuation that worker
      does nothing more: no job of the key that `after` routes can meet an older one. */
  lemma KeyOrderAcrossShrink<W>(
    cfg: Config, rw: bool, jump: JumpHash.Jump, hash: nat,
    before: WorkerPool.Snapshot<W>, after: WorkerPool.Snapshot<W>,
    s: State, j: Job, later: seq<Action>, s': State)
    requires Reachable(cfg, rw, s) && After(cfg, rw, s, later) == Some(s')
    requires JumpHash.Ahead(jump) && WorkerPool.Coherent(before) && WorkerPool.Coherent(after)
    requires 0 < after.count <= before.count && after.ring == before.ring[..after.count] && after.workers.Keys == s.snap
    requires var id := WorkerPool.Owner(jump, before, hash);
             id != WorkerPool.Owner(jump, after, hash) && id in s.workers && !s.workers[id].timedOut
    ensures var id := WorkerPool.Owner(jump, before, hash);
            var l := s.workers[id].ledger;
            && (j in l.place ==> l.IsSettled(j) || l.At(j, Lost))
            && id in s'.workers && s'.workers[id].ledger == l
  {
    hide Step, Reachable, JumpHash.Ahead;
    var id := WorkerPool.Owner(jump, before, hash);
    WorkerPool.ShrinkMoves(jump, before, after, hash);
    hide WorkerPool.Coherent, WorkerPool.Owner;
    RemovedSettled(cfg, rw, s, id, j, later, s');
  }
}
