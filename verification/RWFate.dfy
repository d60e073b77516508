/** Why an accepted job was not executed: in every run one of the reasons the source has. */
module RWFate {
  import opened RWMachine
  import opened RWLocal
  import opened RWInvariant
  import opened RWFixed
  import opened RWRetired
  import opened RWSwitch
  import opened RWSlot
  import opened RWExecuted
  import opened RWTheorems
  import opened RWKinds

  /** The goroutine that `a` moves is in ExecuteJob with `j`. */
  predicate Executing(w: Worker, a: Action, j: Job)
  {
    match a
    case ActMain(_, _) => MainExecutes(w.main, j)
    case ActPipe(_, _) => w.pipe == PipeWrite(j, Hold(true))
    case ActRead(_, i, _) => i == j && i in w.crowd.tasks && w.crowd.tasks[i].Running?
    case _ => false
  }

  /** The source gives `j` up at this step: it was cancelled before ExecuteJob; a full channel had
      rejected it; storePending found it parked; the stop deadline passed before it was launched; or
      it is residual and the drain may not execute. */
  predicate GivenUp(cfg: Config, w: Worker, a: Action, j: Job)
  {
    match a
    case ActMain(_, c) =>
      (match w.main
       case Serial(i, false) => i == j && c.alarm
       case MainWrite(i, Hold(false)) => i == j && c.alarm
       case MainWrite(_, ParkOld(i)) => i == j
       case Reject(i) => i == j
       case Drain(Residue(_, SettlePending(i, false))) => i == j && (c.alarm || !cfg.drainExecutes || w.timedOut)
       case Drain(Residue(_, SettleQueued(i, false))) => i == j && (c.alarm || !cfg.drainExecutes || w.timedOut)
       case _ => false)
    case ActPipe(_, c) =>
      (match w.pipe
       case PipeWrite(i, Hold(false)) => i == j && c.alarm
       case PipeWrite(_, ParkOld(i)) => i == j
       case DiscardLate(i) => i == j
       case _ => false)
    case ActRead(_, i, cancelled) => i == j && i in w.crowd.tasks && w.crowd.tasks[i].Ready? && cancelled
    case _ => false
  }

  /** The service hears nothing of a late read and of what an unsafe drain gives up. */
  predicate Silent(w: Worker, a: Action)
  {
    || (a.ActPipe? && w.pipe.DiscardLate?)
    || (a.ActMain? && InResidue(w.main) && w.main.drain.mode.unsafe)
  }

  /** What one step does to a job: an execution that ends settles it as executed; a job that is given
      up is settled without, silently exactly where the source is silent; nothing else is settled or
      released. */
  ghost predicate Fates(cfg: Config, w: Worker, a: Action, j: Job, r: LocalResult)
  {
    r.Moved? ==>
      var l, l' := w.ledger, r.w.ledger;
      if Executing(w, a, j) then l'.At(j, Settled(Executed)) && l'.Releases(j) == l.Releases(j) + 1
      else if GivenUp(cfg, w, a, j) then
        l'.At(j, Settled(if Silent(w, a) then Dropped else Discarded)) && l'.Releases(j) == l.Releases(j) + 1
      else
        && (l'.IsSettled(j) <==> l.IsSettled(j)) && (WasExecuted(l', j) <==> WasExecuted(l, j))
        && l'.Releases(j) == l.Releases(j)
  }

  /** The shift of the step settles exactly the job that the step executes or gives up. */
  ghost predicate Explains(cfg: Config, w: Worker, a: Action, x: Shift)
  {
    forall j :: if Executing(w, a, j) then Settles(Seen(w), x) == Full(j) && SettlesAs(x, Executed)
                else if GivenUp(cfg, w, a, j) then
                  Settles(Seen(w), x) == Full(j) && SettlesAs(x, if Silent(w, a) then Dropped else Discarded)
                else Settles(Seen(w), x) != Full(j)
  }

  lemma FatesFrom(cfg: Config, w: Worker, a: Action, x: Shift, j: Job, r: LocalResult)
    requires Places(w) && ShiftAfter(w, x, r) && Explains(cfg, w, a, x)
    ensures Fates(cfg, w, a, j, r)
  {
    hide Executing, GivenUp, Agrees, Shifted, Allowed, SettlesAs, Settles;
    if r.Moved? {
      if Settles(Seen(w), x) == Full(j) { SettledAs(Seen(w), x, j); } else { SettledSame(Seen(w), x, j); }
    }
  }

  lemma SettledAs(v: View, x: Shift, j: Job)
    requires Allowed(v, x) && Settles(v, x) == Full(j)
    ensures forall how :: SettlesAs(x, how) ==> Shifted(v, x).ledger.At(j, Settled(how))
    ensures Shifted(v, x).ledger.Releases(j) == v.ledger.Releases(j) + 1
  {
  }

  lemma ExplainsMain(cfg: Config, rw: bool, w: Worker, id: WorkerId, c: Choice)
    requires Life(cfg, rw, w)
    ensures Explains(cfg, w, ActMain(id, c), MainShift(cfg, w, c))
  {
  }

  lemma ExplainsPipe(cfg: Config, w: Worker, id: WorkerId, c: Choice)
    ensures Explains(cfg, w, ActPipe(id, c), PipeShift(w, c))
  {
  }

  lemma ExplainsRead(cfg: Config, w: Worker, id: WorkerId, j: Job, cancelled: bool)
    ensures Explains(cfg, w, ActRead(id, j, cancelled), ReadShift(w, j, cancelled))
  {
  }

  lemma LocalFates(cfg: Config, rw: bool, g: Shared, w: Worker, id: WorkerId, a: Action, j: Job)
    requires Local(cfg, rw, g, id, w) && (!rw ==> !g.enabled) && (a.Submit? ==> a.job !in w.ledger.place)
    ensures Fates(cfg, w, a, j, WorkerStep(cfg, g, w, id, a))
  {
    hide WorkerStep, Counters, Locks, Places, Crowded, ShiftAfter, Explains, MainShift, PipeShift, ReadShift;
    hide Executing, GivenUp, Life;
    var r := WorkerStep(cfg, g, w, id, a);
    LocalKept(cfg, rw, g, w, id, a);
    match a {
      case ActMain(i, c) => ExplainsMain(cfg, rw, w, i, c);
      case ActPipe(i, c) => ExplainsPipe(cfg, w, i, c);
      case ActRead(i, k, cancelled) => ExplainsRead(cfg, w, i, k, cancelled);
      case _ => OthersExplain(cfg, w, a);
    }
    if r.Moved? { FatesFrom(cfg, w, a, ShiftOf(cfg, w, a), j, r); }
  }

  lemma OthersExplain(cfg: Config, w: Worker, a: Action)
    requires !a.ActMain? && !a.ActPipe? && !a.ActRead?
    ensures Explains(cfg, w, a, ShiftOf(cfg, w, a))
  {
  }

  // ---- One step of a run

  /** The action moves a goroutine of worker `id`. */
  predicate Moves(a: Action, id: WorkerId) { !a.ActControl? && !a.Grow? && !a.Remove? && a.worker == id }

  lemma StepFates(cfg: Config, rw: bool, s: State, a: Action, s': State, id: WorkerId, j: Job)
    requires Inv(cfg, rw, s) && id in s.workers && Step(cfg, rw, s, a) == Some(s')
    ensures id in s'.workers
    ensures Moves(a, id) ==>
              && WorkerStep(cfg, s.g, s.workers[id], id, a).Moved?
              && Fates(cfg, s.workers[id], a, j, Moved(s'.g, s'.workers[id]))
    ensures !Moves(a, id) ==> s'.workers[id] == s.workers[id]
  {
    hide ControlStep, WorkerStep, Local, Owned, Emptied, Fates;
    if a.ActControl? { ControlSameWorkers(s, a.target, a.alarm); }
    else if Moves(a, id) {
      if a.Submit? { SubmittedFresh(s, id, a); }
      LocalFates(cfg, rw, s.g, s.workers[id], id, a, j);
    }
  }

  /** In every run, for every step and every job of every worker: a step of a goroutine that is in
      ExecuteJob with the job settles it as executed and releases it; one that gives the job up, for
      one of the reasons of GivenUp, settles it as discarded, or silently as dropped, and releases
      it; and no other step settles or releases it. */
  lemma EveryStep(cfg: Config, rw: bool, s: State, a: Action, s': State, id: WorkerId, j: Job)
    requires Reachable(cfg, rw, s) && id in s.workers && Step(cfg, rw, s, a) == Some(s')
    ensures id in s'.workers
    ensures var w, l, l' := s.workers[id], s.workers[id].ledger, s'.workers[id].ledger;
            if Moves(a, id) && Executing(w, a, j) then
              l'.At(j, Settled(Executed)) && l'.Releases(j) == l.Releases(j) + 1
            else if Moves(a, id) && GivenUp(cfg, w, a, j) then
              l'.At(j, Settled(if Silent(w, a) then Dropped else Discarded)) && l'.Releases(j) == l.Releases(j) + 1
            else
              && (l'.IsSettled(j) <==> l.IsSettled(j)) && (WasExecuted(l', j) <==> WasExecuted(l, j))
              && l'.Releases(j) == l.Releases(j)
  {
    hide Reachable, Step, Inv, Switch, AllFixed, Executing, GivenUp;
    ReachableSound(cfg, rw, s);
    StepFates(cfg, rw, s, a, s', id, j);
  }

  // ---- Why a job was not executed

  /** Whoever leaves execWrite without the lock, or finds a read late, belongs to a closed worker. */
  predicate Closing(w: Worker)
  {
    && (w.main.MainWrite? && Leaving(w.main.pc) ==> w.closed)
    && (w.pipe.PipeWrite? && Leaving(w.pipe.pc) ==> w.closed)
    && (w.pipe.CountLate? || w.pipe.DiscardLate? ==> w.closed)
    && (w.main.Drain? ==> w.closed)
  }

  lemma ClosingMain(cfg: Config, g: Shared, w: Worker, id: WorkerId, c: Choice)
    requires Closing(w)
    ensures var r := MainStep(cfg, g, w, id, c); r.Moved? ==> Closing(r.w)
  {
    if InShutdown(w.main) { ClosingShutdown(g, w, id, w.main.drain.at, c); }
    else if InResidue(w.main) { ClosingResidue(cfg, g, w, w.main.drain.mode, w.main.drain.pc, c); }
    else { ClosingServe(cfg, g, w, id, c); }
  }

  lemma ClosingServe(cfg: Config, g: Shared, w: Worker, id: WorkerId, c: Choice)
    requires Closing(w) && !w.main.Drain?
    ensures var r := MainStep(cfg, g, w, id, c); r.Moved? ==> Closing(r.w)
  {
    hide ShutdownStep, ResidueStep;
  }

  lemma ClosingShutdown(g: Shared, w: Worker, id: WorkerId, d: ShutdownPc, c: Choice)
    requires Closing(w) && w.closed
    ensures var r := ShutdownStep(g, w, id, d, c); r.Moved? ==> Closing(r.w)
  {
  }

  lemma ClosingResidue(cfg: Config, g: Shared, w: Worker, m: DrainMode, pc: ResiduePc, c: Choice)
    requires Closing(w) && w.closed
    ensures var r := ResidueStep(cfg, g, w, m, pc, c); r.Moved? ==> Closing(r.w)
  {
  }

  lemma ClosingPipe(cfg: Config, g: Shared, w: Worker, id: WorkerId, c: Choice)
    requires Closing(w)
    ensures var r := PipeStep(cfg, g, w, id, c); r.Moved? ==> Closing(r.w)
  {
    hide TokenLeft;
  }

  lemma ClosingStep(cfg: Config, g: Shared, w: Worker, id: WorkerId, a: Action)
    requires Closing(w)
    ensures var r := WorkerStep(cfg, g, w, id, a); r.Moved? ==> Closing(r.w) && (w.closed ==> r.w.closed)
  {
    hide MainStep, PipeStep;
    if w.closed { ClosedKept(cfg, g, w, id, a); }
    match a
    case ActMain(_, c) => ClosingMain(cfg, g, w, id, c);
    case ActPipe(_, c) => ClosingPipe(cfg, g, w, id, c);
    case _ =>
  }

  /** Where the reason to give `j` up arises: it is cancelled; readCh is full; storePending finds it;
      the stop deadline has passed; it is residual and the drain may not execute. The last three
      only on a closed worker. */
  predicate Blamed(cfg: Config, w: Worker, a: Action, j: Job)
  {
    match a
    case ActMain(_, c) =>
      (match w.main
       case Serial(i, false) => i == j && c.alarm
       case MainWrite(i, Hold(false)) => i == j && c.alarm
       case Send(i) => i == j && |w.flow.channel| >= cfg.channelCap
       case MainWrite(_, ParkOld(i)) => i == j && w.closed
       case Drain(_) => w.closed && (c.alarm || !cfg.drainExecutes || w.timedOut)
       case _ => false)
    case ActPipe(_, c) =>
      (match w.pipe
       case PipeWrite(i, Hold(false)) => i == j && c.alarm
       case PipeWrite(_, ParkOld(i)) => i == j && w.closed
       case Gate(i) => i == j && w.closed && c.alarm
       case _ => false)
    case ActRead(_, i, cancelled) => i == j && cancelled
    case _ => false
  }

  /** After the first k of the actions worker `id` is about to take the k-th, and the reason arises. */
  ghost predicate BlamedAt(cfg: Config, rw: bool, actions: seq<Action>, k: nat, id: WorkerId, j: Job)
  {
    k < |actions| && Moves(actions[k], id) &&
    var m := After(cfg, rw, Initial(rw), actions[..k]);
    m.Some? && id in m.value.workers && Blamed(cfg, m.value.workers[id], actions[k], j)
  }

  lemma BlamedEarlier(cfg: Config, rw: bool, front: seq<Action>, a: Action, k: nat, id: WorkerId, j: Job)
    requires BlamedAt(cfg, rw, front, k, id, j)
    ensures BlamedAt(cfg, rw, front + [a], k, id, j)
  {
    assert (front + [a])[..k] == front[..k] && (front + [a])[k] == front[k];
  }

  lemma BlamedLast(cfg: Config, rw: bool, front: seq<Action>, a: Action, m: State, id: WorkerId, j: Job)
    requires After(cfg, rw, Initial(rw), front) == Some(m) && id in m.workers
    requires Moves(a, id) && Blamed(cfg, m.workers[id], a, j)
    ensures BlamedAt(cfg, rw, front + [a], |front|, id, j)
  {
    assert (front + [a])[..|front|] == front;
  }

  /** The job is given up without having been executed, or about to be because readCh was full or the
      stop deadline had passed. */
  ghost predicate Forsaken(w: Worker, j: Job)
  {
    || (w.ledger.IsSettled(j) && !WasExecuted(w.ledger, j))
    || w.main == Overflow(j) || w.main == Reject(j) || w.pipe == CountLate(j) || w.pipe == DiscardLate(j)
  }

  /** A job is forsaken only where there is a reason. */
  lemma ForsakenStep(cfg: Config, rw: bool, g: Shared, w: Worker, id: WorkerId, a: Action, j: Job)
    requires Local(cfg, rw, g, id, w) && (!rw ==> !g.enabled) && (a.Submit? ==> a.job !in w.ledger.place)
    requires Closing(w) && Clean(w)
    ensures var r := WorkerStep(cfg, g, w, id, a);
            r.Moved? && Forsaken(r.w, j) ==> Forsaken(w, j) || Blamed(cfg, w, a, j)
  {
    hide WorkerStep, Local, Executions, Slotted, ReadsOver;
    LocalFates(cfg, rw, g, w, id, a, j);
    CleanStep(cfg, rw, g, w, id, a);
    PathStep(cfg, g, w, id, a, j);
    if GivenUp(cfg, w, a, j) { GivenUpBlamed(cfg, w, a, j); }
  }

  lemma GivenUpBlamed(cfg: Config, w: Worker, a: Action, j: Job)
    requires Closing(w) && GivenUp(cfg, w, a, j)
    ensures Forsaken(w, j) || Blamed(cfg, w, a, j)
  {
  }

  lemma PathStep(cfg: Config, g: Shared, w: Worker, id: WorkerId, a: Action, j: Job)
    ensures var r := WorkerStep(cfg, g, w, id, a);
            r.Moved? && !Blamed(cfg, w, a, j) ==>
              && (r.w.main == Overflow(j) ==> w.main == Overflow(j))
              && (r.w.main == Reject(j) ==> w.main == Reject(j) || w.main == Overflow(j))
              && (r.w.pipe == CountLate(j) ==> w.pipe == CountLate(j))
              && (r.w.pipe == DiscardLate(j) ==> w.pipe == DiscardLate(j) || w.pipe == CountLate(j))
  {
    hide MainStep, PipeStep;
    match a
    case ActMain(_, c) => MainShifting(cfg, g, w, id, c); PathMain(cfg, g, w, id, c, j);
    case ActPipe(_, c) => PathPipe(cfg, g, w, id, c, j);
    case _ =>
  }

  lemma PathMain(cfg: Config, g: Shared, w: Worker, id: WorkerId, c: Choice, j: Job)
    ensures var r := MainStep(cfg, g, w, id, c);
            r.Moved? && !Blamed(cfg, w, ActMain(id, c), j) ==>
              && (r.w.main == Overflow(j) ==> w.main == Overflow(j))
              && (r.w.main == Reject(j) ==> w.main == Reject(j) || w.main == Overflow(j))
  {
    hide WriteStep, ShutdownStep, ResidueStep;
    if InShutdown(w.main) { ShutdownDraining(g, w, id, w.main.drain.at, c); }
    else if InResidue(w.main) { ResidueDraining(cfg, g, w, w.main.drain.mode, w.main.drain.pc, c); }
  }

  lemma PathPipe(cfg: Config, g: Shared, w: Worker, id: WorkerId, c: Choice, j: Job)
    ensures var r := PipeStep(cfg, g, w, id, c);
            r.Moved? && !Blamed(cfg, w, ActPipe(id, c), j) ==>
              && r.w.main == w.main
              && (r.w.pipe == CountLate(j) ==> w.pipe == CountLate(j))
              && (r.w.pipe == DiscardLate(j) ==> w.pipe == DiscardLate(j) || w.pipe == CountLate(j))
  {
    hide WriteStep, TokenLeft;
  }

  ghost predicate AllClosing(s: State) { forall id :: id in s.workers ==> Closing(s.workers[id]) }

  lemma StepClosing(cfg: Config, rw: bool, s: State, a: Action)
    requires AllClosing(s)
    ensures var n := Step(cfg, rw, s, a); n.Some? ==> AllClosing(n.value)
  {
    hide ControlStep, WorkerStep;
    if a.ActControl? { ControlSameWorkers(s, a.target, a.alarm); }
    else if !a.Grow? && !a.Remove? && a.worker in s.workers { ClosingStep(cfg, s.g, s.workers[a.worker], a.worker, a); }
  }

  lemma {:induction false} AfterClosing(cfg: Config, rw: bool, s: State, actions: seq<Action>)
    requires AllClosing(s)
    ensures var n := After(cfg, rw, s, actions); n.Some? ==> AllClosing(n.value)
    decreases |actions|
  {
    hide Step, AllClosing;
    if actions != [] {
      StepClosing(cfg, rw, s, actions[0]);
      var next := Step(cfg, rw, s, actions[0]);
      if next.Some? { AfterClosing(cfg, rw, next.value, actions[1..]); }
    }
  }

  lemma StepForsakes(cfg: Config, rw: bool, m: State, a: Action, s: State, id: WorkerId, j: Job)
    requires Sound(cfg, rw, m) && AllClean(m) && AllClosing(m) && Step(cfg, rw, m, a) == Some(s)
    requires id in s.workers && Forsaken(s.workers[id], j)
    ensures id in m.workers
    ensures Forsaken(m.workers[id], j) || (Moves(a, id) && Blamed(cfg, m.workers[id], a, j))
  {
    hide ControlStep, WorkerStep, Local, Clean, Closing, Blamed, Switch, AllFixed, Owned, Emptied;
    if a.ActControl? { ControlSameWorkers(m, a.target, a.alarm); }
    else if Moves(a, id) {
      if a.Submit? { SubmittedFresh(m, id, a); }
      ForsakenStep(cfg, rw, m.g, m.workers[id], id, a, j);
    }
  }

  lemma {:induction false} ForsakenBecause(
    cfg: Config, rw: bool, actions: seq<Action>, s: State, id: WorkerId, j: Job) returns (k: nat)
    requires After(cfg, rw, Initial(rw), actions) == Some(s) && id in s.workers && Forsaken(s.workers[id], j)
    ensures BlamedAt(cfg, rw, actions, k, id, j)
    decreases |actions|
  {
    hide Step, Forsaken, Sound, AllClean, AllClosing, BlamedAt, Blamed;
    if actions == [] { assert false; }
    var front, a := actions[..|actions| - 1], actions[|actions| - 1];
    assert actions == front + [a];
    AfterExtended(cfg, rw, Initial(rw), front, a);
    var m := After(cfg, rw, Initial(rw), front).value;
    assert Reachable(cfg, rw, m);
    ReachableClean(cfg, rw, m);
    NoneClosing(rw);
    AfterClosing(cfg, rw, Initial(rw), front);
    StepForsakes(cfg, rw, m, a, s, id, j);
    if Forsaken(m.workers[id], j) {
      k := ForsakenBecause(cfg, rw, front, m, id, j);
      BlamedEarlier(cfg, rw, front, a, k, id, j);
    } else {
      k := |front|;
      BlamedLast(cfg, rw, front, a, m, id, j);
    }
  }

  lemma NoneClosing(rw: bool)
    ensures AllClosing(Initial(rw))
  {
  }

  /** In every run, an accepted job that was settled without having been executed has a reason in the
      run: it was cancelled before ExecuteJob, its read met a full readCh, the stop deadline had
      passed, storePending found it parked, or it was residual and the drain may not execute. */
  lemma WhyNotExecuted(cfg: Config, rw: bool, actions: seq<Action>, s: State, id: WorkerId, j: Job)
    requires After(cfg, rw, Initial(rw), actions) == Some(s) && id in s.workers
    requires s.workers[id].ledger.IsSettled(j) && !WasExecuted(s.workers[id].ledger, j)
    ensures exists k: nat :: BlamedAt(cfg, rw, actions, k, id, j)
  {
    hide BlamedAt;
    var k := ForsakenBecause(cfg, rw, actions, s, id, j);
  }

  /** The environment cancels nothing on worker `id` and no deadline of it passes. */
  ghost predicate Undisturbed(actions: seq<Action>, id: WorkerId)
  {
    forall a :: a in actions && Moves(a, id) ==>
      match a
      case ActMain(_, c) => !c.alarm
      case ActPipe(_, c) => !c.alarm
      case ActRead(_, _, cancelled) => !cancelled
      case _ => true
  }

  /** After the k-th action the main loop of worker `id` finds readCh full with read `j`. */
  ghost predicate FullAt(cfg: Config, rw: bool, actions: seq<Action>, k: nat, id: WorkerId, j: Job)
  {
    k < |actions| &&
    var m := After(cfg, rw, Initial(rw), actions[..k]);
    && m.Some? && id in m.value.workers && m.value.workers[id].main == Send(j)
    && |m.value.workers[id].flow.channel| >= cfg.channelCap
  }

  /** So on a worker that nobody stopped and where nothing was cancelled, every settled job was
      executed, but for reads that met a full readCh. */
  lemma OpenWorkerExecutes(cfg: Config, rw: bool, actions: seq<Action>, s: State, id: WorkerId, j: Job)
    requires After(cfg, rw, Initial(rw), actions) == Some(s) && id in s.workers && !s.workers[id].closed
    requires Undisturbed(actions, id) && s.workers[id].ledger.IsSettled(j)
    ensures WasExecuted(s.workers[id].ledger, j) || exists k: nat :: FullAt(cfg, rw, actions, k, id, j)
  {
    if !WasExecuted(s.workers[id].ledger, j) {
      var k := ForsakenBecause(cfg, rw, actions, s, id, j);
      var m := After(cfg, rw, Initial(rw), actions[..k]).value;
      OpenBefore(cfg, rw, actions, k, s, id);
      assert actions[k] in actions;
      assert FullAt(cfg, rw, actions, k, id, j);
    }
  }

  /** A worker that is open now was open before. */
  lemma OpenBefore(cfg: Config, rw: bool, actions: seq<Action>, k: nat, s: State, id: WorkerId)
    requires After(cfg, rw, Initial(rw), actions) == Some(s) && id in s.workers && !s.workers[id].closed
    requires k <= |actions| && After(cfg, rw, Initial(rw), actions[..k]).Some?
    ensures var m := After(cfg, rw, Initial(rw), actions[..k]).value; id in m.workers ==> !m.workers[id].closed
  {
    hide Step;
    var m := After(cfg, rw, Initial(rw), actions[..k]).value;
    if id in m.workers && m.workers[id].closed {
      assert actions == actions[..k] + actions[k..];
      AfterConcat(cfg, rw, Initial(rw), actions[..k], actions[k..]);
      NothingAcceptedAfterStop(cfg, rw, m, id, actions[k..], s);
    }
  }
}
