/** Parking of an idle worker: AdaptiveController (engine/pkg/utils/idle/idle.go) with condition
    parking, the two-step poll of DualQueueManager, and the Wake calls of SubmitJob and BeginStop
    (engine/pkg/actor/mailbox/worker.go). One step is one pop, one load of the state, one region
    under admissionMu or one region under the controller's mutex. */
module Parking {

  type JobId = nat

  datatype Pc =
    | LoadState              // the loop test
    | PopSystem              // NextJob: about to pop the system queue
    | PopUser                // it was empty: about to pop the user queue
    | Exec(job: JobId)
    | Idle                   // both were empty: about to call Idle
    | Park                   // Idle decided to park: about to test `notified` under the mutex
    | Blocked(called: bool)  // in cond.Wait; called: a Broadcast reached it
    | Left                   // the loop ended

  /** `waking` are the jobs whose SubmitJob has published them and has still to call Wake,
      `stopWakes` says the same of BeginStop; `used` are the jobs ever published. */
  datatype State = State(
    system: seq<JobId>, user: seq<JobId>, closed: bool, notified: bool, main: Pc,
    waking: set<JobId>, stopWakes: bool, used: set<JobId>)

  datatype Action =
    | Submit(job: JobId, urgent: bool)   // publication under admissionMu
    | SubmitWake(job: JobId)             // its Wake
    | Stop                               // BeginStop under admissionMu
    | StopWake
    | Work(spin: bool)                   // the worker; spin: Idle returns without parking

  /** Wake: set the flag and reach everybody who waits. */
  function Woken(s: State): State
  {
    s.(notified := true, main := if s.main.Blocked? then Blocked(true) else s.main)
  }

  datatype Outcome = Stuck | Next(state: State)

  function MainStep(s: State, spin: bool): Outcome
  {
    match s.main
    case LoadState => Next(s.(main := if s.closed then Left else PopSystem))
    case PopSystem =>
      if s.system == [] then Next(s.(main := PopUser))
      else Next(s.(system := s.system[1..], main := Exec(s.system[0])))
    case PopUser =>
      if s.user == [] then Next(s.(main := Idle))
      else Next(s.(user := s.user[1..], main := Exec(s.user[0])))
    case Exec(_) => Next(s.(main := LoadState))
    case Idle => Next(s.(main := if spin then LoadState else Park))
    case Park => Next(if s.notified then s.(notified := false, main := LoadState) else s.(main := Blocked(false)))
    case Blocked(called) =>
      if !called then Stuck
      else Next(if s.notified then s.(notified := false, main := LoadState) else s.(main := Blocked(false)))
    case Left => Stuck
  }

  function Step(s: State, a: Action): Outcome
  {
    match a
    case Submit(j, urgent) =>
      if s.closed || j in s.used then Stuck
      else if urgent then Next(s.(system := s.system + [j], waking := s.waking + {j}, used := s.used + {j}))
      else Next(s.(user := s.user + [j], waking := s.waking + {j}, used := s.used + {j}))
    case SubmitWake(j) => if j in s.waking then Next(Woken(s.(waking := s.waking - {j}))) else Stuck
    case Stop => if s.closed then Stuck else Next(s.(closed := true, stopWakes := true))
    case StopWake => if s.stopWakes then Next(Woken(s.(stopWakes := false))) else Stuck
    case Work(spin) => MainStep(s, spin)
  }

  function Start(): State { State([], [], false, false, LoadState, {}, false, {}) }

  function After(s: State, actions: seq<Action>): Outcome
    decreases |actions|
  {
    if actions == [] then Next(s)
    else
      var n := Step(s, actions[0]);
      if n.Stuck? then Stuck else After(n.state, actions[1..])
  }

  ghost predicate Reachable(s: State) { exists actions :: After(Start(), actions) == Next(s) }

  /** Every job of the queue has a Wake still to come. */
  ghost predicate Announced(s: State, queue: seq<JobId>) { forall i :: 0 <= i < |queue| ==> queue[i] in s.waking }

  predicate PastState(m: Pc) { m.PopSystem? || PastSystem(m) }

  predicate PastSystem(m: Pc) { m.PopUser? || PastUser(m) }

  predicate PastUser(m: Pc) { m.Idle? || m.Park? || m.Blocked? }

  /** What the worker has looked at since it last consumed a notification is either unchanged, or
      there is a notification, or one is still to come. */
  ghost predicate Inv(s: State)
  {
    && (!s.notified && PastState(s.main) && s.closed ==> s.stopWakes)
    && (!s.notified && PastSystem(s.main) ==> Announced(s, s.system))
    && (!s.notified && PastUser(s.main) ==> Announced(s, s.user))
    && (s.main.Blocked? && s.notified ==> s.main.called)
    && (s.main.Left? ==> s.closed)
  }

  /** A poll that finds a queue empty has nothing to be announced in it. */
  lemma PollInv(s: State, spin: bool)
    requires Inv(s) && (s.main.PopSystem? || s.main.PopUser?)
    ensures MainStep(s, spin).Next? ==> Inv(MainStep(s, spin).state)
  {
  }

  /** A notification is consumed only on the way back to the loop test. */
  lemma ParkInv(s: State, spin: bool)
    requires Inv(s) && !s.main.PopSystem? && !s.main.PopUser?
    ensures MainStep(s, spin).Next? ==> Inv(MainStep(s, spin).state)
  {
  }

  /** A Wake leaves nothing to be announced. */
  lemma WokenInv(s: State)
    requires s.main.Left? ==> s.closed
    ensures Inv(Woken(s))
  {
  }

  /** A job published behind the worker's back has its Wake still to come. */
  lemma SubmitInv(s: State, j: JobId, urgent: bool)
    requires Inv(s)
    ensures Step(s, Submit(j, urgent)).Next? ==> Inv(Step(s, Submit(j, urgent)).state)
  {
  }

  lemma StepInv(s: State, a: Action)
    requires Inv(s)
    ensures Step(s, a).Next? ==> Inv(Step(s, a).state)
  {
    match a
    case Submit(j, urgent) => SubmitInv(s, j, urgent);
    case SubmitWake(j) => WokenInv(s.(waking := s.waking - {j}));
    case Stop =>
    case StopWake => WokenInv(s.(stopWakes := false));
    case Work(spin) => if s.main.PopSystem? || s.main.PopUser? { PollInv(s, spin); } else { ParkInv(s, spin); }
  }

  lemma {:induction false} AfterInv(s: State, actions: seq<Action>)
    requires Inv(s)
    ensures After(s, actions).Next? ==> Inv(After(s, actions).state)
    decreases |actions|
  {
    if actions != [] && Step(s, actions[0]).Next? {
      StepInv(s, actions[0]);
      AfterInv(Step(s, actions[0]).state, actions[1..]);
    }
  }

  /** No lost wake-up: while the worker waits and no Broadcast has reached it, there is no
      notification, every queued job's submitter has still to call Wake, and so has BeginStop if
      the worker is closed. */
  lemma NoLostWakeup(s: State)
    requires Reachable(s) && s.main == Blocked(false)
    ensures !s.notified && Announced(s, s.system) && Announced(s, s.user)
    ensures s.closed ==> s.stopWakes
  {
    var actions :| After(Start(), actions) == Next(s);
    AfterInv(Start(), actions);
  }

  /** After BeginStop's Wake the worker leaves the wait with its next step, and then the loop: it
      cannot stay parked. */
  lemma StopEndsParking(s: State, spin: bool)
    requires Reachable(s) && s.closed && !s.stopWakes && s.main.Blocked?
    ensures MainStep(s, spin).Next? && MainStep(s, spin).state.main == LoadState
    ensures MainStep(MainStep(s, spin).state, spin) == Next(s.(notified := false, main := Left))
  {
    var actions :| After(Start(), actions) == Next(s);
    AfterInv(Start(), actions);
  }

  /** So a closed worker whose BeginStop has returned is never found waiting uncalled. */
  lemma NeverStuckWhenStopped(s: State)
    requires Reachable(s) && s.closed && !s.stopWakes
    ensures s.main != Blocked(false)
  {
    if s.main == Blocked(false) { NoLostWakeup(s); }
  }

  /** Nor is a worker with a queued job whose SubmitJob has returned. */
  lemma NeverStuckWithWork(s: State, j: JobId)
    requires Reachable(s) && (j in s.system || j in s.user) && j !in s.waking
    ensures s.main != Blocked(false)
  {
    if s.main == Blocked(false) {
      NoLostWakeup(s);
    }
  }

  // ---- Every Wake reaches the worker, and every job its execution

  /** A Wake is possible exactly while it is due; it then leaves a notification, and a worker that
      waits is called and leaves the wait with its next step. */
  lemma WakeReaches(s: State, a: Action, spin: bool)
    requires a.SubmitWake? || a.StopWake?
    ensures Step(s, a).Next? <==> if a.SubmitWake? then a.job in s.waking else s.stopWakes
    ensures Step(s, a).Next? ==>
              var n := Step(s, a).state;
              && n.notified && n.system == s.system && n.user == s.user && n.closed == s.closed && n.used == s.used
              && n.waking == (if a.SubmitWake? then s.waking - {a.job} else s.waking)
              && n.stopWakes == (s.stopWakes && !a.StopWake?)
              && (if s.main.Blocked? then MainStep(n, spin) == Next(n.(notified := false, main := LoadState))
                  else n.main == s.main)
  {
  }

  /** Admission ends with BeginStop; until then a new job is queued behind the others of its kind and
      its Wake becomes due. */
  lemma SubmitExact(s: State, j: JobId, urgent: bool)
    ensures Step(s, Submit(j, urgent)).Next? <==> !s.closed && j !in s.used
    ensures Step(s, Submit(j, urgent)).Next? ==>
              var n := Step(s, Submit(j, urgent)).state;
              && j in n.waking && n.main == s.main && n.notified == s.notified
              && n.system == (if urgent then s.system + [j] else s.system)
              && n.user == (if urgent then s.user else s.user + [j])
    ensures Step(s, Stop).Next? <==> !s.closed
    ensures Step(s, Stop).Next? ==> Step(s, Stop).state == s.(closed := true, stopWakes := true)
  {
  }

  /** The worker alone for k steps, without spinning, and the jobs it begins to execute. */
  datatype Worked = Worked(state: State, begun: seq<JobId>)

  function Works(s: State, k: nat): Worked
    decreases k
  {
    if k == 0 || MainStep(s, false).Stuck? then Worked(s, [])
    else
      var n := MainStep(s, false).state;
      var rest := Works(n, k - 1);
      Worked(rest.state, (if n.main.Exec? then [n.main.job] else []) + rest.begun)
  }

  /** One step, then the rest. */
  lemma WorksOn(s: State, n: State, k: nat)
    requires MainStep(s, false) == Next(n)
    ensures var begun := if n.main.Exec? then [n.main.job] else [];
            Works(s, k + 1) == Worked(Works(n, k).state, begun + Works(n, k).begun)
  {
  }

  /** Alone, an open worker executes the system jobs and then the user jobs, each in the order in which
      they were queued, and then turns idle. */
  lemma {:induction false} ServesInOrder(s: State) returns (k: nat)
    requires s.main == LoadState && !s.closed
    ensures Works(s, k) == Worked(s.(system := [], user := [], main := Idle), s.system + s.user)
    decreases |s.system| + |s.user|
  {
    hide Works;
    var poll := s.(main := PopSystem);
    var user := s.(main := PopUser);
    if s.system != [] {
      var exec := s.(system := s.system[1..], main := Exec(s.system[0]));
      k := ServesInOrder(exec.(main := LoadState));
      WorksOn(exec, exec.(main := LoadState), k);
      WorksOn(poll, exec, k + 1);
      WorksOn(s, poll, k + 2);
      k := k + 3;
      assert [s.system[0]] + (s.system[1..] + s.user) == s.system + s.user;
    } else if s.user != [] {
      var exec := s.(user := s.user[1..], main := Exec(s.user[0]));
      k := ServesInOrder(exec.(main := LoadState));
      WorksOn(exec, exec.(main := LoadState), k);
      WorksOn(user, exec, k + 1);
      WorksOn(poll, user, k + 2);
      WorksOn(s, poll, k + 3);
      k := k + 4;
      assert s.system + s.user == [s.user[0]] + ([] + s.user[1..]);
    } else {
      WorksNothing(s.(main := Idle));
      WorksOn(user, s.(main := Idle), 0);
      WorksOn(poll, user, 1);
      WorksOn(s, poll, 2);
      k := 3;
    }
  }

  /** Then it parks: with nothing left and no notification it ends up waiting. */
  lemma ParksWhenDone(s: State) returns (k: nat)
    requires s.main == LoadState && !s.closed && !s.notified
    ensures Works(s, k).state == s.(system := [], user := [], main := Blocked(false))
  {
    hide Works;
    k := ServesInOrder(s);
    var idle := s.(system := [], user := [], main := Idle);
    WorksNothing(idle.(main := Blocked(false)));
    WorksOn(idle.(main := Park), idle.(main := Blocked(false)), 0);
    WorksOn(idle, idle.(main := Park), 1);
    WorksConcat(s, k, 2);
    k := k + 2;
  }

  lemma {:induction false} WorksConcat(s: State, k: nat, m: nat)
    requires !MainStep(Works(s, k).state, false).Stuck?
    ensures Works(s, k + m).state == Works(Works(s, k).state, m).state
    decreases k
  {
    if k > 0 && MainStep(s, false).Next? { WorksConcat(MainStep(s, false).state, k - 1, m); }
  }

  lemma WorksNothing(s: State)
    ensures Works(s, 0) == Worked(s, [])
  {
  }

  /** No job is forgotten: in every run, a queued job whose SubmitJob has returned is executed by the
      worker alone, wherever the worker stands, unless the worker was stopped. */
  lemma EveryJobServed(s: State, j: JobId) returns (k: nat)
    requires Reachable(s) && !s.closed && (j in s.system || j in s.user) && j !in s.waking
    ensures j in Works(s, k).begun
  {
    hide Works, Reachable;
    KeptInv(s);
    k := Served(s, j);
  }

  lemma KeptInv(s: State)
    requires Reachable(s)
    ensures Inv(s)
  {
    var actions :| After(Start(), actions) == Next(s);
    AfterInv(Start(), actions);
  }

  lemma Served(s: State, j: JobId) returns (k: nat)
    requires Inv(s) && !s.closed && (j in s.system || j in s.user) && j !in s.waking
    ensures j in Works(s, k).begun
    decreases Distance(s.main)
  {
    hide Works;
    if s.main.LoadState? {
      k := ServesInOrder(s);
    } else {
      var n := MainStep(s, false).state;
      StepInv(s, Work(false));
      if n.main == Exec(j) {
        WorksOn(s, n, 0);
        k := 1;
      } else {
        k := Served(n, j);
        WorksOn(s, n, k);
        k := k + 1;
      }
    }
  }

  /** How far the worker is from the loop test. */
  function Distance(m: Pc): nat
  {
    match m
    case LoadState => 0
    case PopSystem => 5
    case PopUser => 4
    case Idle => 3
    case Park => 2
    case Exec(_) => 1
    case Blocked(_) => 1
    case Left => 0
  }
}
