/** The mailbox worker protocol (engine/pkg/actor/mailbox/worker.go, rw_controller.go and the
    SetRWEnabled part of worker_pool.go) as a labelled transition system.

    One step is one atomic operation of the source (an atomic load, store or add, a channel
    operation, a lock operation) or one region that the source runs under `admissionMu`.
    Everything a scheduler, a clock or a caller decides is in the action: which goroutine moves,
    which job the queue hands out, whether a deadline has passed, whether a job was cancelled.
    A run is any sequence of actions, so a statement about all runs covers every interleaving
    of any number of workers, jobs and goroutines. */
module RWMachine {

  datatype Option<+T> = None | Some(value: T)

  type WorkerId = nat

  /** A job is an identity plus its RW mode (`getRWMode`). */
  datatype Job = Job(id: nat, read: bool)

  /** A place for at most one job: pendingJob, or what NextJob returns. */
  datatype Slot = Empty | Full(job: Job)

  /** What never changes: capacity of `readCh`, capacity of `readSem` (0 when there is no
      semaphore) and the drain policy. */
  datatype Config = Config(channelCap: nat, tokenCap: nat, drainExecutes: bool)

  /** Who holds the lock or a semaphore token; Nobody holds a free write lock. */
  datatype Holder =
    | MainOf(worker: WorkerId)
    | PipeOf(worker: WorkerId)
    | ReaderOf(worker: WorkerId, job: Job)
    | Controller
    | Nobody

  /** RWController: the two flags, the RWMutex (a writer or a set of readers) and the tokens of
      `readSem` that are taken. */
  datatype Shared = Shared(
    enabled: bool, disabling: bool,
    writer: Holder, readers: set<Holder>, tokens: set<Holder>)
  {
    predicate Free() { writer == Nobody && readers == {} }
  }

  /** How a job ends: ExecuteJob ran; it was discarded with OnJobDiscarded; it was dropped
      without calling the service at all (discardExec with rwUnsafe). */
  datatype Outcome = Executed | Discarded | Dropped

  /** Where an accepted job is. `Lost` is a parked job that another store overwrote without
      releasing it. */
  datatype Place = Queued | AtMain | InChannel | AtPipe | AtReader | Parked | Lost | Settled(how: Outcome)

  /** execWrite and the storePending it calls. */
  datatype WritePc =
    | LoadTarget                  // about to load readsDispatched
    | AwaitLaunch(target: nat)    // about to load readsLaunched
    | AwaitClosed(target: nat)    // launched < target: about to load the worker state
    | Request                     // about to add 1 to writeRequested
    | TryLock
    | LockClosed                  // TryLock failed: about to load the worker state
    | Withdraw                    // about to add -1 to writeRequested before parking
    | Park                        // storePending: about to read pendingJob
    | ParkOld(prior: Job)         // storePending: about to discard and release the old job
    | ParkSet                     // storePending: about to store the job
    | Hold(running: bool)         // write lock held; running: inside ExecuteJob
    | Unlock                      // job released
    | Unrequest                   // about to add -1 to writeRequested
    | Returned

  /** How the drain treats residual jobs: without notifying the service, under the write lock. */
  datatype DrainMode = DrainMode(unsafe: bool, locked: bool)

  /** The deferred function of `run`: waiting for the pipeline and the reads, choosing a mode. */
  datatype ShutdownPc =
    | CloseChannel
    | AwaitPipe
    | DrainEnabled                // about to load enabled
    | AwaitInflight
    | AwaitGroup
    | Residual                    // about to look for residual jobs
    | ChooseLock(residual: bool)  // about to load enabled
    | AcquireLock

  /** The deferred function of `run`: settling what is left. */
  datatype ResiduePc =
    | TakePending                 // about to test whether pendingJob is set
    | LoadPending                 // it was: about to load it
    | SettlePending(job: Job, running: bool)
    | ClearPending
    | TakeQueued
    | SettleQueued(job: Job, running: bool)
    | ReleaseLock

  datatype DrainPc = Shutdown(at: ShutdownPc) | Residue(mode: DrainMode, pc: ResiduePc)

  /** The main loop: `run`, execWithRW, dispatchRead. */
  datatype MainPc =
    | Loop
    | Poll
    | LoadEnabled(job: Job)       // run: about to load enabled
    | LoadDisabling(job: Job)     // run: enabled was false, about to load disabling
    | CheckEnabled(job: Job)      // execWithRW: about to load enabled
    | CheckDisabling(job: Job)    // execWithRW: enabled was true, about to load disabling
    | Dispatch(job: Job)          // about to add 1 to readsDispatched
    | Send(job: Job)              // about to try the send on readCh
    | Overflow(job: Job)          // channel full: about to add 1 to readsLaunched
    | Reject(job: Job)            // about to notify, complete and release
    | Serial(job: Job, running: bool)
    | MainWrite(job: Job, pc: WritePc)
    | Drain(drain: DrainPc)
    | Done

  /** runReadPipeline and launchRead. */
  datatype PipePc =
    | Recv
    | Gate(job: Job)              // about to test the stop deadline
    | GateWriter(job: Job)        // about to load writeRequested
    | GateToken(job: Job)         // about to try the semaphore
    | AcquireRead(job: Job)
    | Recheck(job: Job)           // read lock held, about to load enabled
    | AddGroup(job: Job)
    | AddInflight(job: Job)
    | CountLaunch(job: Job)       // about to add 1 to readsLaunched
    | Spawn(job: Job)
    | DropRead(job: Job)          // downgrade: about to release the read lock
    | DropToken(job: Job)
    | CountDowngrade(job: Job)    // about to add 1 to readsLaunched
    | PipeWrite(job: Job, pc: WritePc)
    | CountLate(job: Job)         // stop deadline passed: about to add 1 to readsLaunched
    | DiscardLate(job: Job)
    | Exited

  /** The body of a read goroutine and its deferred releases. */
  datatype ReadPc = Ready | Running | GiveToken | ReleaseRead | DecInflight | DoneGroup

  /** readCh and the two counters of the ordering argument. */
  datatype Flow = Flow(dispatched: nat, launched: nat, channel: seq<Job>, shut: bool)

  /** The read goroutines. `inflight` and `group` are the jobs counted by inflightReadCnt and by
      the inflightReads WaitGroup: both are only ever compared with zero. */
  datatype Crowd = Crowd(inflight: set<Job>, group: set<Job>, tasks: map<Job, ReadPc>)

  /** The queue and pendingJob; `place` and `releases` are history. */
  datatype Ledger = Ledger(queue: set<Job>, pending: Slot, place: map<Job, Place>, releases: map<Job, nat>)
  {
    predicate At(j: Job, p: Place) { j in place && place[j] == p }

    predicate IsSettled(j: Job) { j in place && place[j].Settled? }

    function Releases(j: Job): nat { if j in releases then releases[j] else 0 }

    function Move(j: Job, p: Place): Ledger { this.(place := place[j := p]) }

    /** SubmitJob's publication. */
    function Push(j: Job): Ledger { Move(j, Queued).(queue := queue + {j}) }

    /** NextJob or DrainAll hands out a queued job. */
    function Pop(j: Job): Ledger { Move(j, AtMain).(queue := queue - {j}) }

    /** Completion hooks, then job.Release(). */
    function Settle(j: Job, how: Outcome): Ledger
    {
      this.(place := place[j := Settled(how)], releases := releases[j := Releases(j) + 1])
    }

    /** `w.pendingJob = job`; a parked job that is overwritten is lost. */
    function Store(j: Job): Ledger
    {
      var kept := if pending.Full? && At(pending.job, Parked) then Move(pending.job, Lost) else this;
      kept.Move(j, Parked).(pending := Full(j))
    }
  }

  datatype Worker = Worker(
    closed: bool, timedOut: bool, writeRequested: int, downgrades: nat,
    flow: Flow, crowd: Crowd, ledger: Ledger, main: MainPc, pipe: PipePc)

  /** Result of one step of execWrite; `next` is Returned when execWrite returns. */
  datatype WriteResult = WriteResult(writer: Holder, requested: int, ledger: Ledger, next: WritePc)

  function WriteStep(g: Shared, w: Worker, me: Holder, job: Job, pc: WritePc, cancelled: bool): WriteResult
  {
    var same := WriteResult(g.writer, w.writeRequested, w.ledger, pc);
    match pc
    case LoadTarget => same.(next := AwaitLaunch(w.flow.dispatched))
    case AwaitLaunch(t) => same.(next := if w.flow.launched < t then AwaitClosed(t) else Request)
    case AwaitClosed(t) => same.(next := if w.closed then Park else AwaitLaunch(t))
    case Request => same.(requested := w.writeRequested + 1, next := TryLock)
    case TryLock => if g.Free() then same.(writer := me, next := Hold(false)) else same.(next := LockClosed)
    case LockClosed => same.(next := if w.closed then Withdraw else TryLock)
    case Withdraw => same.(requested := w.writeRequested - 1, next := Park)
    case Park => same.(next := if w.ledger.pending.Full? then ParkOld(w.ledger.pending.job) else ParkSet)
    case ParkOld(prior) => same.(ledger := w.ledger.Settle(prior, Discarded), next := ParkSet)
    case ParkSet => same.(ledger := w.ledger.Store(job), next := Returned)
    case Hold(false) =>
      if cancelled then same.(ledger := w.ledger.Settle(job, Discarded), next := Unlock)
      else same.(next := Hold(true))
    case Hold(true) => same.(ledger := w.ledger.Settle(job, Executed), next := Unlock)
    case Unlock => same.(writer := Nobody, next := Unrequest)
    case Unrequest => same.(requested := w.writeRequested - 1, next := Returned)
    case Returned => same
  }

  /** Environment choices for one step: the job the queue hands out (Empty: NextJob returned
      nothing), and an alarm (a deadline has passed, or the job was cancelled). */
  datatype Choice = Choice(pick: Slot, alarm: bool)

  /** Result of one step of a worker's goroutine; Stuck when it is blocked. */
  datatype LocalResult = Stuck | Moved(g: Shared, w: Worker)

  function Goto(g: Shared, w: Worker, pc: MainPc): LocalResult
  {
    Moved(g, w.(main := pc))
  }

  function MainStep(cfg: Config, g: Shared, w: Worker, id: WorkerId, c: Choice): LocalResult
  {
    match w.main
    case MainWrite(j, pc) =>
      var r := WriteStep(g, w, MainOf(id), j, pc, c.alarm);
      Goto(g.(writer := r.writer), w.(writeRequested := r.requested, ledger := r.ledger),
           if r.next.Returned? then Loop else MainWrite(j, r.next))
    case Drain(d) => if d.Shutdown? then ShutdownStep(g, w, id, d.at, c) else ResidueStep(cfg, g, w, d.mode, d.pc, c)
    case Done => Stuck
    case _ => LoopStep(cfg, g, w, c)
  }

  /** The main loop itself, execWithRW and dispatchRead. */
  function LoopStep(cfg: Config, g: Shared, w: Worker, c: Choice): LocalResult
  {
    match w.main
    case Loop => Goto(g, w, if w.closed then Drain(Shutdown(CloseChannel)) else Poll)
    case Poll =>
      if c.pick.Empty? then Goto(g, w, Loop)
      else if c.pick.job in w.ledger.queue then
        Goto(g, w.(ledger := w.ledger.Pop(c.pick.job)), LoadEnabled(c.pick.job))
      else Stuck
    case LoadEnabled(j) => Goto(g, w, if g.enabled then CheckEnabled(j) else LoadDisabling(j))
    case LoadDisabling(j) => Goto(g, w, if g.disabling then CheckEnabled(j) else Serial(j, false))
    case CheckEnabled(j) =>
      Goto(g, w, if j.read && g.enabled then CheckDisabling(j) else MainWrite(j, LoadTarget))
    case CheckDisabling(j) => Goto(g, w, if g.disabling then MainWrite(j, LoadTarget) else Dispatch(j))
    case Dispatch(j) => Goto(g, w.(flow := w.flow.(dispatched := w.flow.dispatched + 1)), Send(j))
    case Send(j) =>
      if |w.flow.channel| < cfg.channelCap then
        Goto(g, w.(flow := w.flow.(channel := w.flow.channel + [j]), ledger := w.ledger.Move(j, InChannel)), Loop)
      else Goto(g, w, Overflow(j))
    case Overflow(j) => Goto(g, w.(flow := w.flow.(launched := w.flow.launched + 1)), Reject(j))
    case Reject(j) => Goto(g, w.(ledger := w.ledger.Settle(j, Discarded)), Loop)
    case Serial(j, false) =>
      if c.alarm then Goto(g, w.(ledger := w.ledger.Settle(j, Discarded)), Loop) else Goto(g, w, Serial(j, true))
    case Serial(j, true) => Goto(g, w.(ledger := w.ledger.Settle(j, Executed)), Loop)
    case _ => Stuck
  }

  /** The deferred function of `run`, up to the choice of a drain mode. */
  function ShutdownStep(g: Shared, w: Worker, id: WorkerId, d: ShutdownPc, c: Choice): LocalResult
  {
    match d
    case CloseChannel => Goto(g, w.(flow := w.flow.(shut := true)), Drain(Shutdown(AwaitPipe)))
    case AwaitPipe =>
      if w.pipe.Exited? then Goto(g, w, Drain(Shutdown(DrainEnabled)))
      else if c.alarm then Goto(g, w.(timedOut := true), Drain(Shutdown(DrainEnabled)))
      else Stuck
    case DrainEnabled => Goto(g, w, Drain(Shutdown(if g.enabled then AwaitInflight else Residual)))
    case AwaitInflight =>
      if w.crowd.inflight == {} then Goto(g, w, Drain(Shutdown(AwaitGroup)))
      else if c.alarm then Goto(g, w.(timedOut := true), Drain(Shutdown(Residual)))
      else Stuck
    case AwaitGroup => if w.crowd.group == {} then Goto(g, w, Drain(Shutdown(Residual))) else Stuck
    case Residual => Goto(g, w, Drain(Shutdown(ChooseLock(w.ledger.pending.Full? || w.ledger.queue != {}))))
    case ChooseLock(residual) =>
      if g.enabled && residual && !w.timedOut then Goto(g, w, Drain(Shutdown(AcquireLock)))
      else Goto(g, w, Drain(Residue(DrainMode(g.enabled && residual && w.timedOut, false), TakePending)))
    case AcquireLock =>
      if g.Free() then Goto(g.(writer := MainOf(id)), w, Drain(Residue(DrainMode(false, true), TakePending)))
      else Stuck
  }

  /** Whether the drain is about to enter ExecuteJob: under DrainExecute, unless the stop timed
      out or the job was cancelled. */
  predicate DrainStarts(cfg: Config, w: Worker, running: bool, cancelled: bool)
  {
    cfg.drainExecutes && !w.timedOut && !running && !cancelled
  }

  /** How the drain settles a residual job: silently when it is unsafe. */
  function DrainOutcome(cfg: Config, w: Worker, mode: DrainMode, running: bool): Outcome
  {
    if cfg.drainExecutes && !w.timedOut then if running then Executed else Discarded
    else if mode.unsafe then Dropped else Discarded
  }

  /** The drain proper: pendingJob, then the queue, then the lock. */
  function ResidueStep(cfg: Config, g: Shared, w: Worker, m: DrainMode, pc: ResiduePc, c: Choice): LocalResult
  {
    match pc
    case TakePending =>
      Goto(g, w, Drain(Residue(m, if w.ledger.pending.Full? then LoadPending else TakeQueued)))
    case LoadPending =>
      if w.ledger.pending.Empty? then Stuck
      else Goto(g, w, Drain(Residue(m, SettlePending(w.ledger.pending.job, false))))
    case SettlePending(j, running) =>
      if DrainStarts(cfg, w, running, c.alarm) then Goto(g, w, Drain(Residue(m, SettlePending(j, true))))
      else Goto(g, w.(ledger := w.ledger.Settle(j, DrainOutcome(cfg, w, m, running))), Drain(Residue(m, ClearPending)))
    case ClearPending => Goto(g, w.(ledger := w.ledger.(pending := Empty)), Drain(Residue(m, TakeQueued)))
    case TakeQueued =>
      if w.ledger.queue == {} then Goto(g, w, if m.locked then Drain(Residue(m, ReleaseLock)) else Done)
      else if c.pick.Full? && c.pick.job in w.ledger.queue then
        Goto(g, w.(ledger := w.ledger.Pop(c.pick.job)), Drain(Residue(m, SettleQueued(c.pick.job, false))))
      else Stuck
    case SettleQueued(j, running) =>
      if DrainStarts(cfg, w, running, c.alarm) then Goto(g, w, Drain(Residue(m, SettleQueued(j, true))))
      else Goto(g, w.(ledger := w.ledger.Settle(j, DrainOutcome(cfg, w, m, running))), Drain(Residue(m, TakeQueued)))
    case ReleaseLock => Goto(g.(writer := Nobody), w, Done)
  }

  function Next(g: Shared, w: Worker, pc: PipePc): LocalResult
  {
    Moved(g, w.(pipe := pc))
  }

  function PipeStep(cfg: Config, g: Shared, w: Worker, id: WorkerId, c: Choice): LocalResult
  {
    match w.pipe
    case PipeWrite(j, pc) =>
      var r := WriteStep(g, w, PipeOf(id), j, pc, c.alarm);
      Next(g.(writer := r.writer), w.(writeRequested := r.requested, ledger := r.ledger),
           if r.next.Returned? then Recv else PipeWrite(j, r.next))
    case Exited => Stuck
    case _ => if Gating(w.pipe) then GateStep(cfg, g, w, id, c) else RegisterStep(g, w, id)
  }

  predicate Gating(p: PipePc)
  {
    p.Recv? || p.Gate? || p.GateWriter? || p.GateToken? || p.AcquireRead? || p.CountLate? || p.DiscardLate?
  }

  /** Whether the semaphore, if there is one, has a token. */
  predicate TokenLeft(cfg: Config, g: Shared) { cfg.tokenCap == 0 || |g.tokens| < cfg.tokenCap }

  /** runReadPipeline's receive, and launchRead up to the read lock. */
  function GateStep(cfg: Config, g: Shared, w: Worker, id: WorkerId, c: Choice): LocalResult
  {
    match w.pipe
    case Recv =>
      if w.flow.channel != [] then
        Next(g, w.(flow := w.flow.(channel := w.flow.channel[1..]), ledger := w.ledger.Move(w.flow.channel[0], AtPipe)),
             Gate(w.flow.channel[0]))
      else if w.flow.shut then Next(g, w, Exited)
      else Stuck
    case Gate(j) => Next(g, w, if w.closed && c.alarm then CountLate(j) else GateWriter(j))
    case GateWriter(j) => Next(g, w, if w.writeRequested > 0 then Gate(j) else GateToken(j))
    case GateToken(j) =>
      if TokenLeft(cfg, g) then
        Next(g.(tokens := g.tokens + {PipeOf(id)}), w, AcquireRead(j))
      else Next(g, w, Gate(j))
    case AcquireRead(j) =>
      if g.writer == Nobody then Next(g.(readers := g.readers + {PipeOf(id)}), w, Recheck(j)) else Stuck
    case CountLate(j) => Next(g, w.(flow := w.flow.(launched := w.flow.launched + 1)), DiscardLate(j))
    case DiscardLate(j) => Next(g, w.(ledger := w.ledger.Settle(j, Dropped)), Recv)
    case _ => Stuck
  }

  /** launchRead after the read lock: register and spawn, or downgrade to a write. */
  function RegisterStep(g: Shared, w: Worker, id: WorkerId): LocalResult
  {
    match w.pipe
    case Recheck(j) => Next(g, w, if g.enabled then AddGroup(j) else DropRead(j))
    case AddGroup(j) => Next(g, w.(crowd := w.crowd.(group := w.crowd.group + {j})), AddInflight(j))
    case AddInflight(j) => Next(g, w.(crowd := w.crowd.(inflight := w.crowd.inflight + {j})), CountLaunch(j))
    case CountLaunch(j) => Next(g, w.(flow := w.flow.(launched := w.flow.launched + 1)), Spawn(j))
    case Spawn(j) =>
      Next(g.(readers := g.readers - {PipeOf(id)} + {ReaderOf(id, j)},
              tokens := g.tokens - {PipeOf(id)} + {ReaderOf(id, j)}),
           w.(crowd := w.crowd.(tasks := w.crowd.tasks[j := Ready]), ledger := w.ledger.Move(j, AtReader)), Recv)
    case DropRead(j) => Next(g.(readers := g.readers - {PipeOf(id)}), w, DropToken(j))
    case DropToken(j) => Next(g.(tokens := g.tokens - {PipeOf(id)}), w, CountDowngrade(j))
    case CountDowngrade(j) =>
      Next(g, w.(flow := w.flow.(launched := w.flow.launched + 1), downgrades := w.downgrades + 1),
           PipeWrite(j, LoadTarget))
    case _ => Stuck
  }

  /** A read goroutine: safeExec, then its deferred releases. */
  function ReadStep(g: Shared, w: Worker, id: WorkerId, j: Job, cancelled: bool): LocalResult
  {
    if j !in w.crowd.tasks then Stuck else
    var t := w.crowd.tasks;
    match t[j]
    case Ready =>
      if cancelled then
        Moved(g, w.(crowd := w.crowd.(tasks := t[j := GiveToken]), ledger := w.ledger.Settle(j, Discarded)))
      else Moved(g, w.(crowd := w.crowd.(tasks := t[j := Running])))
    case Running =>
      Moved(g, w.(crowd := w.crowd.(tasks := t[j := GiveToken]), ledger := w.ledger.Settle(j, Executed)))
    case GiveToken =>
      Moved(g.(tokens := g.tokens - {ReaderOf(id, j)}), w.(crowd := w.crowd.(tasks := t[j := ReleaseRead])))
    case ReleaseRead =>
      Moved(g.(readers := g.readers - {ReaderOf(id, j)}), w.(crowd := w.crowd.(tasks := t[j := DecInflight])))
    case DecInflight =>
      Moved(g, w.(crowd := w.crowd.(inflight := w.crowd.inflight - {j}, tasks := t[j := DoneGroup])))
    case DoneGroup => Moved(g, w.(crowd := w.crowd.(group := w.crowd.group - {j}, tasks := t - {j})))
  }

  /** SetRWEnabled(false), which runs under the pool mutex. */
  datatype ControlPc =
    | Idle
    | BeginDisable
    | Scan(todo: set<WorkerId>)                               // about to load some readsLaunched
    | Compare(worker: WorkerId, seen: nat, todo: set<WorkerId>) // about to load readsDispatched
    | ScanAgain                                               // a pass failed: deadline test
    | DisableLock                                             // RWController.Disable: TryLock loop
    | Flip
    | FlipUnlock
    | Count(todo: set<WorkerId>)                              // about to load some inflightReadCnt
    | CountAgain
    | GroupWait(todo: set<WorkerId>)
    | Finish                                                  // EndDisable, success
    | Abort                                                   // EndDisable, failure
    | Rollback                                                // Enable
    | RollbackEnd                                             // EndDisable after Enable

  /** The whole system. `snap` is the published worker set, `result` what the last
      SetRWEnabled(false) that got past its first test returned, `used` every job ever accepted.
      History: `flipped` and `flips` (Disable stored false, and how often), `rolledBack` (Enable was
      called), `torn` (the workers whose main loop passed the test of execWithRW on an `enabled`
      load that was already stale). */
  datatype State = State(
    g: Shared, workers: map<WorkerId, Worker>, snap: set<WorkerId>, control: ControlPc, result: Option<bool>,
    used: set<Job>, flipped: bool, flips: nat, rolledBack: bool, torn: set<WorkerId>)

  datatype Action =
    | Submit(worker: WorkerId, job: Job)       // SubmitJob, the region under admissionMu that publishes
    | BeginStop(worker: WorkerId)              // BeginStop, the region under admissionMu
    | ActMain(worker: WorkerId, choice: Choice)
    | ActPipe(worker: WorkerId, choice: Choice)
    | ActRead(worker: WorkerId, job: Job, cancelled: bool)
    | ActControl(target: WorkerId, alarm: bool)
    | Grow(worker: WorkerId)                   // newWorker + Start + publish
    | Remove(gone: set<WorkerId>)              // Wait returned for each, publish without them

  /** newWorker. Without EnableRWMode there is no channel and no pipeline goroutine. */
  function NewWorker(rwConfigured: bool): Worker
  {
    Worker(false, false, 0, 0, Flow(0, 0, [], false), Crowd({}, {}, map[]), Ledger({}, Empty, map[], map[]),
           Loop, if rwConfigured then Recv else Exited)
  }

  /** One step of one of the worker's goroutines, or of a caller of SubmitJob or BeginStop. */
  function WorkerStep(cfg: Config, g: Shared, w: Worker, id: WorkerId, a: Action): LocalResult
  {
    match a
    case ActMain(_, c) => MainStep(cfg, g, w, id, c)
    case ActPipe(_, c) => PipeStep(cfg, g, w, id, c)
    case ActRead(_, j, cancelled) => ReadStep(g, w, id, j, cancelled)
    case Submit(_, j) => if w.closed then Stuck else Moved(g, w.(ledger := w.ledger.Push(j)))
    case BeginStop(_) => Moved(g, w.(closed := true))
    case _ => Stuck
  }

  predicate TearsCheck(s: State, a: Action)
  {
    a.ActMain? && a.worker in s.workers && s.workers[a.worker].main.CheckDisabling? && !s.g.enabled && !s.g.disabling
  }

  function TornBy(s: State, a: Action): set<WorkerId> { if TearsCheck(s, a) then {a.worker} else {} }

  function ControlStep(s: State, target: WorkerId, alarm: bool): Option<State>
  {
    match s.control
    case Idle => if s.g.enabled then Some(s.(control := BeginDisable)) else None
    case BeginDisable => Some(s.(g := s.g.(disabling := true), control := Scan(s.snap)))
    case Scan(todo) =>
      if todo == {} then Some(s.(control := DisableLock))
      else if target in todo && target in s.workers then
        Some(s.(control := Compare(target, s.workers[target].flow.launched, todo)))
      else None
    case Compare(w, seen, todo) =>
      if w !in s.workers then None
      else if seen < s.workers[w].flow.dispatched then Some(s.(control := ScanAgain))
      else Some(s.(control := Scan(todo - {w})))
    case ScanAgain => Some(s.(control := if alarm then Abort else Scan(s.snap)))
    case DisableLock =>
      if s.g.Free() then Some(s.(g := s.g.(writer := Controller), control := Flip))
      else Some(s.(control := if alarm then Abort else DisableLock))
    case Flip => Some(s.(g := s.g.(enabled := false), control := FlipUnlock, flipped := true, flips := s.flips + 1))
    case FlipUnlock => Some(s.(g := s.g.(writer := Nobody), control := Count(s.snap)))
    case Count(todo) =>
      if todo == {} then Some(s.(control := GroupWait(s.snap)))
      else if target in todo && target in s.workers then
        Some(s.(control := if s.workers[target].crowd.inflight == {} then Count(todo - {target}) else CountAgain))
      else None
    case CountAgain => Some(s.(control := if alarm then Rollback else Count(s.snap)))
    case GroupWait(todo) =>
      if todo == {} then Some(s.(control := Finish))
      else if target in todo && target in s.workers && s.workers[target].crowd.group == {} then
        Some(s.(control := GroupWait(todo - {target})))
      else None
    case Finish => Some(s.(g := s.g.(disabling := false), control := Idle, result := Some(true)))
    case Abort => Some(s.(g := s.g.(disabling := false), control := Idle, result := Some(false)))
    case Rollback => Some(s.(g := s.g.(enabled := true), control := RollbackEnd, rolledBack := true))
    case RollbackEnd => Some(s.(g := s.g.(disabling := false), control := Idle, result := Some(false)))
  }

  /** The jobs an action hands to a worker. */
  function Submitted(a: Action): set<Job>
  {
    match a
    case Submit(_, j) => {j}
    case _ => {}
  }

  function GoroutineStep(cfg: Config, s: State, id: WorkerId, a: Action): Option<State>
  {
    if id !in s.workers || Submitted(a) * s.used != {} then None
    else
      var r := WorkerStep(cfg, s.g, s.workers[id], id, a);
      if r.Stuck? then None
      else Some(s.(g := r.g, workers := s.workers[id := r.w],
                   used := s.used + Submitted(a), torn := s.torn + TornBy(s, a)))
  }

  function Step(cfg: Config, rwConfigured: bool, s: State, a: Action): Option<State>
  {
    if a.ActControl? then ControlStep(s, a.target, a.alarm)
    else if a.Grow? then
      if s.control.Idle? && a.worker !in s.workers then
        Some(s.(workers := s.workers[a.worker := NewWorker(rwConfigured)], snap := s.snap + {a.worker}))
      else None
    else if a.Remove? then
      if s.control.Idle? && (forall id :: id in a.gone ==> id in s.workers && s.workers[id].main.Done?) then
        Some(s.(snap := s.snap - a.gone))
      else None
    else GoroutineStep(cfg, s, a.worker, a)
  }

  /** Before Start: no worker yet; RW mode as configured. */
  function Initial(rwConfigured: bool): State
  {
    State(Shared(rwConfigured, false, Nobody, {}, {}), map[], {}, Idle, None, {}, false, 0, false, {})
  }

  /** The state after a run from `s`; None when some action was not possible. */
  function After(cfg: Config, rwConfigured: bool, s: State, actions: seq<Action>): Option<State>
    decreases |actions|
  {
    if actions == [] then Some(s)
    else
      var next := Step(cfg, rwConfigured, s, actions[0]);
      if next.None? then None else After(cfg, rwConfigured, next.value, actions[1..])
  }

  /** A run in two parts. */
  lemma {:induction false} AfterConcat(cfg: Config, rwConfigured: bool, s: State, a: seq<Action>, b: seq<Action>)
    requires After(cfg, rwConfigured, s, a).Some?
    ensures After(cfg, rwConfigured, s, a + b) == After(cfg, rwConfigured, After(cfg, rwConfigured, s, a).value, b)
    decreases |a|
  {
    hide Step;
    if a == [] {
      assert [] + b == b;
    } else {
      assert (a + b)[0] == a[0] && (a + b)[1..] == a[1..] + b;
      AfterConcat(cfg, rwConfigured, Step(cfg, rwConfigured, s, a[0]).value, a[1..], b);
    }
  }

  /** A run with one more action. */
  lemma {:induction false} AfterExtended(cfg: Config, rwConfigured: bool, s: State, actions: seq<Action>, a: Action)
    ensures var mid := After(cfg, rwConfigured, s, actions);
            After(cfg, rwConfigured, s, actions + [a]) ==
              if mid.None? then None else Step(cfg, rwConfigured, mid.value, a)
    decreases |actions|
  {
    hide Step;
    if actions == [] {
      assert ([] + [a])[1..] == [];
      assert After(cfg, rwConfigured, s, [a]) == Step(cfg, rwConfigured, s, a);
    } else {
      assert (actions + [a])[0] == actions[0] && (actions + [a])[1..] == actions[1..] + [a];
      var next := Step(cfg, rwConfigured, s, actions[0]);
      if next.Some? { AfterExtended(cfg, rwConfigured, next.value, actions[1..], a); }
    }
  }

  ghost predicate Reachable(cfg: Config, rwConfigured: bool, s: State)
  {
    exists actions :: After(cfg, rwConfigured, Initial(rwConfigured), actions) == Some(s)
  }
}
