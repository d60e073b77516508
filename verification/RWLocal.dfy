/** What one worker keeps, whatever the other workers and the controller do. Every predicate
    here holds in every reachable state of every run (no assumption on timeouts or on mode
    switches); the lemmas show that each step of the worker's own goroutines keeps it. */
module RWLocal {
  import opened RWMachine

  /** The job the main loop is responsible for. */
  function MainJob(m: MainPc): Slot
  {
    match m
    case LoadEnabled(j) => Full(j)
    case LoadDisabling(j) => Full(j)
    case CheckEnabled(j) => Full(j)
    case CheckDisabling(j) => Full(j)
    case Dispatch(j) => Full(j)
    case Send(j) => Full(j)
    case Overflow(j) => Full(j)
    case Reject(j) => Full(j)
    case Serial(j, _) => Full(j)
    case MainWrite(j, pc) => if pc.Unlock? || pc.Unrequest? || pc.Returned? then Empty else Full(j)
    case Drain(Residue(_, SettleQueued(j, _))) => Full(j)
    case _ => Empty
  }

  /** The job the read pipeline is responsible for. */
  function PipeJob(p: PipePc): Slot
  {
    match p
    case Recv => Empty
    case Exited => Empty
    case PipeWrite(j, pc) => if pc.Unlock? || pc.Unrequest? || pc.Returned? then Empty else Full(j)
    case _ => Full(p.job)
  }

  // ---- The dispatched/launched counters

  /** Reads dispatched by the main loop that it has neither sent nor counted as launched. */
  function MainUncounted(m: MainPc): nat { if m.Send? || m.Overflow? then 1 else 0 }

  /** Reads taken from the channel and not yet counted as launched. */
  function PipeUncounted(p: PipePc): nat
  {
    if p.Recv? || p.Spawn? || p.PipeWrite? || p.DiscardLate? || p.Exited? then 0 else 1
  }

  predicate BeforeRequest(pc: WritePc)
  {
    pc.LoadTarget? || pc.AwaitLaunch? || pc.AwaitClosed? || pc.Park? || pc.ParkOld? || pc.ParkSet?
  }

  /** readsDispatched - readsLaunched is the number of reads in the channel plus those held
      uncounted. A writer on the main loop waits for exactly the reads dispatched so far, and
      past the wait none is missing. */
  ghost predicate Counters(w: Worker)
  {
    && w.flow.dispatched == w.flow.launched + |w.flow.channel| + MainUncounted(w.main) + PipeUncounted(w.pipe)
    && (w.main.MainWrite? ==>
          && (w.main.pc.AwaitLaunch? || w.main.pc.AwaitClosed? ==> w.main.pc.target == w.flow.dispatched)
          && (!BeforeRequest(w.main.pc) ==> w.flow.launched == w.flow.dispatched))
  }

  // ---- The shared lock and the semaphore

  predicate PipeReading(p: PipePc)
  {
    p.Recheck? || p.AddGroup? || p.AddInflight? || p.CountLaunch? || p.Spawn? || p.DropRead?
  }

  predicate PipeHasToken(p: PipePc) { p.AcquireRead? || PipeReading(p) || p.DropToken? }

  predicate Reading(p: ReadPc) { !p.DecInflight? && !p.DoneGroup? }

  predicate HasToken(p: ReadPc) { Reading(p) && !p.ReleaseRead? }

  predicate HoldsWrite(pc: WritePc) { pc.Hold? || pc.Unlock? }

  predicate MainHolds(m: MainPc)
  {
    (m.MainWrite? && HoldsWrite(m.pc)) || (m.Drain? && m.drain.Residue? && m.drain.mode.locked)
  }

  predicate PipeHolds(p: PipePc) { p.PipeWrite? && HoldsWrite(p.pc) }

  /** The write lock knows whether one of the worker's goroutines holds it. */
  ghost predicate WriterLocks(id: WorkerId, writer: Holder, m: MainPc, p: PipePc)
  {
    && (writer == MainOf(id) <==> MainHolds(m))
    && (writer == PipeOf(id) <==> PipeHolds(p))
    && (m.Drain? && m.drain.Residue? && m.drain.pc.ReleaseLock? ==> m.drain.mode.locked)
  }

  /** So do the read lock and the semaphore for the pipeline; one that passed the recheck works
      with RW mode enabled. */
  ghost predicate PipeLocks(id: WorkerId, readers: set<Holder>, tokens: set<Holder>, enabled: bool, p: PipePc)
  {
    && (PipeOf(id) in readers <==> PipeReading(p))
    && (PipeOf(id) in tokens <==> PipeHasToken(p))
    && (PipeReading(p) && !p.Recheck? && !p.DropRead? ==> enabled)
  }

  /** And for every read goroutine; one that still holds the read lock works with RW mode
      enabled. */
  ghost predicate TaskLocks(id: WorkerId, readers: set<Holder>, tokens: set<Holder>, enabled: bool,
                            tasks: map<Job, ReadPc>)
  {
    && (forall j :: ReaderOf(id, j) in readers <==> j in tasks && Reading(tasks[j]))
    && (forall j :: ReaderOf(id, j) in tokens <==> j in tasks && HasToken(tasks[j]))
    && (forall j :: j in tasks && Reading(tasks[j]) ==> enabled)
  }

  ghost predicate Locks(g: Shared, id: WorkerId, w: Worker)
  {
    && (g.writer != Nobody ==> g.readers == {})
    && WriterLocks(id, g.writer, w.main, w.pipe)
    && PipeLocks(id, g.readers, g.tokens, g.enabled, w.pipe)
    && TaskLocks(id, g.readers, g.tokens, g.enabled, w.crowd.tasks)
  }

  predicate ReadsFor(h: Holder, id: WorkerId) { (h.PipeOf? || h.ReaderOf?) && h.worker == id }

  predicate WritesFor(h: Holder, id: WorkerId) { (h.MainOf? || h.PipeOf?) && h.worker == id }

  /** A step of worker `id` leaves what the others hold alone. */
  ghost predicate OthersUntouched(g: Shared, g': Shared, id: WorkerId)
  {
    && g'.enabled == g.enabled && g'.disabling == g.disabling
    && (forall h :: !ReadsFor(h, id) ==> (h in g'.readers <==> h in g.readers))
    && (forall h :: !ReadsFor(h, id) ==> (h in g'.tokens <==> h in g.tokens))
    && (forall h :: !WritesFor(h, id) && h != Nobody ==> (g'.writer == h <==> g.writer == h))
  }

  // ---- The life cycle

  function WriteRequests(pc: WritePc): nat { if BeforeRequest(pc) || pc.Request? || pc.Returned? then 0 else 1 }

  predicate Stopping(m: MainPc) { m.Drain? || m.Done? }

  predicate ClosedChannel(m: MainPc) { Stopping(m) && m != Drain(Shutdown(CloseChannel)) }

  predicate PastPipe(m: MainPc) { ClosedChannel(m) && m != Drain(Shutdown(AwaitPipe)) }

  predicate Dispatching(m: MainPc) { m.CheckDisabling? || m.Dispatch? || m.Send? || m.Overflow? || m.Reject? }

  predicate DrainRuns(m: MainPc)
  {
    m.Drain? && m.drain.Residue? &&
    ((m.drain.pc.SettlePending? && m.drain.pc.running) || (m.drain.pc.SettleQueued? && m.drain.pc.running))
  }

  predicate QueueDrained(m: MainPc) { m.Done? || (m.Drain? && m.drain.Residue? && m.drain.pc.ReleaseLock?) }

  /** The drain has seen pendingJob set and is about to load it. */
  predicate LoadsPending(m: MainPc) { m.Drain? && m.drain.Residue? && m.drain.pc.LoadPending? }

  /** The drain waits for the write lock or has it. */
  predicate DrainLocks(m: MainPc)
  {
    m.Drain? && (if m.drain.Shutdown? then m.drain.at.AcquireLock? else m.drain.mode.locked)
  }

  /** The drain settles without telling the service. */
  predicate DrainUnsafe(m: MainPc) { m.Drain? && m.drain.Residue? && m.drain.mode.unsafe }

  ghost predicate Life(cfg: Config, rw: bool, w: Worker)
  {
    && (Stopping(w.main) ==> w.closed)
    && (w.flow.shut <==> ClosedChannel(w.main))
    && (PastPipe(w.main) ==> w.timedOut || w.pipe.Exited?)
    && (w.timedOut ==> PastPipe(w.main))
    && (w.pipe.Exited? ==> w.flow.channel == [] && (w.flow.shut || !rw))
    && (!rw ==> w.pipe.Exited? && !Dispatching(w.main))
    && (QueueDrained(w.main) ==> w.ledger.queue == {})
    && (LoadsPending(w.main) ==> w.ledger.pending.Full?)
    && (DrainLocks(w.main) ==> !w.timedOut)
    && (DrainUnsafe(w.main) ==> w.timedOut)
    && (DrainRuns(w.main) ==> cfg.drainExecutes && !w.timedOut)
    && w.writeRequested == (if w.main.MainWrite? then WriteRequests(w.main.pc) else 0)
                           + (if w.pipe.PipeWrite? then WriteRequests(w.pipe.pc) else 0)
  }

  // ---- Where each accepted job is

  /** Everything that says something about where jobs are. */
  datatype View = View(ledger: Ledger, channel: seq<Job>, tasks: map<Job, ReadPc>, mainJob: Slot, pipeJob: Slot)

  /** The parked job that storePending, or the drain, has read and is about to settle. */
  function WriteOld(pc: WritePc): Slot { if pc.ParkOld? then Full(pc.prior) else Empty }

  function MainOld(m: MainPc): Slot
  {
    match m
    case MainWrite(_, pc) => WriteOld(pc)
    case Drain(Residue(_, SettlePending(j, _))) => Full(j)
    case _ => Empty
  }

  function PipeOld(p: PipePc): Slot { if p.PipeWrite? then WriteOld(p.pc) else Empty }

  function Seen(w: Worker): View
  {
    View(w.ledger, w.flow.channel, w.crowd.tasks, MainJob(w.main), PipeJob(w.pipe))
  }

  /** A job that nobody is responsible for any more. */
  ghost predicate Loose(l: Ledger, j: Job) { l.At(j, Parked) || l.At(j, Lost) || l.IsSettled(j) }

  predicate Unread(p: ReadPc) { p.Ready? || p.Running? }

  ghost predicate Attended(l: Ledger, tasks: map<Job, ReadPc>)
  {
    && (forall j :: l.At(j, AtReader) <==> j in tasks && Unread(tasks[j]))
    && (forall j :: j in tasks && !Unread(tasks[j]) ==> l.IsSettled(j))
  }

  /** The ledger and the program counters agree: every accepted job is in exactly one place, and
      whoever is said to have it has it. */
  ghost predicate Agrees(v: View)
  {
    && (forall j :: v.ledger.At(j, Queued) <==> j in v.ledger.queue)
    && (forall j :: v.ledger.At(j, AtMain) <==> v.mainJob == Full(j))
    && (forall j :: v.ledger.At(j, InChannel) <==> j in v.channel)
    && (forall a, b :: 0 <= a < b < |v.channel| ==> v.channel[a] != v.channel[b])
    && (forall j :: v.ledger.At(j, AtPipe) <==> v.pipeJob == Full(j))
    && Attended(v.ledger, v.tasks)
    && (v.ledger.pending.Full? ==> Loose(v.ledger, v.ledger.pending.job))
  }

  ghost predicate Places(w: Worker)
  {
    && Agrees(Seen(w))
    && (MainOld(w.main).Full? ==> Loose(w.ledger, MainOld(w.main).job))
    && (PipeOld(w.pipe).Full? ==> Loose(w.ledger, PipeOld(w.pipe).job))
  }

  lemma AgreesPush(v: View, j: Job)
    requires Agrees(v) && j !in v.ledger.place
    ensures Agrees(v.(ledger := v.ledger.Push(j)))
  {
    assert !v.ledger.At(j, Queued) && !v.ledger.At(j, AtMain) && !v.ledger.At(j, InChannel) && !v.ledger.At(j, AtPipe);
    assert !v.ledger.At(j, AtReader) && !v.ledger.IsSettled(j) && !Loose(v.ledger, j);
  }

  lemma AgreesPop(v: View, j: Job)
    requires Agrees(v) && v.mainJob == Empty && j in v.ledger.queue
    ensures Agrees(v.(ledger := v.ledger.Pop(j), mainJob := Full(j)))
  {
    assert v.ledger.At(j, Queued);
  }

  lemma AgreesMainSettles(v: View, how: Outcome)
    requires Agrees(v) && v.mainJob.Full?
    ensures Agrees(v.(ledger := v.ledger.Settle(v.mainJob.job, how), mainJob := Empty))
  {
    assert v.ledger.At(v.mainJob.job, AtMain);
  }

  lemma AgreesPipeSettles(v: View, how: Outcome)
    requires Agrees(v) && v.pipeJob.Full?
    ensures Agrees(v.(ledger := v.ledger.Settle(v.pipeJob.job, how), pipeJob := Empty))
  {
    assert v.ledger.At(v.pipeJob.job, AtPipe);
  }

  /** storePending and the drain settle a job that was parked. */
  lemma AgreesLooseSettles(v: View, j: Job, how: Outcome)
    requires Agrees(v) && Loose(v.ledger, j)
    ensures Agrees(v.(ledger := v.ledger.Settle(j, how)))
  {
  }

  lemma AgreesMainStores(v: View)
    requires Agrees(v) && v.mainJob.Full?
    ensures Agrees(v.(ledger := v.ledger.Store(v.mainJob.job), mainJob := Empty))
  {
    assert v.ledger.At(v.mainJob.job, AtMain);
  }

  lemma AgreesPipeStores(v: View)
    requires Agrees(v) && v.pipeJob.Full?
    ensures Agrees(v.(ledger := v.ledger.Store(v.pipeJob.job), pipeJob := Empty))
  {
    assert v.ledger.At(v.pipeJob.job, AtPipe);
  }

  lemma AgreesSend(v: View)
    requires Agrees(v) && v.mainJob.Full?
    ensures Agrees(v.(ledger := v.ledger.Move(v.mainJob.job, InChannel), channel := v.channel + [v.mainJob.job],
                      mainJob := Empty))
  {
    assert v.ledger.At(v.mainJob.job, AtMain) && !v.ledger.At(v.mainJob.job, InChannel);
    assert v.mainJob.job !in v.channel;
    assert forall j :: j in v.channel + [v.mainJob.job] <==> j in v.channel || j == v.mainJob.job;
  }

  lemma AgreesRecv(v: View)
    requires Agrees(v) && v.pipeJob == Empty && v.channel != []
    ensures Agrees(v.(ledger := v.ledger.Move(v.channel[0], AtPipe), channel := v.channel[1..],
                      pipeJob := Full(v.channel[0])))
  {
    assert v.channel[0] in v.channel && v.ledger.At(v.channel[0], InChannel);
    assert forall j :: j in v.channel[1..] <==> j in v.channel && j != v.channel[0];
  }

  lemma AgreesSpawn(v: View)
    requires Agrees(v) && v.pipeJob.Full?
    ensures v.pipeJob.job !in v.tasks
    ensures Agrees(v.(ledger := v.ledger.Move(v.pipeJob.job, AtReader), tasks := v.tasks[v.pipeJob.job := Ready],
                      pipeJob := Empty))
  {
    assert v.ledger.At(v.pipeJob.job, AtPipe);
    assert !v.ledger.At(v.pipeJob.job, AtReader) && !v.ledger.IsSettled(v.pipeJob.job);
  }

  lemma AgreesTaskSettles(v: View, j: Job, how: Outcome)
    requires Agrees(v) && j in v.tasks && Unread(v.tasks[j])
    ensures Agrees(v.(ledger := v.ledger.Settle(j, how), tasks := v.tasks[j := GiveToken]))
  {
    hide Attended;
    AttendedSettles(v.ledger, v.tasks, j, how);
  }

  lemma AttendedSettles(l: Ledger, tasks: map<Job, ReadPc>, j: Job, how: Outcome)
    requires Attended(l, tasks) && j in tasks && Unread(tasks[j])
    ensures l.At(j, AtReader) && Attended(l.Settle(j, how), tasks[j := GiveToken])
  {
    assert l.At(j, AtReader);
  }

  lemma AgreesTaskMoves(v: View, j: Job, pc: ReadPc)
    requires Agrees(v) && j in v.tasks && (Unread(v.tasks[j]) <==> Unread(pc))
    ensures Agrees(v.(tasks := v.tasks[j := pc]))
    ensures !Unread(pc) ==> Agrees(v.(tasks := v.tasks - {j}))
  {
  }

  /** What a step does to the view. */
  datatype Shift =
    | Stay
    | Pushed(job: Job)
    | Popped(job: Job)
    | MainSettled(how: Outcome)
    | PipeSettled(how: Outcome)
    | LooseSettled(job: Job, how: Outcome)
    | MainStored
    | PipeStored
    | Cleared
    | Sent
    | Received
    | Spawned
    | TaskSettled(job: Job, how: Outcome)
    | TaskMoved(job: Job, pc: ReadPc)
    | TaskGone(job: Job)

  predicate Allowed(v: View, x: Shift)
  {
    match x
    case Stay => true
    case Pushed(j) => j !in v.ledger.place
    case Popped(j) => v.mainJob == Empty && j in v.ledger.queue
    case MainSettled(_) => v.mainJob.Full?
    case PipeSettled(_) => v.pipeJob.Full?
    case LooseSettled(j, _) => true
    case MainStored => v.mainJob.Full?
    case PipeStored => v.pipeJob.Full?
    case Cleared => true
    case Sent => v.mainJob.Full?
    case Received => v.pipeJob == Empty && v.channel != []
    case Spawned => v.pipeJob.Full?
    case TaskSettled(j, _) => j in v.tasks && Unread(v.tasks[j])
    case TaskMoved(j, pc) => j in v.tasks && (Unread(v.tasks[j]) <==> Unread(pc))
    case TaskGone(j) => j in v.tasks && !Unread(v.tasks[j])
  }

  function Shifted(v: View, x: Shift): View
    requires Allowed(v, x)
  {
    match x
    case Stay => v
    case Pushed(j) => v.(ledger := v.ledger.Push(j))
    case Popped(j) => v.(ledger := v.ledger.Pop(j), mainJob := Full(j))
    case MainSettled(how) => v.(ledger := v.ledger.Settle(v.mainJob.job, how), mainJob := Empty)
    case PipeSettled(how) => v.(ledger := v.ledger.Settle(v.pipeJob.job, how), pipeJob := Empty)
    case LooseSettled(j, how) => v.(ledger := v.ledger.Settle(j, how))
    case MainStored => v.(ledger := v.ledger.Store(v.mainJob.job), mainJob := Empty)
    case PipeStored => v.(ledger := v.ledger.Store(v.pipeJob.job), pipeJob := Empty)
    case Cleared => v.(ledger := v.ledger.(pending := Empty))
    case Sent => v.(ledger := v.ledger.Move(v.mainJob.job, InChannel), channel := v.channel + [v.mainJob.job],
                    mainJob := Empty)
    case Received => v.(ledger := v.ledger.Move(v.channel[0], AtPipe), channel := v.channel[1..],
                        pipeJob := Full(v.channel[0]))
    case Spawned => v.(ledger := v.ledger.Move(v.pipeJob.job, AtReader), tasks := v.tasks[v.pipeJob.job := Ready],
                       pipeJob := Empty)
    case TaskSettled(j, how) => v.(ledger := v.ledger.Settle(j, how), tasks := v.tasks[j := GiveToken])
    case TaskMoved(j, pc) => v.(tasks := v.tasks[j := pc])
    case TaskGone(j) => v.(tasks := v.tasks - {j})
  }

  lemma AgreesKept(v: View, x: Shift)
    requires Agrees(v) && Allowed(v, x) && (x.LooseSettled? ==> Loose(v.ledger, x.job))
    ensures Agrees(Shifted(v, x))
  {
    match x
    case Stay =>
    case Pushed(j) => AgreesPush(v, j);
    case Popped(j) => AgreesPop(v, j);
    case MainSettled(how) => AgreesMainSettles(v, how);
    case PipeSettled(how) => AgreesPipeSettles(v, how);
    case LooseSettled(j, how) => AgreesLooseSettles(v, j, how);
    case MainStored => AgreesMainStores(v);
    case PipeStored => AgreesPipeStores(v);
    case Cleared =>
    case Sent => AgreesSend(v);
    case Received => AgreesRecv(v);
    case Spawned => AgreesSpawn(v);
    case TaskSettled(j, how) => AgreesTaskSettles(v, j, how);
    case TaskMoved(j, pc) => AgreesTaskMoves(v, j, pc);
    case TaskGone(j) => AgreesTaskMoves(v, j, v.tasks[j]);
  }

  /** Where a job that a shift moves comes from. */
  lemma Origin(v: View, x: Shift)
    requires Agrees(v) && Allowed(v, x)
    ensures v.mainJob.Full? ==> v.ledger.At(v.mainJob.job, AtMain)
    ensures v.pipeJob.Full? ==> v.ledger.At(v.pipeJob.job, AtPipe)
    ensures v.channel != [] ==> v.ledger.At(v.channel[0], InChannel)
    ensures x.Popped? ==> v.ledger.At(x.job, Queued)
    ensures x.TaskSettled? ==> v.ledger.At(x.job, AtReader)
  {
    if v.channel != [] { assert v.channel[0] in v.channel; }
  }

  /** A job that nobody is responsible for stays so. */
  lemma LooseKept(v: View, x: Shift, j: Job)
    requires Agrees(v) && Allowed(v, x) && Loose(v.ledger, j)
    ensures Loose(Shifted(v, x).ledger, j)
  {
    hide Agrees;
    Origin(v, x);
  }

  /** inflightReadCnt and inflightReads count exactly the registered read goroutines. */
  ghost predicate Crowded(c: Crowd, p: PipePc)
  {
    && (forall j :: j in c.inflight <==>
                    (j in c.tasks && !c.tasks[j].DoneGroup?) || p == CountLaunch(j) || p == Spawn(j))
    && (forall j :: j in c.group <==> j in c.tasks || p == AddInflight(j) || p == CountLaunch(j) || p == Spawn(j))
  }

  ghost predicate Local(cfg: Config, rw: bool, g: Shared, id: WorkerId, w: Worker)
  {
    Counters(w) && Locks(g, id, w) && Life(cfg, rw, w) && Places(w) && Crowded(w.crowd, w.pipe)
  }

  // ---- Preservation, one group of program counters at a time

  predicate InLoop(m: MainPc) { !m.MainWrite? && !m.Drain? }

  predicate InShutdown(m: MainPc) { m.Drain? && m.drain.Shutdown? }

  predicate InResidue(m: MainPc) { m.Drain? && m.drain.Residue? }

  predicate ShutdownWaits(d: ShutdownPc)
  {
    d.CloseChannel? || d.AwaitPipe? || d.DrainEnabled? || d.AwaitInflight? || d.AwaitGroup?
  }

  predicate OnPending(pc: ResiduePc)
  {
    pc.TakePending? || pc.LoadPending? || pc.SettlePending? || pc.ClearPending?
  }

  predicate Quiet(m: MainPc) { !m.Poll? && !m.Send? && !m.Reject? && !m.Serial? }

  predicate Waiting(pc: WritePc) { !pc.Park? && !pc.ParkOld? && !pc.ParkSet? && !pc.Hold? }

  predicate Registering(p: PipePc) { !Gating(p) && !p.PipeWrite? }

  ghost predicate CountersAfter(r: LocalResult) { r.Moved? ==> Counters(r.w) }

  lemma CountersLoop(cfg: Config, g: Shared, w: Worker, id: WorkerId, c: Choice)
    requires Counters(w) && InLoop(w.main)
    ensures CountersAfter(MainStep(cfg, g, w, id, c))
  {
    hide WriteStep, ShutdownStep, ResidueStep;
  }

  lemma CountersWrite(cfg: Config, g: Shared, w: Worker, id: WorkerId, c: Choice)
    requires Counters(w)
    ensures w.main.MainWrite? ==> CountersAfter(MainStep(cfg, g, w, id, c))
    ensures w.pipe.PipeWrite? ==> CountersAfter(PipeStep(cfg, g, w, id, c))
  {
    hide LoopStep, ShutdownStep, ResidueStep, GateStep, RegisterStep;
  }

  /** The drain leaves the pipeline, the reads and, but for the closing of the channel, the flow alone. */
  ghost predicate Draining(w: Worker, r: LocalResult)
  {
    r.Moved? ==>
      && r.w.flow == w.flow.(shut := r.w.flow.shut) && r.w.pipe == w.pipe && r.w.crowd == w.crowd
      && (r.w.main.Drain? || r.w.main.Done?) && r.w.downgrades == w.downgrades && (w.timedOut ==> r.w.timedOut)
  }

  lemma ShutdownDraining(g: Shared, w: Worker, id: WorkerId, d: ShutdownPc, c: Choice)
    ensures Draining(w, ShutdownStep(g, w, id, d, c))
  {
  }

  lemma ResidueDraining(cfg: Config, g: Shared, w: Worker, m: DrainMode, pc: ResiduePc, c: Choice)
    ensures Draining(w, ResidueStep(cfg, g, w, m, pc, c))
  {
  }

  lemma CountersShutdown(cfg: Config, g: Shared, w: Worker, id: WorkerId, c: Choice)
    requires Counters(w) && InShutdown(w.main)
    ensures CountersAfter(MainStep(cfg, g, w, id, c))
  {
    hide LoopStep, WriteStep, ResidueStep, ShutdownStep;
    ShutdownDraining(g, w, id, w.main.drain.at, c);
  }

  lemma CountersResidue(cfg: Config, g: Shared, w: Worker, id: WorkerId, c: Choice)
    requires Counters(w) && InResidue(w.main)
    ensures CountersAfter(MainStep(cfg, g, w, id, c))
  {
    hide LoopStep, WriteStep, ShutdownStep, ResidueStep;
    ResidueDraining(cfg, g, w, w.main.drain.mode, w.main.drain.pc, c);
  }

  lemma CountersLaunch(cfg: Config, g: Shared, w: Worker, id: WorkerId, c: Choice)
    requires Counters(w) && !w.pipe.PipeWrite?
    ensures CountersAfter(PipeStep(cfg, g, w, id, c))
  {
    hide WriteStep, TokenLeft;
  }

  ghost predicate LocksAfter(g: Shared, id: WorkerId, r: LocalResult)
  {
    r.Moved? ==> Locks(r.g, id, r.w) && OthersUntouched(g, r.g, id)
  }

  /** How a step of the main loop, or of execWrite, moves the lock: it may take it when free and
      give it back. */
  ghost predicate WriterMoves(g: Shared, id: WorkerId, g': Shared)
  {
    && g' == g.(writer := g'.writer)
    && (g'.writer == g.writer
        || (g.Free() && (g'.writer == MainOf(id) || g'.writer == PipeOf(id)))
        || (g'.writer == Nobody && (g.writer == MainOf(id) || g.writer == PipeOf(id))))
  }

  ghost predicate WriterAfter(g: Shared, w: Worker, id: WorkerId, r: LocalResult)
  {
    r.Moved? ==>
      && WriterMoves(g, id, r.g) && r.w.crowd == w.crowd
      && WriterLocks(id, r.g.writer, r.w.main, r.w.pipe)
  }

  lemma LocksFromWriter(g: Shared, w: Worker, id: WorkerId, r: LocalResult)
    requires Locks(g, id, w) && WriterAfter(g, w, id, r)
    requires r.Moved? ==> r.w.pipe == w.pipe || (w.pipe.PipeWrite? && (r.w.pipe.PipeWrite? || r.w.pipe.Recv?))
    ensures LocksAfter(g, id, r)
  {
  }

  lemma WriterQuiet(cfg: Config, g: Shared, w: Worker, id: WorkerId, c: Choice)
    requires WriterLocks(id, g.writer, w.main, w.pipe) && InLoop(w.main) && Quiet(w.main)
    ensures WriterAfter(g, w, id, MainStep(cfg, g, w, id, c))
  {
    hide WriteStep, ShutdownStep, ResidueStep;
  }

  lemma WriterLoop(cfg: Config, g: Shared, w: Worker, id: WorkerId, c: Choice)
    requires WriterLocks(id, g.writer, w.main, w.pipe) && InLoop(w.main) && !Quiet(w.main)
    ensures WriterAfter(g, w, id, MainStep(cfg, g, w, id, c))
  {
    hide WriteStep, ShutdownStep, ResidueStep;
  }

  lemma WriterWrite(cfg: Config, g: Shared, w: Worker, id: WorkerId, c: Choice)
    requires WriterLocks(id, g.writer, w.main, w.pipe) && w.main.MainWrite?
    ensures WriterAfter(g, w, id, MainStep(cfg, g, w, id, c))
  {
    hide LoopStep, ShutdownStep, ResidueStep;
  }

  lemma WriterPipeWrite(cfg: Config, g: Shared, w: Worker, id: WorkerId, c: Choice)
    requires WriterLocks(id, g.writer, w.main, w.pipe) && w.pipe.PipeWrite?
    ensures WriterAfter(g, w, id, PipeStep(cfg, g, w, id, c))
  {
    hide GateStep, RegisterStep;
  }

  lemma WriterShutdown(cfg: Config, g: Shared, w: Worker, id: WorkerId, c: Choice)
    requires WriterLocks(id, g.writer, w.main, w.pipe) && InShutdown(w.main) && ShutdownWaits(w.main.drain.at)
    ensures WriterAfter(g, w, id, MainStep(cfg, g, w, id, c))
  {
    hide LoopStep, WriteStep, ResidueStep;
  }

  lemma WriterChoose(cfg: Config, g: Shared, w: Worker, id: WorkerId, c: Choice)
    requires WriterLocks(id, g.writer, w.main, w.pipe) && InShutdown(w.main) && !ShutdownWaits(w.main.drain.at)
    ensures WriterAfter(g, w, id, MainStep(cfg, g, w, id, c))
  {
    hide LoopStep, WriteStep, ResidueStep;
  }

  lemma WriterPending(cfg: Config, g: Shared, w: Worker, id: WorkerId, c: Choice)
    requires WriterLocks(id, g.writer, w.main, w.pipe) && InResidue(w.main) && OnPending(w.main.drain.pc)
    ensures WriterAfter(g, w, id, MainStep(cfg, g, w, id, c))
  {
    hide LoopStep, WriteStep, ShutdownStep;
  }

  lemma WriterQueued(cfg: Config, g: Shared, w: Worker, id: WorkerId, c: Choice)
    requires WriterLocks(id, g.writer, w.main, w.pipe) && InResidue(w.main) && !OnPending(w.main.drain.pc)
    ensures WriterAfter(g, w, id, MainStep(cfg, g, w, id, c))
  {
    hide LoopStep, WriteStep, ShutdownStep;
  }

  lemma LocksToken(cfg: Config, g: Shared, w: Worker, id: WorkerId, c: Choice)
    requires Locks(g, id, w) && w.pipe.GateToken?
    ensures LocksAfter(g, id, PipeStep(cfg, g, w, id, c))
  {
    hide WriteStep, RegisterStep, TokenLeft;
  }

  lemma LocksAcquire(cfg: Config, g: Shared, w: Worker, id: WorkerId, c: Choice)
    requires Locks(g, id, w) && w.pipe.AcquireRead?
    ensures LocksAfter(g, id, PipeStep(cfg, g, w, id, c))
  {
    hide WriteStep, RegisterStep, TokenLeft;
  }

  lemma LocksGate(cfg: Config, g: Shared, w: Worker, id: WorkerId, c: Choice)
    requires Locks(g, id, w) && Gating(w.pipe) && !w.pipe.GateToken? && !w.pipe.AcquireRead?
    ensures LocksAfter(g, id, PipeStep(cfg, g, w, id, c))
  {
    hide WriteStep, RegisterStep, TokenLeft;
  }

  lemma LocksDowngrade(cfg: Config, g: Shared, w: Worker, id: WorkerId, c: Choice)
    requires Locks(g, id, w) && Registering(w.pipe) && !w.pipe.Spawn?
    requires (w.pipe.DropRead? || w.pipe.DropToken? || w.pipe.CountDowngrade?)
    ensures LocksAfter(g, id, PipeStep(cfg, g, w, id, c))
  {
    hide WriteStep, GateStep;
  }

  lemma LocksRegister(cfg: Config, g: Shared, w: Worker, id: WorkerId, c: Choice)
    requires Locks(g, id, w) && Registering(w.pipe) && !w.pipe.Spawn?
    requires !((w.pipe.DropRead? || w.pipe.DropToken? || w.pipe.CountDowngrade?))
    ensures LocksAfter(g, id, PipeStep(cfg, g, w, id, c))
  {
    hide WriteStep, GateStep;
  }

  lemma LocksSpawn(cfg: Config, g: Shared, w: Worker, id: WorkerId, c: Choice)
    requires Locks(g, id, w) && w.pipe.Spawn?
    ensures LocksAfter(g, id, PipeStep(cfg, g, w, id, c))
  {
    hide WriteStep, GateStep;
    assert PipeOf(id) in g.readers;
  }

  lemma LocksRead(g: Shared, w: Worker, id: WorkerId, j: Job, cancelled: bool)
    requires Locks(g, id, w) && j in w.crowd.tasks && HasToken(w.crowd.tasks[j])
    ensures LocksAfter(g, id, ReadStep(g, w, id, j, cancelled))
  {
  }

  lemma LocksReadTail(g: Shared, w: Worker, id: WorkerId, j: Job, cancelled: bool)
    requires Locks(g, id, w) && j in w.crowd.tasks && !HasToken(w.crowd.tasks[j])
    ensures LocksAfter(g, id, ReadStep(g, w, id, j, cancelled))
  {
  }

  ghost predicate LifeAfter(cfg: Config, rw: bool, r: LocalResult) { r.Moved? ==> Life(cfg, rw, r.w) }

  lemma LifeLoop(cfg: Config, rw: bool, g: Shared, w: Worker, id: WorkerId, c: Choice)
    requires Life(cfg, rw, w) && (!rw ==> !g.enabled) && InLoop(w.main)
    ensures LifeAfter(cfg, rw, MainStep(cfg, g, w, id, c))
  {
    hide WriteStep, ShutdownStep, ResidueStep;
  }

  lemma LifeWrite(cfg: Config, rw: bool, g: Shared, w: Worker, id: WorkerId, c: Choice)
    requires Life(cfg, rw, w) && w.main.MainWrite?
    ensures LifeAfter(cfg, rw, MainStep(cfg, g, w, id, c))
  {
    hide LoopStep, ShutdownStep, ResidueStep;
  }

  lemma LifePipeWrite(cfg: Config, rw: bool, g: Shared, w: Worker, id: WorkerId, c: Choice)
    requires Life(cfg, rw, w) && w.pipe.PipeWrite?
    ensures LifeAfter(cfg, rw, PipeStep(cfg, g, w, id, c))
  {
    hide GateStep, RegisterStep;
  }

  lemma LifeShutdown(cfg: Config, rw: bool, g: Shared, w: Worker, id: WorkerId, c: Choice)
    requires Life(cfg, rw, w) && InShutdown(w.main)
    ensures LifeAfter(cfg, rw, MainStep(cfg, g, w, id, c))
  {
    hide LoopStep, WriteStep, ResidueStep;
  }

  lemma LifePending(cfg: Config, rw: bool, g: Shared, w: Worker, id: WorkerId, c: Choice)
    requires Life(cfg, rw, w) && InResidue(w.main) && OnPending(w.main.drain.pc)
    ensures LifeAfter(cfg, rw, MainStep(cfg, g, w, id, c))
  {
    hide LoopStep, WriteStep, ShutdownStep;
  }

  lemma LifeQueued(cfg: Config, rw: bool, g: Shared, w: Worker, id: WorkerId, c: Choice)
    requires Life(cfg, rw, w) && InResidue(w.main) && !OnPending(w.main.drain.pc)
    ensures LifeAfter(cfg, rw, MainStep(cfg, g, w, id, c))
  {
    hide LoopStep, WriteStep, ShutdownStep;
  }

  lemma LifeLaunch(cfg: Config, rw: bool, g: Shared, w: Worker, id: WorkerId, c: Choice)
    requires Life(cfg, rw, w) && !w.pipe.PipeWrite?
    ensures LifeAfter(cfg, rw, PipeStep(cfg, g, w, id, c))
  {
    hide WriteStep, TokenLeft;
  }

  function WriteShift(pc: WritePc, cancelled: bool, main: bool): Shift
  {
    match pc
    case ParkOld(prior) => LooseSettled(prior, Discarded)
    case ParkSet => if main then MainStored else PipeStored
    case Hold(running) =>
      if !running && !cancelled then Stay
      else var how := if running then Executed else Discarded; if main then MainSettled(how) else PipeSettled(how)
    case _ => Stay
  }

  /** What a step of the main loop does to the view. */
  function MainShift(cfg: Config, w: Worker, c: Choice): Shift
  {
    match w.main
    case Poll => if c.pick.Full? then Popped(c.pick.job) else Stay
    case Send(j) => if |w.flow.channel| < cfg.channelCap then Sent else Stay
    case Reject(j) => MainSettled(Discarded)
    case Serial(j, running) =>
      if running then MainSettled(Executed) else if c.alarm then MainSettled(Discarded) else Stay
    case MainWrite(j, pc) => WriteShift(pc, c.alarm, true)
    case Drain(Residue(m, SettlePending(j, running))) =>
      if DrainStarts(cfg, w, running, c.alarm) then Stay else LooseSettled(j, DrainOutcome(cfg, w, m, running))
    case Drain(Residue(m, SettleQueued(j, running))) =>
      if DrainStarts(cfg, w, running, c.alarm) then Stay else MainSettled(DrainOutcome(cfg, w, m, running))
    case Drain(Residue(m, ClearPending)) => Cleared
    case Drain(Residue(m, TakeQueued)) => if w.ledger.queue != {} && c.pick.Full? then Popped(c.pick.job) else Stay
    case _ => Stay
  }

  function PipeShift(w: Worker, c: Choice): Shift
  {
    match w.pipe
    case Recv => if w.flow.channel != [] then Received else Stay
    case DiscardLate(_) => PipeSettled(Dropped)
    case Spawn(_) => Spawned
    case PipeWrite(_, pc) => WriteShift(pc, c.alarm, false)
    case _ => Stay
  }

  function ReadShift(w: Worker, j: Job, cancelled: bool): Shift
  {
    if j !in w.crowd.tasks then Stay else
    match w.crowd.tasks[j]
    case Ready => if cancelled then TaskSettled(j, Discarded) else TaskMoved(j, Running)
    case Running => TaskSettled(j, Executed)
    case GiveToken => TaskMoved(j, ReleaseRead)
    case ReleaseRead => TaskMoved(j, DecInflight)
    case DecInflight => TaskMoved(j, DoneGroup)
    case DoneGroup => TaskGone(j)
  }

  function ShiftOf(cfg: Config, w: Worker, a: Action): Shift
  {
    match a
    case ActMain(_, c) => MainShift(cfg, w, c)
    case ActPipe(_, c) => PipeShift(w, c)
    case ActRead(_, j, cancelled) => ReadShift(w, j, cancelled)
    case Submit(_, j) => Pushed(j)
    case _ => Stay
  }

  /** The step shifts the view by `x`; a parked job about to be settled was so before, or has
      just been read from pendingJob. */
  ghost predicate ShiftAfter(w: Worker, x: Shift, r: LocalResult)
  {
    r.Moved? ==>
      && Allowed(Seen(w), x)
      && Seen(r.w) == Shifted(Seen(w), x)
      && OldAfter(MainOld(w.main), MainOld(r.w.main), x, w.ledger.pending)
      && OldAfter(PipeOld(w.pipe), PipeOld(r.w.pipe), x, w.ledger.pending)
      && (x.LooseSettled? ==> Full(x.job) == MainOld(w.main) || Full(x.job) == PipeOld(w.pipe))
  }

  predicate OldAfter(before: Slot, after: Slot, x: Shift, pending: Slot)
  {
    after == before || after == Empty || (x.Stay? && after == pending)
  }

  lemma PlacesKept(w: Worker, x: Shift, r: LocalResult)
    requires Places(w) && ShiftAfter(w, x, r) && r.Moved?
    ensures Places(r.w)
  {
    AgreesKept(Seen(w), x);
    if MainOld(w.main).Full? { LooseKept(Seen(w), x, MainOld(w.main).job); }
    if PipeOld(w.pipe).Full? { LooseKept(Seen(w), x, PipeOld(w.pipe).job); }
  }

  ghost predicate MainShifts(cfg: Config, w: Worker, c: Choice, r: LocalResult)
  {
    ShiftAfter(w, MainShift(cfg, w, c), r) && (r.Moved? ==> r.w.crowd == w.crowd && r.w.pipe == w.pipe)
  }

  /** A step that moves no job. */
  lemma Stays(w: Worker, r: LocalResult)
    requires r.Moved? && Seen(r.w) == Seen(w) && MainOld(r.w.main) == MainOld(w.main)
    requires PipeOld(r.w.pipe) == PipeOld(w.pipe)
    ensures ShiftAfter(w, Stay, r)
  {
  }

  lemma StuckShifts(w: Worker, x: Shift, r: LocalResult)
    ensures r.Stuck? ==> ShiftAfter(w, x, r)
  {
  }

  lemma ShiftsQuiet(cfg: Config, g: Shared, w: Worker, id: WorkerId, c: Choice)
    requires InLoop(w.main) && Quiet(w.main)
    ensures MainShifts(cfg, w, c, MainStep(cfg, g, w, id, c))
  {
    hide WriteStep, ShutdownStep, ResidueStep;
  }

  lemma ShiftsMove(cfg: Config, g: Shared, w: Worker, id: WorkerId, c: Choice)
    requires InLoop(w.main) && !Quiet(w.main) && (w.main.Poll? || w.main.Send?)
    ensures MainShifts(cfg, w, c, MainStep(cfg, g, w, id, c))
  {
    hide WriteStep, ShutdownStep, ResidueStep;
  }

  lemma ShiftsFinish(cfg: Config, g: Shared, w: Worker, id: WorkerId, c: Choice)
    requires InLoop(w.main) && !Quiet(w.main) && !((w.main.Poll? || w.main.Send?))
    ensures MainShifts(cfg, w, c, MainStep(cfg, g, w, id, c))
  {
    hide WriteStep, ShutdownStep, ResidueStep;
  }

  lemma ShiftsWaiting(cfg: Config, g: Shared, w: Worker, id: WorkerId, c: Choice)
    requires w.main.MainWrite? && Waiting(w.main.pc)
    ensures MainShifts(cfg, w, c, MainStep(cfg, g, w, id, c))
  {
    hide LoopStep, ShutdownStep, ResidueStep;
  }

  lemma ShiftsHold(cfg: Config, g: Shared, w: Worker, id: WorkerId, c: Choice)
    requires w.main.MainWrite? && !Waiting(w.main.pc) && w.main.pc.Hold?
    ensures MainShifts(cfg, w, c, MainStep(cfg, g, w, id, c))
  {
    hide LoopStep, ShutdownStep, ResidueStep;
  }

  lemma ShiftsPark(cfg: Config, g: Shared, w: Worker, id: WorkerId, c: Choice)
    requires w.main.MainWrite? && !Waiting(w.main.pc) && !w.main.pc.Hold?
    ensures MainShifts(cfg, w, c, MainStep(cfg, g, w, id, c))
  {
    hide LoopStep, ShutdownStep, ResidueStep;
  }

  lemma ShutdownStays(g: Shared, w: Worker, id: WorkerId, d: ShutdownPc, c: Choice)
    requires w.main == Drain(Shutdown(d))
    ensures var r := ShutdownStep(g, w, id, d, c);
            r.Moved? ==> && Seen(r.w) == Seen(w) && MainOld(r.w.main) == MainOld(w.main)
                         && r.w.pipe == w.pipe && r.w.crowd == w.crowd
  {
  }

  lemma ShiftsShutdown(cfg: Config, g: Shared, w: Worker, id: WorkerId, c: Choice)
    requires InShutdown(w.main)
    ensures MainShifts(cfg, w, c, MainStep(cfg, g, w, id, c))
  {
    hide LoopStep, WriteStep, ResidueStep, ShutdownStep, Allowed, Shifted, ShiftAfter, Seen;
    var r := MainStep(cfg, g, w, id, c);
    ShutdownStays(g, w, id, w.main.drain.at, c);
    if r.Moved? { Stays(w, r); }
    StuckShifts(w, MainShift(cfg, w, c), r);
  }

  lemma ShiftsPending(cfg: Config, g: Shared, w: Worker, id: WorkerId, c: Choice)
    requires InResidue(w.main)
    requires OnPending(w.main.drain.pc)
    ensures MainShifts(cfg, w, c, MainStep(cfg, g, w, id, c))
  {
    hide LoopStep, WriteStep, ShutdownStep;
  }

  lemma ShiftsQueued(cfg: Config, g: Shared, w: Worker, id: WorkerId, c: Choice)
    requires InResidue(w.main)
    requires (w.main.drain.pc.TakeQueued? || w.main.drain.pc.SettleQueued? || w.main.drain.pc.ReleaseLock?)
    ensures MainShifts(cfg, w, c, MainStep(cfg, g, w, id, c))
  {
    hide LoopStep, WriteStep, ShutdownStep;
  }

  ghost predicate PipeShifts(w: Worker, c: Choice, r: LocalResult)
  {
    ShiftAfter(w, PipeShift(w, c), r)
  }

  lemma ShiftsGate(cfg: Config, g: Shared, w: Worker, id: WorkerId, c: Choice)
    requires Gating(w.pipe)
    ensures PipeShifts(w, c, PipeStep(cfg, g, w, id, c))
  {
    hide WriteStep, RegisterStep, TokenLeft;
  }

  lemma ShiftsLaunch(cfg: Config, g: Shared, w: Worker, id: WorkerId, c: Choice)
    requires Registering(w.pipe)
    ensures PipeShifts(w, c, PipeStep(cfg, g, w, id, c))
  {
    hide WriteStep, GateStep;
  }

  lemma ShiftsPipeWaiting(cfg: Config, g: Shared, w: Worker, id: WorkerId, c: Choice)
    requires w.pipe.PipeWrite? && Waiting(w.pipe.pc)
    ensures PipeShifts(w, c, PipeStep(cfg, g, w, id, c))
  {
    hide GateStep, RegisterStep;
  }

  lemma ShiftsPipeHold(cfg: Config, g: Shared, w: Worker, id: WorkerId, c: Choice)
    requires w.pipe.PipeWrite? && !Waiting(w.pipe.pc) && w.pipe.pc.Hold?
    ensures PipeShifts(w, c, PipeStep(cfg, g, w, id, c))
  {
    hide GateStep, RegisterStep;
  }

  lemma ShiftsPipePark(cfg: Config, g: Shared, w: Worker, id: WorkerId, c: Choice)
    requires w.pipe.PipeWrite? && !Waiting(w.pipe.pc) && !w.pipe.pc.Hold?
    ensures PipeShifts(w, c, PipeStep(cfg, g, w, id, c))
  {
    hide GateStep, RegisterStep;
  }

  lemma ShiftsRead(g: Shared, w: Worker, id: WorkerId, j: Job, cancelled: bool)
    ensures ShiftAfter(w, ReadShift(w, j, cancelled), ReadStep(g, w, id, j, cancelled))
  {
  }

  lemma CrowdedGate(cfg: Config, g: Shared, w: Worker, id: WorkerId, c: Choice)
    requires Crowded(w.crowd, w.pipe) && Gating(w.pipe)
    ensures var r := PipeStep(cfg, g, w, id, c); r.Moved? ==> Crowded(r.w.crowd, r.w.pipe)
  {
    hide WriteStep, RegisterStep, TokenLeft;
  }

  lemma CrowdedLaunch(cfg: Config, g: Shared, w: Worker, id: WorkerId, c: Choice)
    requires Crowded(w.crowd, w.pipe) && Registering(w.pipe) && !w.pipe.Spawn?
    ensures var r := PipeStep(cfg, g, w, id, c); r.Moved? ==> Crowded(r.w.crowd, r.w.pipe)
  {
    hide WriteStep, GateStep;
  }

  lemma CrowdedWrite(cfg: Config, g: Shared, w: Worker, id: WorkerId, c: Choice)
    requires Crowded(w.crowd, w.pipe) && w.pipe.PipeWrite?
    ensures var r := PipeStep(cfg, g, w, id, c); r.Moved? ==> Crowded(r.w.crowd, r.w.pipe)
  {
    hide GateStep, RegisterStep;
  }

  lemma CrowdedSpawn(cfg: Config, g: Shared, w: Worker, id: WorkerId, c: Choice)
    requires Crowded(w.crowd, w.pipe) && w.pipe.Spawn? && w.pipe.job !in w.crowd.tasks
    ensures var r := PipeStep(cfg, g, w, id, c); r.Moved? ==> Crowded(r.w.crowd, r.w.pipe)
  {
    hide WriteStep, GateStep;
  }

  lemma CrowdedRead(g: Shared, w: Worker, id: WorkerId, j: Job, cancelled: bool)
    requires Crowded(w.crowd, w.pipe) && (PipeJob(w.pipe).Full? ==> PipeJob(w.pipe).job !in w.crowd.tasks)
    ensures var r := ReadStep(g, w, id, j, cancelled); r.Moved? ==> Crowded(r.w.crowd, r.w.pipe)
  {
  }

  // ---- Every step of a worker keeps everything above

  ghost predicate LocalAfter(cfg: Config, rw: bool, g: Shared, w: Worker, id: WorkerId, x: Shift, r: LocalResult)
  {
    r.Moved? ==> Local(cfg, rw, r.g, id, r.w) && OthersUntouched(g, r.g, id) && ShiftAfter(w, x, r)
  }

  lemma MainCounters(cfg: Config, rw: bool, g: Shared, w: Worker, id: WorkerId, c: Choice)
    requires Counters(w) && Life(cfg, rw, w) && (!rw ==> !g.enabled)
    ensures CountersAfter(MainStep(cfg, g, w, id, c)) && LifeAfter(cfg, rw, MainStep(cfg, g, w, id, c))
  {
    if w.main.MainWrite? {
      CountersWrite(cfg, g, w, id, c); LifeWrite(cfg, rw, g, w, id, c);
    } else if InShutdown(w.main) {
      CountersShutdown(cfg, g, w, id, c); LifeShutdown(cfg, rw, g, w, id, c);
    } else if InResidue(w.main) {
      CountersResidue(cfg, g, w, id, c);
      if OnPending(w.main.drain.pc) { LifePending(cfg, rw, g, w, id, c); } else { LifeQueued(cfg, rw, g, w, id, c); }
    } else {
      CountersLoop(cfg, g, w, id, c); LifeLoop(cfg, rw, g, w, id, c);
    }
  }

  lemma MainWriter(cfg: Config, g: Shared, w: Worker, id: WorkerId, c: Choice)
    requires WriterLocks(id, g.writer, w.main, w.pipe)
    ensures WriterAfter(g, w, id, MainStep(cfg, g, w, id, c))
  {
    if w.main.MainWrite? {
      WriterWrite(cfg, g, w, id, c);
    } else if InShutdown(w.main) {
      if ShutdownWaits(w.main.drain.at) { WriterShutdown(cfg, g, w, id, c); } else { WriterChoose(cfg, g, w, id, c); }
    } else if InResidue(w.main) {
      if OnPending(w.main.drain.pc) { WriterPending(cfg, g, w, id, c); } else { WriterQueued(cfg, g, w, id, c); }
    } else {
      if Quiet(w.main) { WriterQuiet(cfg, g, w, id, c); } else { WriterLoop(cfg, g, w, id, c); }
    }
  }

  lemma MainShifting(cfg: Config, g: Shared, w: Worker, id: WorkerId, c: Choice)
    ensures MainShifts(cfg, w, c, MainStep(cfg, g, w, id, c))
  {
    if w.main.MainWrite? {
      if Waiting(w.main.pc) { ShiftsWaiting(cfg, g, w, id, c); }
      else if w.main.pc.Hold? { ShiftsHold(cfg, g, w, id, c); } else { ShiftsPark(cfg, g, w, id, c); }
    } else if InShutdown(w.main) {
      ShiftsShutdown(cfg, g, w, id, c);
    } else if InResidue(w.main) {
      if OnPending(w.main.drain.pc) { ShiftsPending(cfg, g, w, id, c); } else { ShiftsQueued(cfg, g, w, id, c); }
    } else if Quiet(w.main) {
      ShiftsQuiet(cfg, g, w, id, c);
    } else {
      if w.main.Poll? || w.main.Send? { ShiftsMove(cfg, g, w, id, c); } else { ShiftsFinish(cfg, g, w, id, c); }
    }
  }

  lemma MainKept(cfg: Config, rw: bool, g: Shared, w: Worker, id: WorkerId, c: Choice)
    requires Local(cfg, rw, g, id, w) && (!rw ==> !g.enabled)
    ensures LocalAfter(cfg, rw, g, w, id, MainShift(cfg, w, c), MainStep(cfg, g, w, id, c))
  {
    hide MainStep;
    var r := MainStep(cfg, g, w, id, c);
    if r.Moved? {
      MainCounters(cfg, rw, g, w, id, c);
      MainWriter(cfg, g, w, id, c);
      MainShifting(cfg, g, w, id, c);
      LocksFromWriter(g, w, id, r);
      PlacesKept(w, MainShift(cfg, w, c), r);
    }
  }

  lemma PipeLocking(cfg: Config, g: Shared, w: Worker, id: WorkerId, c: Choice)
    requires Locks(g, id, w)
    ensures LocksAfter(g, id, PipeStep(cfg, g, w, id, c))
  {
    if w.pipe.PipeWrite? {
      WriterPipeWrite(cfg, g, w, id, c);
      LocksFromWriter(g, w, id, PipeStep(cfg, g, w, id, c));
    } else if Gating(w.pipe) {
      if w.pipe.GateToken? { LocksToken(cfg, g, w, id, c); }
      else if w.pipe.AcquireRead? { LocksAcquire(cfg, g, w, id, c); }
      else { LocksGate(cfg, g, w, id, c); }
    } else if w.pipe.Spawn? {
      LocksSpawn(cfg, g, w, id, c);
    } else if w.pipe.DropRead? || w.pipe.DropToken? || w.pipe.CountDowngrade? {
      LocksDowngrade(cfg, g, w, id, c);
    } else {
      LocksRegister(cfg, g, w, id, c);
    }
  }

  lemma PipeShifting(cfg: Config, g: Shared, w: Worker, id: WorkerId, c: Choice)
    ensures PipeShifts(w, c, PipeStep(cfg, g, w, id, c))
  {
    if Gating(w.pipe) { ShiftsGate(cfg, g, w, id, c); }
    else if !w.pipe.PipeWrite? { ShiftsLaunch(cfg, g, w, id, c); }
    else if Waiting(w.pipe.pc) { ShiftsPipeWaiting(cfg, g, w, id, c); }
    else if w.pipe.pc.Hold? { ShiftsPipeHold(cfg, g, w, id, c); }
    else { ShiftsPipePark(cfg, g, w, id, c); }
  }

  lemma PipeCrowding(cfg: Config, g: Shared, w: Worker, id: WorkerId, c: Choice)
    requires Places(w) && Crowded(w.crowd, w.pipe)
    ensures var r := PipeStep(cfg, g, w, id, c); r.Moved? ==> Crowded(r.w.crowd, r.w.pipe)
  {
    if w.pipe.PipeWrite? { CrowdedWrite(cfg, g, w, id, c); }
    else if Gating(w.pipe) { CrowdedGate(cfg, g, w, id, c); }
    else if w.pipe.Spawn? { AgreesSpawn(Seen(w)); CrowdedSpawn(cfg, g, w, id, c); }
    else { CrowdedLaunch(cfg, g, w, id, c); }
  }

  lemma PipeKept(cfg: Config, rw: bool, g: Shared, w: Worker, id: WorkerId, c: Choice)
    requires Local(cfg, rw, g, id, w)
    ensures LocalAfter(cfg, rw, g, w, id, PipeShift(w, c), PipeStep(cfg, g, w, id, c))
  {
    hide PipeStep;
    var r := PipeStep(cfg, g, w, id, c);
    if r.Moved? {
      if w.pipe.PipeWrite? { CountersWrite(cfg, g, w, id, c); LifePipeWrite(cfg, rw, g, w, id, c); }
      else { CountersLaunch(cfg, g, w, id, c); LifeLaunch(cfg, rw, g, w, id, c); }
      PipeLocking(cfg, g, w, id, c);
      PipeShifting(cfg, g, w, id, c);
      PipeCrowding(cfg, g, w, id, c);
      PlacesKept(w, PipeShift(w, c), r);
    }
  }

  /** A read goroutine leaves the main loop, the pipeline, the counters and the queue alone. */
  lemma ReadFrame(cfg: Config, rw: bool, g: Shared, w: Worker, id: WorkerId, j: Job, cancelled: bool)
    requires Counters(w) && Life(cfg, rw, w)
    ensures var r := ReadStep(g, w, id, j, cancelled); r.Moved? ==> Counters(r.w) && Life(cfg, rw, r.w)
  {
    var r := ReadStep(g, w, id, j, cancelled);
    if r.Moved? {
      assert r.w == w.(crowd := r.w.crowd, ledger := r.w.ledger) && r.w.ledger.queue == w.ledger.queue;
    }
  }

  lemma ReadLocking(g: Shared, w: Worker, id: WorkerId, j: Job, cancelled: bool)
    requires Locks(g, id, w)
    ensures LocksAfter(g, id, ReadStep(g, w, id, j, cancelled))
  {
    if j in w.crowd.tasks {
      if HasToken(w.crowd.tasks[j]) { LocksRead(g, w, id, j, cancelled); }
      else { LocksReadTail(g, w, id, j, cancelled); }
    }
  }

  lemma ReadCrowding(g: Shared, w: Worker, id: WorkerId, j: Job, cancelled: bool)
    requires Places(w) && Crowded(w.crowd, w.pipe)
    ensures var r := ReadStep(g, w, id, j, cancelled); r.Moved? ==> Crowded(r.w.crowd, r.w.pipe)
  {
    if PipeJob(w.pipe).Full? { AgreesSpawn(Seen(w)); }
    CrowdedRead(g, w, id, j, cancelled);
  }

  lemma ReadKept(cfg: Config, rw: bool, g: Shared, w: Worker, id: WorkerId, j: Job, cancelled: bool)
    requires Local(cfg, rw, g, id, w)
    ensures LocalAfter(cfg, rw, g, w, id, ReadShift(w, j, cancelled), ReadStep(g, w, id, j, cancelled))
  {
    var r := ReadStep(g, w, id, j, cancelled);
    if r.Moved? {
      ReadFrame(cfg, rw, g, w, id, j, cancelled);
      ReadLocking(g, w, id, j, cancelled);
      ReadCrowding(g, w, id, j, cancelled);
      ShiftsRead(g, w, id, j, cancelled);
      PlacesKept(w, ReadShift(w, j, cancelled), r);
    }
  }

  lemma SubmitKept(cfg: Config, rw: bool, g: Shared, w: Worker, id: WorkerId, a: Action)
    requires Local(cfg, rw, g, id, w) && ((a.Submit? && a.job !in w.ledger.place) || a.BeginStop?)
    ensures LocalAfter(cfg, rw, g, w, id, ShiftOf(cfg, w, a), WorkerStep(cfg, g, w, id, a))
  {
    var r := WorkerStep(cfg, g, w, id, a);
    if r.Moved? {
      assert ShiftAfter(w, ShiftOf(cfg, w, a), r);
      PlacesKept(w, ShiftOf(cfg, w, a), r);
    }
  }

  /** Each step of worker `id` keeps its invariant and what the other workers hold. */
  lemma LocalKept(cfg: Config, rw: bool, g: Shared, w: Worker, id: WorkerId, a: Action)
    requires Local(cfg, rw, g, id, w) && (!rw ==> !g.enabled) && (a.Submit? ==> a.job !in w.ledger.place)
    ensures LocalAfter(cfg, rw, g, w, id, ShiftOf(cfg, w, a), WorkerStep(cfg, g, w, id, a))
  {
    hide MainStep, PipeStep, ReadStep;
    match a
    case ActMain(_, c) => MainKept(cfg, rw, g, w, id, c);
    case ActPipe(_, c) => PipeKept(cfg, rw, g, w, id, c);
    case ActRead(_, j, cancelled) => ReadKept(cfg, rw, g, w, id, j, cancelled);
    case Submit(_, _) => SubmitKept(cfg, rw, g, w, id, a);
    case BeginStop(_) => SubmitKept(cfg, rw, g, w, id, a);
    case _ =>
  }
}
