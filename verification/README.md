# Verified model of the mailbox, its queues and the ordered map

The engine runs every service behind a mailbox: workers with queues, a read/write split with a lock
shared by all workers, a pool that grows and shrinks, a middleware chain. This project models that
code, the bounded ring queue it stores jobs in, the RPC call monitor and the red-black tree map, and
proves what they promise. `dafny verify dfyconfig.toml` checks everything.

## How it is organised

**The worker protocol** (`RW*.dfy`) is a labelled transition system. One step is one atomic
operation of the source, one channel or lock operation, or one region under `admissionMu`. The
action holds whatever a scheduler, a clock or a caller decides: who moves, which queued job comes
next, whether a deadline has passed. A statement about reachable states is a statement about every
interleaving of any number of workers, jobs and goroutines.

- `RWMachine` is the transition system: SubmitJob, BeginStop, the main loop with execWithRW,
  dispatchRead, execWrite and storePending, the read pipeline, the read goroutines, the deferred
  drain, SetRWEnabled(false) with its two wait loops and its rollback, and growth and removal of workers.
- `RWLocal`, `RWInvariant` hold what every run keeps; `RWFixed` what runs keep in which RW mode is
  never switched; `RWRetired` what removed workers are; `RWSwitch` what a switch leaves behind;
  `RWSlot` and `RWExecuted` what becomes of parked and of executed jobs in any run; `RWParked` who may
  settle a parked job when no switch rolled back.
- `RWTheorems`, `RWShrink` and the ends of `RWExecuted` and `RWParked` state the promises. `RWKinds` says
  which kind of job may run where, `RWFate` why a job was not executed, `RWAlone` what the goroutines of a
  worker achieve when nothing interferes, `RWProgress` what is possible when.
- `RWCounterexamples`, `RWRollback`, `RWStoreRace`, `RWMutualWait`, `RWOvertaken`, `RWLeaked` are
  concrete runs that break a promise, most of them built from the blocks in `RWSteps`.

**The pool** is `JumpHash`, `WorkerPool` (published snapshots, routing, resizing) and `QueueSpec` (the
storage budget). **The queues** are `Bits` and `RingQueue` (boundedmpsc), `PriorityScheduler`,
`PriorityQueues` and `Parking` (idle workers and wake-ups). **The monitor** is `CallMonitor` (sharded
table) and `CallRace` (who gets a pending call). **The middlewares** are `Middleware` (the events of a
job's life) and `MiddlewareChain` (the code that produces them).

**The ordered map** is proved on the heap. `TreeShape` has trees with a focus (a path upwards and a
subtree), the in-order entries, the colours and the rebalancing as functions; `TreeHeap` says when a
heap of linked nodes is such a tree; `TreeOrder` turns sorted entries into finite maps; `TreeMap` is
the class with Put, Remove, the rotations and all insert and delete cases on linked nodes;
`TreeIterator` is the stateful iterator.

## Where the code and its own comments differ

The model follows the code. Each item is a proved run or an exact statement.

- The test of execWithRW loads `enabled` and `disabling` one after the other
  (engine/pkg/actor/mailbox/worker.go:591). A main loop that did the first load before
  SetRWEnabled(false) and the second after it sends one more read. So "no residual pipeline work
  after success" (worker_pool.go:630-631) fails, and the downgraded read can wait for its own
  pipeline until the worker is stopped: `TornTest`, `WaitsForever`. In every run a worker downgrades
  at most one read per flip and one more if its test was torn (`StragglersBounded`); both are reached
  (`OnePerFlip`, `TornTest`). A worker removed after a stop timeout is no longer scanned, and its leaked
  pipeline may downgrade all the reads it has left (`LeakedStragglers`). Without a rollback and a torn test the one straggler never waits for
  itself (`OneStraggler`).
- Even the one straggler runs on the pipeline while the main loop already executes serially without
  the lock: `SerialOverlapsStraggler`.
- When SetRWEnabled(false) fails late and rolls back, a main loop that loaded `enabled` before and
  `disabling` after the rollback executes a write without the lock while RW mode is on:
  `WriteOverlapsRead`. So does a drain that found the mode off and took no lock: `DrainOverlapsRead`.
  In any run only these two, and only after a rollback, overlap a read goroutine (`ReadsExcludeOthers`).
- "Reads before a later write" (worker.go:754-758) fails for a read that is downgraded: it is counted as
  launched before it asks for the lock, so that a later write can have the lock first. That happens
  while a switch has the mode off (`SwitchOvertakes`), and after a rollback with RW mode on
  (`RollbackOvertakes`; the read then executes after the write, `OvertakenReadRuns`). In every run what
  a write overtakes is such a read, or a job that storePending parked or lost; with RW mode on nothing
  is overtaken unless a switch rolled back (`ReadsBesideWrite`, `ReadsBeforeWrite`).
- After a rollback a doomed read can be in execWrite on the pipeline while the main loop, in RW mode
  again, dispatches reads behind it and then a write: writer and pipeline wait for each other, and
  nothing but stopping the worker ends that (`WriterAndPipelineWait`, `WaitForEachOtherForever`).
  Without a rollback that never happens, whatever switches and torn tests the run has
  (`WriterWaitsOnLivePipeline`).
- storePending is said never to find a job (worker.go:813-815). That is so while RW mode is fixed.
  After a switch the main loop and the pipeline can both park: one job is then overwritten and never
  released (`NeverReleased`), or a job is released twice, after a stop timeout (`ReleasedTwice`) or
  after a rollback alone (`RollbackReleasesTwice`). No job is released twice while RW mode is fixed
  (`AtMostOnce`), nor in a run without rollback on a worker without stop timeout
  (`AtMostOnceSwitched`). In every run an executed job is released once and for good (`ExecutedOnce`,
  `ExecutedForGood`): what is lost or released twice was never executed.
- -1 means "none" for the scheduler and is also the class High (engine/pkg/def/priority.go:14). NextJob
  yields nothing when High is the best non-empty class, whatever waits behind it; the statement about
  wake-ups is therefore made for the dual queue.
- The write gate of launchRead (worker.go:680) never closes, in any run: a main loop asks for the lock
  only when its pipeline is empty, and a pipeline that asks for it is not at the gate (`WriteGateOpen`).
- GenSeq yields 0, which Remove takes for "no call", once in 2^64 calls (`IdsDistinct`).

## Model

| member | source | states |
|---|---|---|
| RWLocal.LocalKept | engine/pkg/actor/mailbox/worker.go:176-832 | every step of a worker's goroutines keeps its invariant (counters, lock ownership, life cycle, the one place of each accepted job) and touches nothing other workers hold |
| RWSwitch.StepSound | engine/pkg/actor/mailbox/worker.go:176-832 | every step of every goroutine and of SetRWEnabled keeps the global invariant |
| RWTheorems.CountersAlways | engine/pkg/actor/mailbox/worker.go:612-721 | in every run readsDispatched - readsLaunched is the reads in readCh plus those held uncounted, also when a full channel bumps both |
| RWTheorems.ReadsBesideWrite | engine/pkg/actor/mailbox/worker.go:754-809 | every run: while a write holds the lock, every job its worker dequeued earlier has finished, will never execute, was parked or lost by storePending, or is the downgraded read in execWrite on the pipeline; the last three only after a flip, and with RW mode on only after a rollback |
| RWTheorems.ReadsBeforeWrite | engine/pkg/actor/mailbox/worker.go:754-809 | RW mode on and no rollback so far, stop timeouts included: while a write holds the lock, every job its worker dequeued earlier has finished or will never execute |
| RWTheorems.ReadsBeforeDrain | engine/pkg/actor/mailbox/worker.go:249-363 | every run: while a drain settles residual jobs under the lock, or after no stop timeout, every dequeued job is settled, but for the parked one, the one being drained and, after a flip, one that storePending overwrote |
| RWTheorems.LockedRunsExclude | engine/pkg/actor/mailbox/worker.go:249-809 | every run: two ExecuteJobs of main loops, drains or pipelines overlap only if one is a main loop that executes without the lock, serially or in a drain that took none; two pipelines never do |
| RWTheorems.WritesExcludeAll | engine/pkg/actor/mailbox/worker.go:249-809 | RW mode on and never switched: an ExecuteJob of a main loop or a drain overlaps no other ExecuteJob on any worker |
| RWKinds.OnlyReadsLeaveMain | engine/pkg/actor/mailbox/worker.go:590-752 | every run: a job past the kind test of execWithRW, in readCh, with the pipeline or with a read goroutine is a read |
| RWKinds.WritesRunOnMain | engine/pkg/actor/mailbox/worker.go:365-809 | every run: a job that is not a read is in ExecuteJob only on its worker's main loop |
| RWKinds.WriteRunsAlone | engine/pkg/actor/mailbox/worker.go:249-809 | RW mode on and no rollback so far: while a job that is not a read is in ExecuteJob, no other ExecuteJob runs on any worker |
| RWTheorems.ReadsExcludeOthers | engine/pkg/actor/mailbox/worker.go:698-752 | in every run a read goroutine's ExecuteJob overlaps only other read goroutines, except, after a rollback, a main loop that runs without the lock |
| RWTheorems.ReadsBounded | engine/pkg/actor/mailbox/worker.go:684-729 | with a semaphore no more read goroutines execute than it has tokens |
| RWTheorems.TimedOutDrainExecutesNothing | engine/pkg/actor/mailbox/worker.go:304-363 | every run, after a stop timeout: no step of the worker's main loop, which is its drain by then, calls ExecuteJob, and whatever such a step settles is dropped silently in an unsafe drain and discarded in any other |
| RWTheorems.UnsafeDrainSilent | engine/pkg/actor/mailbox/worker.go:304-363 | RW mode on and never switched, after a stop timeout: whatever a step of the main loop settles is dropped silently, and none calls business code |
| RWTheorems.NothingAcceptedAfterStop | engine/pkg/actor/mailbox/worker.go:176-223 | close is linearised with admission: after BeginStop no continuation of any run accepts another job |
| RWTheorems.ExactlyOnce | engine/pkg/actor/mailbox/worker.go:249-401 | RW mode fixed, no stop timeout: when run returns every accepted job is settled and was released exactly once, and no goroutine of the worker is left |
| RWTheorems.AtMostOnce | engine/pkg/actor/mailbox/worker.go:811-832 | RW mode fixed, timeouts or not: no job is released twice or before it is settled, and storePending never finds a job |
| RWParked.AtMostOnceSwitched | engine/pkg/actor/mailbox/worker.go:767-832 | every run without rollback, switches and torn tests included, on a worker without stop timeout: a job is released once when it is settled and never again |
| RWParked.ExactlyOnceSwitched | engine/pkg/actor/mailbox/worker.go:249-379 | the same runs, when run has returned: every accepted job is settled and released exactly once, except one that storePending overwrote, which is not released |
| RWExecuted.ExecutedOnce | engine/pkg/actor/mailbox/worker.go:482-576 | every run, rollbacks and stop timeouts included: an executed job is released exactly once, and a job that is not settled not at all |
| RWExecuted.ExecutedForGood | engine/pkg/actor/mailbox/worker.go:482-576 | every run: in every continuation an executed job stays executed; it is never discarded, lost or executed again |
| RWExecuted.SettledOrOverwritten | engine/pkg/actor/mailbox/worker.go:249-379 | every run: when run has returned without a stop timeout, every accepted job is settled, or storePending overwrote it and it was never executed |
| RWFate.EveryStep | engine/pkg/actor/mailbox/worker.go:249-832 | every run, every step, every job: a step that ends an ExecuteJob settles its job as executed; a step that gives a job up (cancelled, rejected, found parked, late, or residual in a drain that may not execute) settles it as discarded, silently only for late reads and in the unsafe drain; each releases it once, and no other step settles or releases it |
| RWFate.WhyNotExecuted | engine/pkg/actor/mailbox/worker.go:249-832 | every run: a job settled without execution was cancelled, met a full readCh, was late after the stop deadline, was found parked by storePending, or was residual in a drain that may not execute, at some step of the run |
| RWFate.OpenWorkerExecutes | engine/pkg/actor/mailbox/worker.go:365-832 | every run: on a worker that nobody stopped and where nothing was cancelled, every settled job was executed, but for reads that met a full readCh |
| RWAlone.Routes | engine/pkg/actor/mailbox/worker.go:365-382 | execWithRW and run: to the pipeline exactly reads while RW mode is on and not being switched off, to serial execution everything while it is off, to execWrite the rest |
| RWAlone.Dispatches | engine/pkg/actor/mailbox/worker.go:612-639 | dispatchRead: a read goes into readCh when there is room, and is discarded and counted as launched when there is none |
| RWAlone.WritesOnMain | engine/pkg/actor/mailbox/worker.go:759-809 | with all reads launched and the lock free execWrite executes its job, and lock and writeRequested are as before |
| RWAlone.WritesOnPipe | engine/pkg/actor/mailbox/worker.go:759-809 | the same for a downgraded read on the pipeline |
| RWAlone.Receives | engine/pkg/actor/mailbox/worker.go:647-698 | through open gates the pipeline takes the first read of readCh to the read lock |
| RWAlone.Spawns | engine/pkg/actor/mailbox/worker.go:714-752 | with the mode on it registers, counts and spawns the read, which takes over token and read lock |
| RWAlone.Downgrades | engine/pkg/actor/mailbox/worker.go:700-712 | with the mode off it gives token and lock back, counts the read and turns it into a write |
| RWAlone.ReadExecutes | engine/pkg/actor/mailbox/worker.go:722-752 | a read goroutine that is not cancelled executes its job |
| RWAlone.ReadLeaves | engine/pkg/actor/mailbox/worker.go:722-740 | and gives back token, read lock, inflight count and group |
| RWAlone.DrainsAll | engine/pkg/actor/mailbox/worker.go:249-363 | alone, a closed worker without reads in flight settles pendingJob and every queued job, executed under DrainExecute unless the stop timed out, takes the lock exactly when RW mode is on, something is left and the stop did not time out, and ends with the lock free |
| RWAlone.ServesSerially | engine/pkg/actor/mailbox/worker.go:365-382 | with RW mode off a queued job is executed |
| RWAlone.ServesWrite | engine/pkg/actor/mailbox/worker.go:365-809 | in RW mode a queued write is executed once the reads before it are launched and the lock is free; so is every job while the mode is being switched off |
| RWAlone.ServesRead | engine/pkg/actor/mailbox/worker.go:365-752 | in RW mode a queued read is executed by a goroutine of its own, and nothing is left but one more dispatched and one more launched |
| RWAlone.LeadsInRun | engine/pkg/actor/mailbox/worker.go:249-832 | from every reachable state, what the goroutines of a worker achieve alone is achieved by some run |
| RWProgress.MainBlocks | engine/pkg/actor/mailbox/worker.go:249-401 | every run: a main loop is blocked exactly in the waits of its drain or when it is done |
| RWProgress.PipeBlocks | engine/pkg/actor/mailbox/worker.go:647-712 | a pipeline is blocked exactly on an empty open readCh, at the read lock while a writer has it, or when it is over |
| RWProgress.ReadNeverBlocks | engine/pkg/actor/mailbox/worker.go:722-752 | a live read goroutine is never blocked |
| RWProgress.AdmissionExact | engine/pkg/actor/mailbox/worker.go:176-223 | a worker accepts a new job exactly while it is open; the job is then queued and nothing else changes |
| RWProgress.StopExact | engine/pkg/actor/mailbox/worker.go:384-401 | BeginStop is always possible, closes its worker and changes nothing else |
| RWProgress.PublishExact | engine/pkg/actor/mailbox/worker_pool.go:485-618 | a worker joins open and empty, and workers leave exactly when run has returned in each, while no switch is under way |
| RWProgress.SwitchGoesOn | engine/pkg/actor/mailbox/worker_pool.go:643-748 | every run: wherever SetRWEnabled(false) stands, once the published workers are quiet and nobody else has the lock it goes on to turn the mode off and return nil, also after failed passes |
| RWProgress.SwitchSucceedsAlone | engine/pkg/actor/mailbox/worker_pool.go:643-748 | on quiet workers it succeeds from the start, whatever the published set |
| RWProgress.GivesUpLate | engine/pkg/actor/mailbox/worker_pool.go:643-748 | it starts whenever RW mode is on and decides to fail only where a deadline has passed |
| RWTheorems.SwitchSucceeded | engine/pkg/actor/mailbox/worker_pool.go:643-748 | after SetRWEnabled(false) returned nil no read goroutine of a published worker is live and none anywhere executes or holds the read lock |
| RWTheorems.SwitchFailed | engine/pkg/actor/mailbox/worker_pool.go:643-674 | after it returned an error enabled is true and disabling is false |
| RWTheorems.NoReadSpawnedAfterSwitch | engine/pkg/actor/mailbox/worker.go:698-752 | after success no continuation spawns a read goroutine on any worker, old or new |
| RWTheorems.StragglersBounded | engine/pkg/actor/mailbox/worker.go:590-712 | every run: a worker downgrades at most one read per flip of SetRWEnabled(false), and one more if its own test was torn (workers removed after a stop timeout excepted) |
| RWTheorems.OneStraggler | engine/pkg/actor/mailbox/worker.go:590-712 | without rollback, unless its own test was torn: a worker downgrades at most one read, whose execWrite never waits for its own pipeline (workers removed after a stop timeout excepted) |
| RWTheorems.TwoStragglers | engine/pkg/actor/mailbox/worker.go:590-712 | without rollback, torn tests included: at most two (workers removed after a stop timeout excepted) |
| RWTheorems.WriteGateOpen | engine/pkg/actor/mailbox/worker.go:676-683 | every run: a pipeline at the write gate finds writeRequested 0 |
| RWTheorems.WriterWaitsOnLivePipeline | engine/pkg/actor/mailbox/worker.go:767-794 | every run without rollback, switches and torn tests included: while a writer waits for earlier reads its writeRequested is 0, its distance is exactly what the live pipeline has to launch, and the pipeline can step or waits for a lock that the controller or another worker holds |
| RWTheorems.PipelineClosesDistance | engine/pkg/actor/mailbox/worker.go:668-721 | every step of every party: a launch its pipeline counts brings a waiting writer one closer and ends the wait at distance 1; giving up on a closed worker ends it; any other step leaves the writer waiting at the same distance |
| RWTheorems.TokenRefused | engine/pkg/actor/mailbox/worker.go:684-694 | every run: a pipeline refused a token holds none, and exactly as many live goroutines hold one as the semaphore has |
| RWCounterexamples.TornTest | engine/pkg/actor/mailbox/worker.go:590-613 | a run with a second straggler, in which the first one waits for its own pipeline |
| RWCounterexamples.WaitsForever | engine/pkg/actor/mailbox/worker.go:767-779 | from such a state every continuation that does not stop the worker leaves it waiting |
| RWCounterexamples.SerialOverlapsStraggler | engine/pkg/actor/mailbox/worker.go:365-379 | a run after a successful switch with the straggler and a serial job executing at the same time |
| RWRollback.WriteOverlapsRead | engine/pkg/actor/mailbox/worker_pool.go:658-668 | a run in which a rolled-back switch lets a write execute beside a read with RW mode on |
| RWRollback.DrainOverlapsRead | engine/pkg/actor/mailbox/worker.go:320-357 | a run in which a drain under DrainExecute found the mode off, took no lock, and executes beside a read once the switch has rolled back |
| RWOvertaken.RollbackOvertakes | engine/pkg/actor/mailbox/worker.go:698-809 | a run with a rollback, no torn test and no timeout, that ends with RW mode on and a write executing while a read dequeued before it has still to run |
| RWOvertaken.OvertakenReadRuns | engine/pkg/actor/mailbox/worker.go:698-809 | its continuation: that read executes after the write has finished |
| RWOvertaken.SwitchOvertakes | engine/pkg/actor/mailbox/worker.go:698-809 | a run without rollback in which a write overtakes the straggler while the mode is off |
| RWLeaked.LeakedStragglers | engine/pkg/actor/mailbox/worker.go:255-303 | a run with one flip, no rollback and no torn test in which a worker removed after a stop timeout downgrades three reads |
| RWMutualWait.WriterAndPipelineWait | engine/pkg/actor/mailbox/worker_pool.go:658-668 | a run with a rollback, no torn test and no timeout, that ends with RW mode on and a writer and its own pipeline waiting for each other |
| RWMutualWait.WaitForEachOtherForever | engine/pkg/actor/mailbox/worker.go:767-779 | from such a state, every continuation that does not stop the worker leaves both waiting |
| RWMutualWait.RollbackReleasesTwice | engine/pkg/actor/mailbox/worker.go:811-832 | a run with a rollback, no torn test and no timeout, that releases a job twice |
| RWMutualWait.OnePerFlip | engine/pkg/actor/mailbox/worker.go:698-712 | a run with two flips and no torn test in which one worker downgrades two reads |
| RWStoreRace.ReleasedTwice | engine/pkg/actor/mailbox/worker.go:811-832 | a run with a switch and a stop timeout, without rollback or torn test, that releases a job twice |
| RWStoreRace.NeverReleased | engine/pkg/actor/mailbox/worker.go:811-832 | a run with a switch, without rollback, torn test or timeout, in which run returns and an accepted job was never settled |
| RWShrink.RemovedSettled | engine/pkg/actor/mailbox/worker_pool.go:539-618 | every run, switches and rollbacks included, without a stop timeout of that worker: a worker outside the published set is closed, every job it ever accepted is settled or was overwritten by storePending and never executed, and no continuation changes its ledger |
| RWShrink.KeyOrderAcrossShrink | engine/pkg/actor/mailbox/worker_pool.go:539-618 | the same runs, for a key that a shrink moves: when the new snapshot is published every job of its old worker is settled or will never run, and no continuation adds or runs one there, whoever still holds the old snapshot |
| JumpHash.Hash | engine/pkg/actor/mailbox/dispatch_ring.go:73-85 | terminates, 0 without buckets, else a bucket in [0, n) that is the largest jump point below n |
| JumpHash.DivisorIs | engine/pkg/actor/mailbox/dispatch_ring.go:80-83 | the divisor is one more than the number of whole blocks of 2^33 below the key |
| JumpHash.NextKeyIs | engine/pkg/actor/mailbox/dispatch_ring.go:79 | the next key is the 64-bit remainder of key * 2862933555777941757 + 1 |
| JumpHash.ExactJumpIs | engine/pkg/actor/mailbox/dispatch_ring.go:80-83 | the exact jump is the integer part of b * 2^31 / d |
| JumpHash.KeyThreeOfTen | engine/pkg/actor/mailbox/dispatch_ring.go:73-85 | of ten buckets key 3 has bucket 8 |
| JumpHash.KeySixOfTen | engine/pkg/actor/mailbox/dispatch_ring.go:73-85 | and key 6 has bucket 9 |
| JumpHash.BothBuckets | engine/pkg/actor/mailbox/dispatch_ring.go:63-85 | with two buckets each of them has a key |
| JumpHash.ExactJumpAhead | engine/pkg/actor/mailbox/dispatch_ring.go:80-83 | the rational step floor((b+1) * 2^31 / ((key >> 33) + 1)) is never below b + 1 |
| JumpHash.PointsIncrease | engine/pkg/actor/mailbox/dispatch_ring.go:77-83 | the jump points of a key, which do not depend on n, strictly increase |
| JumpHash.BucketUnique | engine/pkg/actor/mailbox/dispatch_ring.go:73-85 | the bucket of a key and n is unique |
| JumpHash.Consistent | engine/pkg/actor/mailbox/dispatch_ring.go:63-72 | for n <= m the bucket for m is the one for n or lies in [n, m) |
| JumpHash.OneMoreBucket | engine/pkg/actor/mailbox/dispatch_ring.go:63-72 | with one more bucket the key stays or moves to the new one |
| WorkerPool.NewDispatchRing | engine/pkg/actor/mailbox/dispatch_ring.go:38-42 | the ids of the input, strictly increasing |
| WorkerPool.Pool.Publish | engine/pkg/actor/mailbox/worker_pool.go:457-476 | publishes a coherent snapshot of exactly these workers, whatever the order of map iteration |
| WorkerPool.Pool.Route | engine/pkg/actor/mailbox/worker_pool.go:404-429 | finds a worker exactly when one is published: the one in the ring at the bucket of the key, also on the single-worker shortcut, and the lookup never misses |
| WorkerPool.Pool.Start | engine/pkg/actor/mailbox/worker_pool.go:293-310 | publishes InitialWorkerNum workers with consecutive new ids |
| WorkerPool.Pool.AddWorkers | engine/pkg/actor/mailbox/worker_pool.go:512-535 | keeps the old workers and appends the new ids to the ring |
| WorkerPool.Pool.Resize | engine/pkg/actor/mailbox/worker_pool.go:485-618 | growth, clamped to MaxWorkerNum, appends new ids; shrinking cuts the tail of the ring and removes exactly those workers; otherwise nothing changes; coherence is kept; every key stays with its worker, or moves to a new one, or its worker was removed |
| WorkerPool.Pool.Shrink | engine/pkg/actor/mailbox/worker_pool.go:552-618 | removes the largest ids beyond the new size |
| WorkerPool.Pool.Clear | engine/pkg/actor/mailbox/worker_pool.go:360-368 | after Wait nothing is published |
| WorkerPool.GrowthMoves | engine/pkg/actor/mailbox/worker_pool.go:491-536 | growth leaves every key where it is or moves it to a new worker |
| WorkerPool.ShrinkMoves | engine/pkg/actor/mailbox/worker_pool.go:539-618 | shrinking moves only keys whose worker was removed |
| WorkerPool.Pool.WithinBudget | engine/pkg/actor/mailbox/worker_pool.go:485-618 | in every state of a bounded pool that scales, or that nobody resized, the queue layout of the published workers is within MaxQueueStorageBytes |
| WorkerPool.NewBoundedPool | engine/pkg/actor/mailbox/worker_pool.go:171-200 | a pool is built exactly for the configurations normalizeQueueSpec accepts, and carries that configuration, its InitialWorkerNum and its MaxWorkerNum |
| QueueSpec.CheckedAdd | engine/pkg/actor/mailbox/worker_pool.go:1219-1224 | succeeds exactly when the sum fits 64 bits, with the exact sum |
| QueueSpec.CheckedMul | engine/pkg/actor/mailbox/worker_pool.go:1225-1230 | succeeds exactly when the product fits 64 bits, with the exact product |
| QueueSpec.CheckLayout | engine/pkg/actor/mailbox/worker_pool.go:1180-1217 | accepts exactly the layouts of powers of two from 2 on whose exact total is within the budget and overflows nowhere, and reports that total |
| QueueSpec.CheckClasses | engine/pkg/actor/mailbox/worker_pool.go:1136-1157 | accepts exactly the class lists with all three system classes and a user class |
| QueueSpec.Capacities | engine/pkg/actor/mailbox/worker_pool.go:1108-1146 | a configured capacity is kept, a missing one is the default |
| QueueSpec.Budget | engine/pkg/actor/mailbox/worker_pool.go:1163-1165 | a configured budget is kept, a missing one is 64 MiB |
| QueueSpec.Normalize | engine/pkg/actor/mailbox/worker_pool.go:1090-1217 | a bounded configuration is accepted exactly when its classes and scaling are consistent and its layout acceptable, defaults applied |
| QueueSpec.FewerWorkers | engine/pkg/actor/mailbox/worker_pool.go:1166-1216 | fewer workers than checked stay within the budget |
| Bits.MaskIsRemainder | engine/pkg/utils/boundedmpsc/queue.go:57-71 | masking with 2^k - 1 is the remainder modulo 2^k |
| Bits.PowerTest | engine/pkg/utils/boundedmpsc/queue.go:43-45 | c & (c - 1) is 0 exactly for powers of two |
| RingQueue.MaskedCursor | engine/pkg/utils/boundedmpsc/queue.go:57-75 | a cursor that wrapped modulo 2^64 still masks to the slot of the unwrapped one |
| RingQueue.New | engine/pkg/utils/boundedmpsc/queue.go:39-47 | an empty queue of exactly that capacity for powers of two from 2 on, the right error otherwise |
| RingQueue.Queue.Push | engine/pkg/utils/boundedmpsc/queue.go:51-61 | appends, or refuses exactly when full; slots outside the live window stay zero, cursors may wrap |
| RingQueue.Queue.Pop | engine/pkg/utils/boundedmpsc/queue.go:64-77 | takes the oldest value and clears its slot, or answers zero and false exactly when empty |
| RingQueue.Queue.PopBatch | engine/pkg/utils/boundedmpsc/queue.go:82-95 | is that many pops; the rest of dst is unchanged |
| RingQueue.Queue.NothingRetained | engine/pkg/utils/boundedmpsc/queue.go:51-95 | between calls every element of the array is a queued value in its slot or the zero value |
| RingQueue.PopTimesSplits | engine/pkg/utils/boundedmpsc/queue.go:79-95 | k pops of a FIFO sequence take its first k values and leave the rest |
| RingQueue.Queue.Empty | engine/pkg/utils/boundedmpsc/queue.go:99-103 | true exactly when no value is queued |
| RingQueue.Queue.Len | engine/pkg/utils/boundedmpsc/queue.go:108-112 | the number of queued values |
| TreeMap.Map.Put | engine/pkg/utils/maps/maps.go:65-104 | refines the map update and keeps links, search order, no red-red edge, equal black height, black root and size |
| TreeMap.Map.Remove | engine/pkg/utils/maps/maps.go:119-147 | refines the map delete, missing keys included, and keeps the same |
| TreeMap.Map.Get | engine/pkg/utils/maps/maps.go:109-115 | finds exactly the keys of the map, with their value |
| TreeMap.Map.Lookup | engine/pkg/utils/maps/maps.go:306-320 | the node of the key exactly when the map has it, else nil and the place where it is missing |
| TreeMap.Map.Floor | engine/pkg/utils/maps/maps.go:209-229 | the greatest key not above the argument, exactly when one exists |
| TreeMap.Map.Ceiling | engine/pkg/utils/maps/maps.go:238-257 | the least key not below the argument, exactly when one exists |
| TreeMap.Map.Empty | engine/pkg/utils/maps/maps.go:150-152 | true exactly for the empty map |
| TreeMap.Map.Clear | engine/pkg/utils/maps/maps.go:260-263 | the empty map |
| TreeMap.Map.ReplaceNode | engine/pkg/utils/maps/maps.go:368-381 | the one pointer of the parent, or the root, and the new node's parent pointer change, nothing else |
| TreeMap.Map.RotateLeft | engine/pkg/utils/maps/maps.go:346-355 | the linked nodes become the rotated tree at the same place |
| TreeMap.Map.RotateRight | engine/pkg/utils/maps/maps.go:357-366 | the mirror image |
| TreeMap.Map.Sibling | engine/pkg/utils/maps/maps.go:336-344 | the other child of the parent, or nil |
| TreeMap.Map.Uncle | engine/pkg/utils/maps/maps.go:329-334 | the sibling of the parent, or nil |
| TreeMap.Map.InsertCase1 | engine/pkg/utils/maps/maps.go:383-389 | the linked nodes become the rebalanced tree of the red focus |
| TreeMap.Map.InsertCase2 | engine/pkg/utils/maps/maps.go:391-396 | the same below a parent |
| TreeMap.Map.InsertCase3 | engine/pkg/utils/maps/maps.go:398-408 | the same below a red parent |
| TreeMap.Map.InsertCase4 | engine/pkg/utils/maps/maps.go:410-420 | the same with a black uncle: an inner focus is made an outer one first |
| TreeMap.Map.InsertCase5 | engine/pkg/utils/maps/maps.go:422-431 | the recolouring and the rotation at the grandparent |
| TreeMap.Map.DeleteCase1 | engine/pkg/utils/maps/maps.go:443-448 | the nodes above the focus become the path that expects one black node less below it |
| TreeMap.Map.DeleteCase2 | engine/pkg/utils/maps/maps.go:450-462 | the same below a parent: a red sibling is lifted first |
| TreeMap.Map.DeleteCase3 | engine/pkg/utils/maps/maps.go:464-475 | the same with a black sibling: an all-black family passes the problem up |
| TreeMap.Map.DeleteCase4 | engine/pkg/utils/maps/maps.go:477-488 | a red parent and a black family exchange colours |
| TreeMap.Map.DeleteCase5 | engine/pkg/utils/maps/maps.go:490-508 | an inner red nephew is made an outer one |
| TreeMap.Map.DeleteCase6 | engine/pkg/utils/maps/maps.go:510-521 | the sibling takes the parent's place and colour |
| TreeMap.Map.MaximumNode | engine/pkg/utils/maps/maps.go:433-441 | the rightmost node of the subtree |
| TreeMap.Map.TakeOver | engine/pkg/utils/maps/maps.go:125-130 | after copying the predecessor's entry, taking the predecessor out deletes the key |
| TreeMap.Map.TakeOut | engine/pkg/utils/maps/maps.go:131-145 | unlinks a node with at most one child after the rebalancing |
| TreeMap.Map.Leftmost | engine/pkg/utils/maps/maps.go:180-188 | the node of the first entry, nil exactly for the empty tree |
| TreeMap.Map.Rightmost | engine/pkg/utils/maps/maps.go:191-199 | the node of the last entry |
| TreeHeap.LeftRotatedStored | engine/pkg/utils/maps/maps.go:346-355 | the pointer updates of a left rotation leave a heap that is the rotated tree, parent links included |
| TreeHeap.RightRotatedStored | engine/pkg/utils/maps/maps.go:357-366 | the mirror image |
| TreeShape.InsertFixEntries | engine/pkg/utils/maps/maps.go:383-431 | the insert cases keep the in-order entries |
| TreeShape.InsertFixBalanced | engine/pkg/utils/maps/maps.go:383-431 | from a tree that is red-black but for a red focus under a red parent they make a red-black tree |
| TreeShape.DeleteFixEntries | engine/pkg/utils/maps/maps.go:443-521 | the delete cases keep what comes before and after the focus |
| TreeShape.DeleteFixFits | engine/pkg/utils/maps/maps.go:443-521 | afterwards the rest of the tree fits a focus with one black node less, even a red one unless it is the root |
| TreeShape.DeletedBalanced | engine/pkg/utils/maps/maps.go:131-145 | taking out a node with at most one child leaves a red-black tree |
| TreeShape.DeletedEntries | engine/pkg/utils/maps/maps.go:131-145 | and removes exactly its entry |
| TreeShape.PlugBalanced | engine/pkg/utils/maps/maps.go:383-521 | a tree is red-black exactly when the focus is balanced and its surroundings fit |
| TreeShape.LogarithmicDepth | engine/pkg/utils/maps/maps.go:383-521 | a red-black tree with n entries has at most 2 log2(n + 1) levels |
| TreeIterator.Iterator.Next | engine/pkg/utils/maps/iterator.go:25-62 | moves to the next in-order index or past the end; true exactly when there is an entry there |
| TreeIterator.Iterator.Prev | engine/pkg/utils/maps/iterator.go:67-104 | moves to the previous index or before the first |
| TreeIterator.Iterator.First | engine/pkg/utils/maps/iterator.go:135-138 | moves to index 0 |
| TreeIterator.Iterator.Last | engine/pkg/utils/maps/iterator.go:143-146 | moves to the last index |
| TreeIterator.Iterator.Key | engine/pkg/utils/maps/iterator.go:114-116 | the key at the current index |
| TreeIterator.Iterator.Value | engine/pkg/utils/maps/iterator.go:108-110 | the value at the current index |
| TreeIterator.Keys | engine/pkg/utils/maps/maps.go:160-167 | every key once in ascending order, never written out of range |
| Parking.StepInv | engine/pkg/utils/idle/idle.go:166-203 | each step keeps: whatever changed behind the worker's back since its last look is notified or will be |
| Parking.NoLostWakeup | engine/pkg/utils/idle/idle.go:166-203 | while the worker waits uncalled there is no notification, every queued job's submitter has still to call Wake, and so has BeginStop if the worker is closed |
| Parking.StopEndsParking | engine/pkg/actor/mailbox/worker.go:384-401 | after BeginStop's Wake a waiting worker leaves the wait and then the loop |
| Parking.NeverStuckWhenStopped | engine/pkg/actor/mailbox/worker.go:366-401 | a closed worker whose BeginStop has returned is not waiting uncalled |
| Parking.NeverStuckWithWork | engine/pkg/actor/mailbox/worker.go:176-223 | nor is a worker with a queued job whose SubmitJob has returned, in either queue |
| Parking.WakeReaches | engine/pkg/utils/idle/idle.go:193-203 | a Wake is possible exactly while it is due, leaves a notification, and a waiting worker leaves the wait with its next step |
| Parking.SubmitExact | engine/pkg/actor/mailbox/worker.go:176-223 | until BeginStop a new job is queued behind the others of its kind and its Wake becomes due |
| Parking.ServesInOrder | engine/pkg/actor/mailbox/queue_manager_dual.go:52-64 | alone, an open worker executes the system jobs, then the user jobs, each in the order of arrival |
| Parking.ParksWhenDone | engine/pkg/utils/idle/idle.go:166-191 | and then parks, unless it is notified |
| Parking.EveryJobServed | engine/pkg/actor/mailbox/worker.go:365-382 | every run: wherever an open worker stands, it executes every queued job whose SubmitJob has returned |
| CallMonitor.RoundUp | engine/pkg/utils/util/pow2.go:8-18 | the least power of two that is not below the argument |
| CallMonitor.RpcMonitor.BucketIndex | engine/pkg/monitor/monitor.go:83-89 | the masked id is the id modulo the number of buckets |
| CallMonitor.RpcMonitor.Add | engine/pkg/monitor/monitor.go:38-42 | the buckets refine one map: update |
| CallMonitor.RpcMonitor.Del | engine/pkg/monitor/monitor.go:44-53 | delete, returning what was there |
| CallMonitor.RpcMonitor.Get | engine/pkg/monitor/monitor.go:28-36 | lookup |
| CallMonitor.RpcMonitor.Clear | engine/pkg/monitor/monitor.go:55-62 | releases and removes exactly the calls of one residue |
| CallMonitor.IdsDistinct | engine/pkg/monitor/monitor.go:232-234 | two calls get the same id exactly when a multiple of 2^64 lies between their numbers; the first 2^64 - 1 ids are not 0 |
| CallRace.StepInv | engine/pkg/monitor/monitor.go:236-287 | each step keeps: an issued call is with its adder, in the table or obtained, exactly one of them |
| CallRace.AtMostOneOwner | engine/pkg/monitor/monitor.go:175-335 | in every interleaving of Add, response, timeout, cancel and Stop at most one party obtains a call's state, and then it is in no table |
| CallRace.HandsOver | engine/pkg/monitor/monitor.go:44-62 | every step, every call: its state changes hands exactly when its Add fails, when a delete finds it in the table, or when Stop clears its bucket; it is in the table exactly from its own insert until then |
| CallRace.Registers | engine/pkg/monitor/monitor.go:278-287 | a response, cancel or timeout gets to its delete exactly on an open monitor and for an id that is not 0 |
| CallRace.Possible | engine/pkg/monitor/monitor.go:175-335 | which steps are possible when |
| CallRace.ResponseObtains | engine/pkg/monitor/monitor.go:278-298 | undisturbed, a response to a pending call of an open monitor obtains it |
| CallRace.TimeoutObtains | engine/pkg/monitor/monitor.go:246-263 | so does its timeout |
| CallRace.AddInserts | engine/pkg/monitor/monitor.go:236-276 | undisturbed, an Add on an open monitor arms the timer and leaves the call in the table |
| CallRace.StopReclaims | engine/pkg/monitor/monitor.go:175-191 | Stop alone obtains every call of the table, each once |
| PriorityScheduler.Scheduler.NextPriority | engine/pkg/actor/mailbox/scheduler.go:144-162 | all strategies answer the first class, except that the weighted one answers -1 for a repeated class without a positive weight; counters are reset first and the answered class is charged once when it is repeated, under the weighted and fair strategies only |
| PriorityScheduler.Scheduler.WeightedPriority | engine/pkg/actor/mailbox/scheduler.go:165-212 | the weighted part of that: the reset counters with one more for the answer of a repeated class |
| PriorityScheduler.Scheduler.FairPriority | engine/pkg/actor/mailbox/scheduler.go:215-255 | the first class always, its counter charged when it is repeated |
| PriorityScheduler.Scheduler.ResetCountersIfNeeded | engine/pkg/actor/mailbox/scheduler.go:259-286 | shifts all counters down together, to a smallest counter of 0, exactly when one is above 10^10 |
| PriorityQueues.PriorityQueueManager.Submit | engine/pkg/actor/mailbox/queue_manager_priority.go:118-148 | queues the job in its class or in the fallback class with its priority rewritten; refused exactly when that queue is full, with queues and priority as before |
| PriorityQueues.PriorityQueueManager.NextJob | engine/pkg/actor/mailbox/queue_manager_priority.go:152-182 | the head of the smallest non-empty class; nothing exactly when all are empty or that class is -1 |
| PriorityQueues.PriorityQueueManager.DrainAll | engine/pkg/actor/mailbox/queue_manager_priority.go:194-204 | hands over all jobs by class and order of arrival and leaves nothing |
| PriorityQueues.ByClassHolds | engine/pkg/actor/mailbox/queue_manager_priority.go:194-204 | that list has the jobs of the listed classes and no others |
| PriorityQueues.DualQueueManager.Submit | engine/pkg/actor/mailbox/queue_manager_dual.go:38-48 | classes below 0 go to the system queue, refused exactly when full |
| PriorityQueues.DualQueueManager.NextJob | engine/pkg/actor/mailbox/queue_manager_dual.go:52-64 | system jobs first, each queue in order, nothing exactly when both are empty |
| PriorityQueues.DualQueueManager.DrainAll | engine/pkg/actor/mailbox/queue_manager_dual.go:79-93 | all system jobs, then all user jobs |
| MiddlewareChain.Chain.Remove | engine/pkg/actor/mailbox/middleware_chain.go:203-217 | removes the first of that name, if any |
| MiddlewareChain.Chain.ExecuteOnReceive | engine/pkg/actor/mailbox/middleware_chain.go:220-257 | runs the prefix up to the first middleware that does not continue, records it with the list it saw, and refuses exactly when that one rejects or panics |
| MiddlewareChain.Chain.ExecuteOnComplete | engine/pkg/actor/mailbox/middleware_chain.go:271-298 | visits exactly that prefix of that list in reverse and returns the context |
| MiddlewareChain.Chain.ExecuteFrameworkCleanup | engine/pkg/actor/mailbox/middleware_chain.go:311-338 | the same with framework cleanup only |
| MiddlewareChain.PostJob | engine/pkg/actor/mailbox/mailbox.go:111-154 | accepts exactly an admitted, dispatched job that no middleware it meets rejects or panics on; the three refusals notify, complete and release in this order; an accepted job carries the context of its reception |
| MiddlewareChain.SafeExec | engine/pkg/actor/mailbox/worker.go:482-576 | execute or notify, complete, release, by the reception's list whatever the chain has become |
| MiddlewareChain.DiscardExec | engine/pkg/actor/mailbox/worker.go:422-448 | notify and complete, or cleanup only in the unsafe drain, then release |
| MiddlewareChain.RejectRead | engine/pkg/actor/mailbox/worker.go:630-638 | the reject path of dispatchRead: notify, complete, release |
| MiddlewareChain.OverwritePending | engine/pkg/actor/mailbox/worker.go:820-830 | storePending on a job it finds: notify and release, without completion hooks |
| MiddlewareChain.Finish | engine/pkg/actor/mailbox/worker.go:422-832 | each of the six endings produces its events by the list the reception saw, whatever the chain has become |
| MiddlewareChain.LiveJob | engine/pkg/actor/mailbox/mailbox.go:100-154 | PostJob, then any Adds and Removes on the chain, then exactly one ending: the events of the job are the specified life, have its profile and its order |
| Middleware.LifeProfile | engine/pkg/actor/mailbox/mailbox.go:100-154 | over a job's whole life: released once, its context returned once if there is one (never for an overwritten job), executed or notified but never both (neither only in the unsafe drain), completions in reverse of the receptions |
| Middleware.RejectsIs | engine/pkg/actor/mailbox/middleware_chain.go:220-257 | a reception refuses exactly when some middleware rejects or panics and all before it continue |
| Middleware.RanIs | engine/pkg/actor/mailbox/middleware_chain.go:236-257 | the prefix that runs ends with the first middleware that does not continue |
| Middleware.StopsOnce | engine/pkg/actor/mailbox/middleware_chain.go:236-257 | there is only one such prefix |
| Middleware.LifeOrdered | engine/pkg/actor/mailbox/mailbox.go:100-154 | in every life the receptions come first, then the execution or the notification, then the hooks, then the return of the context, and last the release |
| Middleware.ReversedAt | engine/pkg/actor/mailbox/middleware_chain.go:286-297 | the k-th completed middleware is the k-th from the end of those that received |
| Middleware.CleaningHalves | engine/pkg/actor/mailbox/middleware_chain.go:326-337 | framework cleanup visits the second half of a list before the first |
| Middleware.CleaningOne | engine/pkg/actor/mailbox/middleware_chain.go:326-337 | and visits a single handler exactly when it has a cleanup |

## Left out

- RWTheorems.ExactlyOnce: for runs in which RW mode is not switched, because `NeverReleased` refutes it otherwise; `ExactlyOnceSwitched` and `SettledOrOverwritten` are what holds then.
- RWTheorems.AtMostOnce: for runs in which RW mode is not switched, because `ReleasedTwice` and `RollbackReleasesTwice` refute it otherwise; `AtMostOnceSwitched` is what holds then.
- RWParked.AtMostOnceSwitched: leaves out runs with a rollback, which `RollbackReleasesTwice` shows to break it, and workers with a stop timeout, which `ReleasedTwice` does.
- RWTheorems.OneStraggler: leaves out torn tests, which `TornTest` shows to break it, and runs with a rollback, which `OnePerFlip` and `WriterAndPipelineWait` do; `StragglersBounded` is what holds in every run.
- RWTheorems.WriterWaitsOnLivePipeline: leaves out runs with a rollback, which `WriterAndPipelineWait` shows to break it.
- RWTheorems.StragglersBounded: leaves out workers that were removed after a stop timeout, which `LeakedStragglers` shows to break it, as it does `OneStraggler` and `TwoStragglers`.
- RWTheorems.ReadsBeforeWrite: leaves out what `RollbackOvertakes` and `SwitchOvertakes` show to break it; `ReadsBesideWrite` is what holds in every run.
- RWTheorems.WritesExcludeAll: leaves out runs with a switch, which `SerialOverlapsStraggler` and `WriteOverlapsRead` show to break it; `LockedRunsExclude` and `ReadsExcludeOthers` are what holds in every run.
- RWTheorems.UnsafeDrainSilent: leaves out runs with a switch, in which the drain may notify; `TimedOutDrainExecutesNothing` is what holds in every run. Neither covers a leaked pipeline or read goroutine, which may still execute.
- WorkerPool.Pool.WithinBudget: leaves out a pool without ScalingStrategy that somebody resizes, because resizeWorkers clamps growth to MaxWorkerNum only when there is one; only the auto scaler calls it.
- Growth by several workers is several growth steps in the worker protocol; resizeWorkers publishes them with one store.
- JumpHash.Hash: the floating-point step is any function that is not below b + 1; rounding and the statistical claims are not modelled.
- CallRace.AtMostOneOwner: that every call is obtained in the end is not claimed (`ResponseObtains`, `TimeoutObtains` and `StopReclaims` are about one party undisturbed); the timer is armed before the insert and Stop wakes nobody.
- Weak memory: atomics are sequentially consistent; RWMutex, channels and WaitGroups are ideal; a blocked Lock does not hold back new readers.
- Counters, worker ids and readsDispatched/readsLaunched are unbounded; 64-bit wrap-around is modelled in the ring queue and GenSeq only.
- In the worker protocol the queue hands out any queued job; its order is in `PriorityQueues` and `RingQueue`, its wake-ups in `Parking`.
- Physical queues inside the priority and dual managers are FIFO sequences with a capacity, not ring buffer objects; update in place of the buffers is in `RingQueue`.
- Timers, deadlines and backoff are free choices; durations, statistics, logging, the watchdog and the read goroutine pool are not modelled.
- The contexts' `data` map, panics inside completion hooks, and pooling of contexts and jobs beyond "returned once" and "released once".
- Unbounded queues, GetJobLen, IsEmpty, Values, String and serialisation of the map, and NaN keys, which have no total order.
- Per-key order across growth, which the pool does not promise.
- The message bus, remote senders, gRPC, NATS, rpcx, storage, HTTP, configuration, profiling and example programs.
