/** The middleware chain with its copy-on-write list and contexts, and the paths of a job through
    PostJob, safeExecInternal and discardExec, against the event sequences of Middleware. */
module MiddlewareChain {
  import opened Middleware

  /** MiddlewareContext: the list seen by OnReceive and how many of it ran. */
  class Context {
    var snapshot: seq<Handler>
    var executed: nat

    constructor (snapshot: seq<Handler>)
      ensures this.snapshot == snapshot && executed == 0
    {
      this.snapshot, executed := snapshot, 0;
    }
  }

  /** A job with its context and the history of what was done to it. */
  class Job {
    var mctx: Context?
    ghost var log: seq<Event>

    constructor ()
      ensures mctx == null && log == []
    {
      mctx, log := null, [];
    }
  }

  /** The job carries the context of a reception of `chain` in which `n` handlers ran. */
  ghost predicate Carries(job: Job, chain: seq<Handler>, n: nat)
    reads job, job.mctx
  {
    && n <= |chain| && (job.mctx == null <==> chain == [])
    && (job.mctx != null ==> job.mctx.snapshot == chain && job.mctx.executed == n)
  }

  /** The handlers a completion visits: the prefix that received, of the snapshot; the current
      list and all of it only for a context without a snapshot or count. */
  ghost function Visited(snapshot: seq<Handler>, executed: nat, current: seq<Handler>): seq<Handler>
  {
    var list := if snapshot != [] then snapshot else current;
    if executed <= |list| then list[..executed] else list
  }

  // ---- Steps of a reception

  lemma ReceivesNothing(mws: seq<Handler>, verdict: Handler -> Verdict)
    ensures Receives(mws[..0]) == [] && mws[0..] == mws
    ensures mws == [] ==> Ran(mws, verdict) == 0 && !Rejects(mws, verdict)
  {
  }

  lemma ReceivesMore(mws: seq<Handler>, verdict: Handler -> Verdict, i: nat)
    requires i < |mws| && Ran(mws, verdict) == i + Ran(mws[i..], verdict)
    ensures Receives(mws[..i + 1]) == Receives(mws[..i]) + [Received(mws[i])]
    ensures verdict(mws[i]).Continue? ==> Ran(mws, verdict) == i + 1 + Ran(mws[i + 1..], verdict)
    ensures !verdict(mws[i]).Continue? ==>
              && Ran(mws, verdict) == i + 1
              && (Rejects(mws, verdict) <==> !verdict(mws[i]).Skip?)
  {
    hide Ran, Receives;
    ReceivesSnoc(mws, i);
    RanUnfolds(mws[i..], verdict);
    assert mws[i..][1..] == mws[i + 1..];
  }

  lemma ReceivesSnoc(mws: seq<Handler>, i: nat)
    requires i < |mws|
    ensures Receives(mws[..i + 1]) == Receives(mws[..i]) + [Received(mws[i])]
  {
  }

  lemma RanUnfolds(mws: seq<Handler>, verdict: Handler -> Verdict)
    requires mws != []
    ensures Ran(mws, verdict) == if verdict(mws[0]).Continue? then 1 + Ran(mws[1..], verdict) else 1
  {
  }

  lemma ReceivesAll(mws: seq<Handler>, verdict: Handler -> Verdict)
    requires Ran(mws, verdict) == |mws| + Ran(mws[|mws|..], verdict)
    requires forall k :: 0 <= k < |mws| ==> verdict(mws[k]).Continue?
    ensures Ran(mws, verdict) == |mws| && mws[..|mws|] == mws && !Rejects(mws, verdict)
  {
  }

  class Chain {
    var mws: seq<Handler>

    constructor (mws: seq<Handler>)
      ensures this.mws == mws
    {
      this.mws := mws;
    }

    method Add(h: Handler)
      modifies this
      ensures mws == old(mws) + [h]
    {
      mws := mws + [h];
    }

    /** Removes the first handler of that name. */
    method Remove(name: string) returns (found: bool)
      modifies this
      ensures found <==> exists i :: 0 <= i < |old(mws)| && old(mws)[i].name == name
      ensures !found ==> mws == old(mws)
      ensures found ==> exists i :: && 0 <= i < |old(mws)| && old(mws)[i].name == name
                                    && (forall k :: 0 <= k < i ==> old(mws)[k].name != name)
                                    && mws == old(mws)[..i] + old(mws)[i + 1..]
    {
      for i := 0 to |mws|
        invariant mws == old(mws) && forall k :: 0 <= k < i ==> mws[k].name != name
      {
        if mws[i].name == name {
          mws := mws[..i] + mws[i + 1..];
          return true;
        }
      }
      return false;
    }

    method ExecuteOnReceive(job: Job, verdict: Handler -> Verdict) returns (rejected: bool, mctx: Context?)
      modifies job`log
      ensures job.log == old(job.log) + Receives(mws[..Ran(mws, verdict)]) && rejected == Rejects(mws, verdict)
      ensures rejected <==> RefusedBy(mws, verdict)
      ensures mctx == null <==> mws == []
      ensures mctx != null ==> StopsAfter(mws, verdict, mctx.executed)
      ensures mctx != null ==> fresh(mctx) && mctx.snapshot == mws && mctx.executed == Ran(mws, verdict)
    {
      hide RefusedBy, StopsAfter, Ran, Receives, Rejects;
      RejectsIs(mws, verdict);
      RanIs(mws, verdict);
      ReceivesNothing(mws, verdict);
      if mws == [] { return false, null; }
      mctx := new Context(mws);
      for i := 0 to |mws|
        invariant mctx != null && fresh(mctx) && mctx.snapshot == mws
        invariant job.log == old(job.log) + Receives(mws[..i])
        invariant Ran(mws, verdict) == i + Ran(mws[i..], verdict)
        invariant forall k :: 0 <= k < i ==> verdict(mws[k]).Continue?
      {
        job.log := job.log + [Received(mws[i])];
        ReceivesMore(mws, verdict, i);
        match verdict(mws[i])
        case Continue =>
        case Skip =>
          mctx.executed := i + 1;
          return false, mctx;
        case Reject =>
          mctx.executed := i + 1;
          return true, mctx;
        case Panic =>
          mctx.executed := i + 1;
          return true, mctx;
      }
      ReceivesAll(mws, verdict);
      mctx.executed := |mws|;
      return false, mctx;
    }

    method ExecuteOnComplete(mctx: Context?, job: Job)
      modifies job`log, mctx
      ensures mctx == null ==> job.log == old(job.log)
      ensures mctx != null ==>
                job.log == old(job.log) + Completes(Visited(old(mctx.snapshot), old(mctx.executed), mws))
                  + [ContextReturned]
    {
      hide Completes, Cleanups;
      if mctx == null { return; }
      var list := if mctx.snapshot != [] then mctx.snapshot else mws;
      var end := if mctx.executed <= |list| then mctx.executed else |list|;
      ghost var visited := Visited(mctx.snapshot, mctx.executed, mws);
      assert list[..end] == visited;
      var i := end;
      while i > 0
        invariant 0 <= i <= end && job.log + Completes(list[..i]) == old(job.log) + Completes(visited)
      {
        i := i - 1;
        LastHook(list, i);
        job.log := job.log + [Completed(list[i])];
      }
      assert list[..0] == [];
      EmptyHooks();
      job.log := job.log + [ContextReturned];
      mctx.snapshot, mctx.executed := [], 0;
    }

    method ExecuteFrameworkCleanup(mctx: Context?, job: Job)
      modifies job`log, mctx
      ensures mctx == null ==> job.log == old(job.log)
      ensures mctx != null ==>
                job.log == old(job.log) + Cleanups(Visited(old(mctx.snapshot), old(mctx.executed), mws))
                  + [ContextReturned]
    {
      hide Completes, Cleanups;
      if mctx == null { return; }
      var list := if mctx.snapshot != [] then mctx.snapshot else mws;
      var end := if mctx.executed <= |list| then mctx.executed else |list|;
      ghost var visited := Visited(mctx.snapshot, mctx.executed, mws);
      assert list[..end] == visited;
      var i := end;
      while i > 0
        invariant 0 <= i <= end && job.log + Cleanups(list[..i]) == old(job.log) + Cleanups(visited)
      {
        i := i - 1;
        LastHook(list, i);
        if list[i].cleanup { job.log := job.log + [Cleaned(list[i])]; }
      }
      assert list[..0] == [];
      EmptyHooks();
      job.log := job.log + [ContextReturned];
      mctx.snapshot, mctx.executed := [], 0;
    }
  }

  /** PostJob with its three refusals: suspended, rejected by a middleware, not dispatched. `posting`
      is what the suspend policy and DispatchJob answer. */
  method PostJob(chain: Chain, job: Job, verdict: Handler -> Verdict, posting: Posting) returns (ok: bool)
    modifies job
    ensures ok == Accepted(chain.mws, verdict, posting)
    ensures ok <==> posting.Admitted? && posting.dispatched && !RefusedBy(chain.mws, verdict)
    ensures job.log == old(job.log) + PostEvents(chain.mws, verdict, posting)
    ensures ok ==> Carries(job, chain.mws, Ran(chain.mws, verdict)) && (job.mctx == null || fresh(job.mctx))
  {
    hide Receives, EndEvents, Ran, RefusedBy, Completes;
    RejectsIs(chain.mws, verdict);
    if posting.Suspended? {
      job.log := job.log + [Notified];
      job.log := job.log + [JobReleased];
      return false;
    }
    var rejected, mctx := chain.ExecuteOnReceive(job, verdict);
    if rejected {
      Refuse(chain, job, mctx, chain.mws, Ran(chain.mws, verdict));
      return false;
    }
    job.mctx := mctx;
    if !posting.dispatched {
      Refuse(chain, job, mctx, chain.mws, Ran(chain.mws, verdict));
      return false;
    }
    return true;
  }

  /** The common end of the last two: notify, complete, release. */
  method Refuse(chain: Chain, job: Job, mctx: Context?, ghost snapshot: seq<Handler>, ghost n: nat)
    requires n <= |snapshot| && (mctx == null <==> snapshot == [])
    requires mctx != null ==> mctx.snapshot == snapshot && mctx.executed == n
    modifies job`log, mctx
    ensures job.log == old(job.log) + EndEvents(snapshot, n, Discarded)
  {
    hide Completes;
    ghost var hooks := Completes(snapshot[..n]);
    job.log := job.log + [Notified];
    chain.ExecuteOnComplete(mctx, job);
    EmptyHooks();
    assert job.log == old(job.log) + ([Notified] + hooks + Returns(snapshot));
    job.log := job.log + [JobReleased];
  }

  /** The hook of the last handler comes first. */
  lemma LastHook(list: seq<Handler>, i: nat)
    requires i < |list|
    ensures Completes(list[..i + 1]) == [Completed(list[i])] + Completes(list[..i])
    ensures Cleanups(list[..i + 1]) == (if list[i].cleanup then [Cleaned(list[i])] else []) + Cleanups(list[..i])
  {
    assert list[..i + 1][..i] == list[..i];
  }

  /** Without middlewares there are no hooks. */
  lemma EmptyHooks()
    ensures Completes([]) == [] && Cleanups([]) == []
  {
  }

  /** safeExecInternal: a cancelled job is only notified; a panic in ExecuteJob changes nothing in
      what follows. Whatever the chain's list has become, the snapshot decides. */
  method SafeExec(chain: Chain, job: Job, cancelled: bool, ghost snapshot: seq<Handler>, ghost n: nat)
    requires Carries(job, snapshot, n)
    modifies job`log, job.mctx
    ensures job.log == old(job.log) + EndEvents(snapshot, n, if cancelled then Cancelled else Runs)
  {
    hide Completes;
    var mctx := job.mctx;
    ghost var first := if cancelled then Notified else Executed;
    ghost var hooks := Completes(snapshot[..n]);
    if cancelled { job.log := job.log + [Notified]; } else { job.log := job.log + [Executed]; }
    chain.ExecuteOnComplete(mctx, job);
    EmptyHooks();
    assert job.log == old(job.log) + ([first] + hooks + Returns(snapshot));
    job.log := job.log + [JobReleased];
  }

  /** discardExec; `unsafe` is the drain after a stop timeout. */
  method DiscardExec(chain: Chain, job: Job, unsafe: bool, ghost snapshot: seq<Handler>, ghost n: nat)
    requires Carries(job, snapshot, n)
    modifies job`log, job.mctx
    ensures job.log == old(job.log) + EndEvents(snapshot, n, if unsafe then Dropped else Discarded)
  {
    hide Completes, Cleanups;
    var mctx := job.mctx;
    EmptyHooks();
    if unsafe {
      chain.ExecuteFrameworkCleanup(mctx, job);
      assert job.log == old(job.log) + (Cleanups(snapshot[..n]) + Returns(snapshot));
      job.log := job.log + [JobReleased];
    } else {
      Refuse(chain, job, mctx, snapshot, n);
    }
  }

  /** The end of dispatchRead when readCh is full. */
  method RejectRead(chain: Chain, job: Job, ghost snapshot: seq<Handler>, ghost n: nat)
    requires Carries(job, snapshot, n)
    modifies job`log, job.mctx
    ensures job.log == old(job.log) + EndEvents(snapshot, n, Rejected)
  {
    var mctx := job.mctx;
    Refuse(chain, job, mctx, snapshot, n);
  }

  /** What storePending does with a job it finds in pendingJob. */
  method OverwritePending(job: Job, ghost snapshot: seq<Handler>, ghost n: nat)
    requires n <= |snapshot|
    modifies job`log
    ensures job.log == old(job.log) + EndEvents(snapshot, n, Overwritten)
  {
    job.log := job.log + [Notified];
    job.log := job.log + [JobReleased];
  }

  // ---- A whole life

  datatype Edit = AddHandler(h: Handler) | RemoveHandler(name: string)

  /** Any number of additions to and removals from the chain. */
  method Change(chain: Chain, edits: seq<Edit>)
    modifies chain
  {
    for i := 0 to |edits| {
      match edits[i]
      case AddHandler(h) => chain.Add(h);
      case RemoveHandler(name) => var _ := chain.Remove(name);
    }
  }

  /** The end of an accepted job, by the code that ends it. */
  method Finish(chain: Chain, job: Job, ending: Ending, ghost snapshot: seq<Handler>, ghost n: nat)
    requires Carries(job, snapshot, n)
    modifies job`log, job.mctx
    ensures job.log == old(job.log) + EndEvents(snapshot, n, ending)
  {
    match ending
    case Runs => SafeExec(chain, job, false, snapshot, n);
    case Cancelled => SafeExec(chain, job, true, snapshot, n);
    case Discarded => DiscardExec(chain, job, false, snapshot, n);
    case Dropped => DiscardExec(chain, job, true, snapshot, n);
    case Rejected => RejectRead(chain, job, snapshot, n);
    case Overwritten => OverwritePending(job, snapshot, n);
  }

  /** PostJob on a new job, then any changes of the chain, then the end that the worker gives it if
      it was accepted: what was done to the job is its specified life under the chain as it was
      when the job was posted, and keeps what is promised of one. */
  method LiveJob(chain: Chain, job: Job, verdict: Handler -> Verdict, posting: Posting, edits: seq<Edit>,
                 ending: Ending)
    requires job.log == [] && job.mctx == null
    modifies chain, job
    ensures job.log == Life(old(chain.mws), verdict, posting, ending)
    ensures LifeKept(ProfileOf(job.log), old(chain.mws), verdict, posting, ending)
    ensures Ordered(job.log, 0, 4)
  {
    hide PostEvents, EndEvents, ProfileOf, LifeKept, Ordered;
    ghost var snapshot := chain.mws;
    var ok := PostJob(chain, job, verdict, posting);
    Change(chain, edits);
    if ok { Finish(chain, job, ending, snapshot, Ran(snapshot, verdict)); }
    LifeProfile(snapshot, verdict, posting, ending);
    LifeOrdered(snapshot, verdict, posting, ending);
  }
}
