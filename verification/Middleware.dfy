/** The middleware chain and the life of one posted job (engine/pkg/actor/mailbox:
    middleware_chain.go, mailbox.go, and safeExecInternal and discardExec of worker.go).
    A middleware is an identity; what its OnReceive answers is arbitrary. */
module Middleware {

  datatype Verdict = Continue | Reject | Skip | Panic

  /** `cleanup`: it implements OnFrameworkCleanup. */
  datatype Handler = Handler(name: string, cleanup: bool)

  datatype Event =
    | Received(h: Handler) | Completed(h: Handler) | Cleaned(h: Handler)
    | Executed | Notified | ContextReturned | JobReleased

  // ---- What happens to a job, as sequences of events

  /** How many OnReceive calls are made: up to and including the first that does not continue. */
  function Ran(chain: seq<Handler>, verdict: Handler -> Verdict): (n: nat)
    ensures n <= |chain|
  {
    if chain == [] then 0 else if verdict(chain[0]) != Continue then 1 else 1 + Ran(chain[1..], verdict)
  }

  /** Whether the last of them rejected the job or panicked. */
  predicate Rejects(chain: seq<Handler>, verdict: Handler -> Verdict)
  {
    var n := Ran(chain, verdict); n > 0 && (verdict(chain[n - 1]).Reject? || verdict(chain[n - 1]).Panic?)
  }

  function Receives(hs: seq<Handler>): seq<Event> { seq(|hs|, i requires 0 <= i < |hs| => Received(hs[i])) }

  /** Completion hooks, last first. */
  function Completes(hs: seq<Handler>): seq<Event>
  {
    if hs == [] then [] else [Completed(hs[|hs| - 1])] + Completes(hs[..|hs| - 1])
  }

  /** Framework cleanup only, last first. */
  function Cleanups(hs: seq<Handler>): seq<Event>
  {
    if hs == [] then []
    else (if hs[|hs| - 1].cleanup then [Cleaned(hs[|hs| - 1])] else []) + Cleanups(hs[..|hs| - 1])
  }

  /** With no middleware there is no context. */
  function Returns(chain: seq<Handler>): seq<Event> { if chain == [] then [] else [ContextReturned] }

  /** How a job that a worker accepted ends: executed; cancelled before it; discarded by the drain;
      rejected because readCh is full; dropped in the unsafe drain; or overwritten in pendingJob,
      when storePending only notifies and releases it. */
  datatype Ending = Runs | Cancelled | Discarded | Rejected | Dropped | Overwritten

  function EndEvents(chain: seq<Handler>, n: nat, ending: Ending): seq<Event>
    requires n <= |chain|
  {
    match ending
    case Runs => [Executed] + Completes(chain[..n]) + Returns(chain) + [JobReleased]
    case Dropped => Cleanups(chain[..n]) + Returns(chain) + [JobReleased]
    case Overwritten => [Notified, JobReleased]
    case _ => [Notified] + Completes(chain[..n]) + Returns(chain) + [JobReleased]
  }

  datatype Posting = Suspended | Admitted(dispatched: bool)

  predicate Accepted(chain: seq<Handler>, verdict: Handler -> Verdict, posting: Posting)
  {
    posting.Admitted? && !Rejects(chain, verdict) && posting.dispatched
  }

  function PostEvents(chain: seq<Handler>, verdict: Handler -> Verdict, posting: Posting): seq<Event>
  {
    if posting.Suspended? then [Notified, JobReleased]
    else
      var n := Ran(chain, verdict);
      if Accepted(chain, verdict, posting) then Receives(chain[..n])
      else Receives(chain[..n]) + EndEvents(chain, n, Discarded)
  }

  /** The whole life of a job. */
  function Life(chain: seq<Handler>, verdict: Handler -> Verdict, posting: Posting, ending: Ending): seq<Event>
  {
    PostEvents(chain, verdict, posting) +
    if Accepted(chain, verdict, posting) then EndEvents(chain, Ran(chain, verdict), ending) else []
  }

  // ---- What is promised about it

  /** What a log amounts to: who received, completed and cleaned up, in order, and how often the
      job was executed, notified as discarded and released and its context returned. */
  datatype Profile = Profile(
    received: seq<Handler>, completed: seq<Handler>, cleaned: seq<Handler>,
    executed: nat, notified: nat, returned: nat, released: nat)

  const Blank := Profile([], [], [], 0, 0, 0, 0)

  function Plus(p: Profile, q: Profile): Profile
  {
    Profile(p.received + q.received, p.completed + q.completed, p.cleaned + q.cleaned,
            p.executed + q.executed, p.notified + q.notified, p.returned + q.returned, p.released + q.released)
  }

  function One(e: Event): Profile
  {
    match e
    case Received(h) => Blank.(received := [h])
    case Completed(h) => Blank.(completed := [h])
    case Cleaned(h) => Blank.(cleaned := [h])
    case Executed => Blank.(executed := 1)
    case Notified => Blank.(notified := 1)
    case ContextReturned => Blank.(returned := 1)
    case JobReleased => Blank.(released := 1)
  }

  function ProfileOf(log: seq<Event>): Profile
  {
    if log == [] then Blank else Plus(ProfileOf(log[..|log| - 1]), One(log[|log| - 1]))
  }

  lemma PlusBlank(p: Profile)
    ensures Plus(p, Blank) == p && Plus(Blank, p) == p
  {
  }

  lemma PlusAssociative(p: Profile, q: Profile, r: Profile)
    ensures Plus(Plus(p, q), r) == Plus(p, Plus(q, r))
  {
  }

  lemma {:induction false} ProfileConcat(a: seq<Event>, b: seq<Event>)
    ensures ProfileOf(a + b) == Plus(ProfileOf(a), ProfileOf(b))
  {
    if b == [] {
      assert a + b == a;
      PlusBlank(ProfileOf(a));
    } else {
      var f := b[..|b| - 1];
      assert (a + b)[..|a + b| - 1] == a + f;
      ProfileConcat(a, f);
      hide Plus, One;
      PlusAssociative(ProfileOf(a), ProfileOf(f), One(b[|b| - 1]));
    }
  }

  lemma ProfileSnoc(log: seq<Event>, e: Event)
    ensures ProfileOf(log + [e]) == Plus(ProfileOf(log), One(e))
  {
    hide Plus, One;
    assert (log + [e])[..|log|] == log;
  }

  lemma ProfileNothing(log: seq<Event>)
    requires log == []
    ensures ProfileOf(log) == Blank
  {
  }

  lemma ProfileSingle(e: Event)
    ensures ProfileOf([e]) == One(e)
  {
    hide ProfileOf, Plus, One;
    var none: seq<Event> := [];
    ProfileNothing(none);
    ProfileSnoc(none, e);
    assert none + [e] == [e];
    PlusBlank(One(e));
  }

  function Reversed(hs: seq<Handler>): seq<Handler>
  {
    if hs == [] then [] else [hs[|hs| - 1]] + Reversed(hs[..|hs| - 1])
  }

  function Cleaning(hs: seq<Handler>): seq<Handler>
  {
    if hs == [] then [] else (if hs[|hs| - 1].cleanup then [hs[|hs| - 1]] else []) + Cleaning(hs[..|hs| - 1])
  }

  lemma {:induction false} ReceivesProfile(hs: seq<Handler>)
    ensures ProfileOf(Receives(hs)) == Blank.(received := hs)
  {
    if hs != [] {
      ReceivesProfile(hs[..|hs| - 1]);
      assert Receives(hs)[..|hs| - 1] == Receives(hs[..|hs| - 1]);
      assert hs == hs[..|hs| - 1] + [hs[|hs| - 1]];
    }
  }

  lemma {:induction false} CompletesProfile(hs: seq<Handler>)
    ensures ProfileOf(Completes(hs)) == Blank.(completed := Reversed(hs))
  {
    if hs != [] {
      CompletesProfile(hs[..|hs| - 1]);
      ProfileConcat([Completed(hs[|hs| - 1])], Completes(hs[..|hs| - 1]));
      ProfileSingle(Completed(hs[|hs| - 1]));
    }
  }

  lemma {:induction false} CleanupsProfile(hs: seq<Handler>)
    ensures ProfileOf(Cleanups(hs)) == Blank.(cleaned := Cleaning(hs))
  {
    if hs != [] {
      var l := hs[|hs| - 1];
      CleanupsProfile(hs[..|hs| - 1]);
      if l.cleanup {
        ProfileConcat([Cleaned(l)], Cleanups(hs[..|hs| - 1]));
        ProfileSingle(Cleaned(l));
      } else {
        assert [] + Cleanups(hs[..|hs| - 1]) == Cleanups(hs[..|hs| - 1]);
        assert [] + Cleaning(hs[..|hs| - 1]) == Cleaning(hs[..|hs| - 1]);
      }
    }
  }

  /** The hooks, the context and the release at the end of a life. */
  lemma TailProfile(chain: seq<Handler>, hooks: seq<Event>)
    ensures ProfileOf(hooks + Returns(chain) + [JobReleased]) ==
            Plus(ProfileOf(hooks), Blank.(returned := if chain == [] then 0 else 1, released := 1))
  {
    hide ProfileOf, Returns;
    ReturnsProfile(chain);
    ProfileSingle(JobReleased);
    ProfileConcat(hooks + Returns(chain), [JobReleased]);
    ProfileConcat(hooks, Returns(chain));
  }

  lemma ReturnsProfile(chain: seq<Handler>)
    ensures ProfileOf(Returns(chain)) == Blank.(returned := if chain == [] then 0 else 1)
  {
    if chain != [] { ProfileSingle(ContextReturned); }
  }

  /** What an ending amounts to. Only an overwritten job keeps its context and completes nothing. */
  function Ended(chain: seq<Handler>, n: nat, ending: Ending): Profile
    requires n <= |chain|
  {
    match ending
    case Runs => Profile([], Reversed(chain[..n]), [], 1, 0, if chain == [] then 0 else 1, 1)
    case Dropped => Profile([], [], Cleaning(chain[..n]), 0, 0, if chain == [] then 0 else 1, 1)
    case Overwritten => Profile([], [], [], 0, 1, 0, 1)
    case _ => Profile([], Reversed(chain[..n]), [], 0, 1, if chain == [] then 0 else 1, 1)
  }

  /** The end of a life. */
  lemma EndProfile(chain: seq<Handler>, n: nat, ending: Ending)
    requires n <= |chain|
    ensures ProfileOf(EndEvents(chain, n, ending)) == Ended(chain, n, ending)
  {
    hide ProfileOf, Completes, Cleanups, Reversed, Cleaning, Returns;
    var hs := chain[..n];
    if ending.Dropped? {
      CleanupsProfile(hs);
      TailProfile(chain, Cleanups(hs));
    } else if ending.Overwritten? {
      SuspendedProfile();
    } else {
      var first := if ending.Runs? then Executed else Notified;
      CompletesProfile(hs);
      ProfileConcat([first], Completes(hs));
      ProfileSingle(first);
      TailProfile(chain, [first] + Completes(hs));
    }
  }

  /** An admitted job: reception, then one end. */
  lemma AdmittedLife(chain: seq<Handler>, verdict: Handler -> Verdict, posting: Posting, ending: Ending)
    requires posting.Admitted?
    ensures var n := Ran(chain, verdict);
            Life(chain, verdict, posting, ending) ==
            Receives(chain[..n]) + EndEvents(chain, n, if Accepted(chain, verdict, posting) then ending else Discarded)
  {
    hide Receives, EndEvents, Ran;
    if !Accepted(chain, verdict, posting) {
      var post := PostEvents(chain, verdict, posting);
      assert post + [] == post;
    }
  }

  lemma PairProfile(a: Event, b: Event)
    ensures ProfileOf([a, b]) == Plus(One(a), One(b))
  {
    ProfileSingle(a);
    ProfileSingle(b);
    hide ProfileOf, Plus, One;
    ProfileConcat([a], [b]);
    assert [a] + [b] == [a, b];
  }

  lemma SuspendedProfile()
    ensures ProfileOf([Notified, JobReleased]) == Blank.(notified := 1, released := 1)
  {
    hide ProfileOf;
    PairProfile(Notified, JobReleased);
  }

  lemma JoinedProfile(hs: seq<Handler>, chain: seq<Handler>, n: nat, last: Ending)
    requires n <= |chain|
    ensures ProfileOf(Receives(hs) + EndEvents(chain, n, last)) == ProfileOf(EndEvents(chain, n, last)).(received := hs)
  {
    hide ProfileOf, Receives, EndEvents, Reversed, Cleaning;
    ReceivesProfile(hs);
    EndProfile(chain, n, last);
    ProfileConcat(Receives(hs), EndEvents(chain, n, last));
  }

  /** For every posted job, whatever the middlewares answer and however it ends: it is released
      once; it is executed or notified as discarded, never both (neither only in the unsafe drain);
      its context is returned once if one was made, and the completion hooks are those of the
      middlewares whose OnReceive ran, in reverse order, except for an overwritten job. */
  lemma LifeProfile(chain: seq<Handler>, verdict: Handler -> Verdict, posting: Posting, ending: Ending)
    ensures LifeKept(ProfileOf(Life(chain, verdict, posting, ending)), chain, verdict, posting, ending)
  {
    hide ProfileOf, Receives, EndEvents, Ran, Reversed, Cleaning;
    if posting.Suspended? {
      SuspendedProfile();
      SuspendedLife(chain, verdict, ending);
      ReversedNothing();
    } else {
      var n := Ran(chain, verdict);
      var last := if Accepted(chain, verdict, posting) then ending else Discarded;
      AdmittedLife(chain, verdict, posting, ending);
      JoinedProfile(chain[..n], chain, n, last);
      EndProfile(chain, n, last);
    }
  }

  /** What is promised of the profile of a job's life. */
  ghost predicate LifeKept(p: Profile, chain: seq<Handler>, verdict: Handler -> Verdict, posting: Posting,
                           ending: Ending)
  {
    var ran := if posting.Suspended? then [] else chain[..Ran(chain, verdict)];
    var accepted := Accepted(chain, verdict, posting);
    var dropped, overwritten := accepted && ending.Dropped?, accepted && ending.Overwritten?;
    && p.received == ran
    && p.completed == (if dropped || overwritten then [] else Reversed(ran))
    && p.cleaned == (if dropped then Cleaning(ran) else [])
    && p.executed == (if accepted && ending.Runs? then 1 else 0)
    && p.executed + p.notified == (if dropped then 0 else 1)
    && p.returned == (if posting.Suspended? || chain == [] || overwritten then 0 else 1)
    && p.released == 1
  }

  lemma SuspendedLife(chain: seq<Handler>, verdict: Handler -> Verdict, ending: Ending)
    ensures Life(chain, verdict, Suspended, ending) == [Notified, JobReleased]
  {
  }

  lemma ReversedNothing()
    ensures Reversed([]) == []
  {
  }

  // ---- Reception, over the verdicts alone

  /** Some middleware rejects the job or panics, and all before it continue. */
  ghost predicate RefusedBy(chain: seq<Handler>, verdict: Handler -> Verdict)
  {
    exists i :: && 0 <= i < |chain| && (verdict(chain[i]).Reject? || verdict(chain[i]).Panic?)
                && forall k :: 0 <= k < i ==> verdict(chain[k]).Continue?
  }

  /** `n` is the first position that does not continue, plus one, or the length of the chain. */
  ghost predicate StopsAfter(chain: seq<Handler>, verdict: Handler -> Verdict, n: nat)
  {
    && n <= |chain| && (forall k :: 0 <= k < n - 1 ==> verdict(chain[k]).Continue?)
    && (n < |chain| ==> n > 0 && !verdict(chain[n - 1]).Continue?)
  }

  lemma {:induction false} RanIs(chain: seq<Handler>, verdict: Handler -> Verdict)
    ensures StopsAfter(chain, verdict, Ran(chain, verdict))
  {
    if chain != [] && verdict(chain[0]).Continue? {
      var n := Ran(chain[1..], verdict);
      RanIs(chain[1..], verdict);
      forall k | 0 <= k < n ensures verdict(chain[k]).Continue? {
        if k > 0 { assert chain[k] == chain[1..][k - 1]; }
      }
      if n < |chain| - 1 { assert chain[1..][n - 1] == chain[n]; }
    }
  }

  /** There is only one such number. */
  lemma StopsOnce(chain: seq<Handler>, verdict: Handler -> Verdict, n: nat, m: nat)
    requires StopsAfter(chain, verdict, n) && StopsAfter(chain, verdict, m)
    ensures n == m
  {
  }

  /** A reception refuses the job exactly when a middleware that gets to see it rejects or panics. */
  lemma RejectsIs(chain: seq<Handler>, verdict: Handler -> Verdict)
    ensures Rejects(chain, verdict) <==> RefusedBy(chain, verdict)
  {
    var n := Ran(chain, verdict);
    RanIs(chain, verdict);
    if i :| && 0 <= i < |chain| && (verdict(chain[i]).Reject? || verdict(chain[i]).Panic?)
            && forall k :: 0 <= k < i ==> verdict(chain[k]).Continue?
    {
      if n - 1 < i { assert false; }
      if i < n - 1 { assert false; }
    }
  }

  // ---- The order of a life

  /** Receptions come first, then the execution or the notification, then the hooks, then the return
      of the context, then the release. */
  function Rank(e: Event): nat
  {
    match e
    case Received(_) => 0
    case Executed => 1
    case Notified => 1
    case Completed(_) => 2
    case Cleaned(_) => 2
    case ContextReturned => 3
    case JobReleased => 4
  }

  ghost predicate Ordered(log: seq<Event>, low: nat, high: nat)
  {
    && (forall i :: 0 <= i < |log| ==> low <= Rank(log[i]) <= high)
    && (forall i, j :: 0 <= i < j < |log| ==> Rank(log[i]) <= Rank(log[j]))
  }

  lemma OrderedJoin(a: seq<Event>, b: seq<Event>, low: nat, mid: nat, high: nat)
    requires Ordered(a, low, mid) && Ordered(b, mid, high) && low <= mid <= high
    ensures Ordered(a + b, low, high)
  {
  }

  lemma {:induction false} HooksOrdered(hs: seq<Handler>)
    ensures Ordered(Completes(hs), 2, 2) && Ordered(Cleanups(hs), 2, 2)
  {
    if hs != [] { HooksOrdered(hs[..|hs| - 1]); }
  }

  lemma EndOrdered(chain: seq<Handler>, n: nat, ending: Ending)
    requires n <= |chain|
    ensures Ordered(EndEvents(chain, n, ending), 1, 4)
  {
    hide Completes, Cleanups, Returns;
    var hs := chain[..n];
    HooksOrdered(hs);
    assert Ordered(Returns(chain), 3, 3) by { ReturnsOrdered(chain); }
    if ending.Dropped? {
      OrderedJoin(Cleanups(hs), Returns(chain), 2, 3, 3);
      OrderedJoin(Cleanups(hs) + Returns(chain), [JobReleased], 2, 3, 4);
    } else if !ending.Overwritten? {
      var first := if ending.Runs? then Executed else Notified;
      OrderedJoin([first], Completes(hs), 1, 2, 2);
      OrderedJoin([first] + Completes(hs), Returns(chain), 1, 2, 3);
      OrderedJoin([first] + Completes(hs) + Returns(chain), [JobReleased], 1, 3, 4);
    }
  }

  lemma ReturnsOrdered(chain: seq<Handler>)
    ensures Ordered(Returns(chain), 3, 3)
  {
  }

  /** Every life has this order: nothing is executed or notified before all receptions, no completion
      hook runs before that, and the release comes last. */
  lemma LifeOrdered(chain: seq<Handler>, verdict: Handler -> Verdict, posting: Posting, ending: Ending)
    ensures Ordered(Life(chain, verdict, posting, ending), 0, 4)
  {
    hide Receives, EndEvents, Ran;
    if posting.Suspended? {
      SuspendedLife(chain, verdict, ending);
    } else {
      var n := Ran(chain, verdict);
      var last := if Accepted(chain, verdict, posting) then ending else Discarded;
      AdmittedLife(chain, verdict, posting, ending);
      ReceivesOrdered(chain[..n]);
      EndOrdered(chain, n, last);
      OrderedJoin(Receives(chain[..n]), EndEvents(chain, n, last), 0, 1, 4);
    }
  }

  lemma ReceivesOrdered(hs: seq<Handler>)
    ensures Ordered(Receives(hs), 0, 1)
  {
  }

  /** Cleaning keeps the handlers that clean up and turns them round: it is the only function with
      these values on one handler and on two halves. */
  lemma {:induction false} CleaningHalves(a: seq<Handler>, b: seq<Handler>)
    ensures Cleaning(a + b) == Cleaning(b) + Cleaning(a)
    decreases |b|
  {
    if b == [] {
      assert a + b == a;
    } else {
      var l, front := b[|b| - 1], b[..|b| - 1];
      assert (a + b)[..|a + b| - 1] == a + front && (a + b)[|a + b| - 1] == l;
      CleaningHalves(a, front);
    }
  }

  lemma CleaningOne(h: Handler)
    ensures Cleaning([h]) == if h.cleanup then [h] else []
  {
    assert [h][..0] == [];
  }

  /** The k-th of the reversed handlers is the k-th from the end. */
  lemma {:induction false} ReversedAt(hs: seq<Handler>, k: nat)
    requires k < |hs|
    ensures |Reversed(hs)| == |hs| && Reversed(hs)[k] == hs[|hs| - 1 - k]
  {
    if |hs| > 1 { ReversedAt(hs[..|hs| - 1], if k > 0 then k - 1 else 0); }
  }
}
