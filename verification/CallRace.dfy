/** The race for one pending call: the caller that adds it, its timeout, any number of responses
    and cancels, and Stop (engine/pkg/monitor/monitor.go, rpc/client/sender_local.go). One step is
    one atomic load or one region under a bucket's mutex. */
module CallRace {

  type ReqId = nat
  type Party = nat

  datatype AddPc = CheckClosed | ArmTimer | Insert

  /** `adding`: calls whose Add is under way; `table`: the calls in the buckets; `removing`: parties
      that passed the closed test of remove and are about to delete; `clearing`: the bucket that
      Stop clears next. History: `issued`, and `obtained`, one occurrence for every time somebody
      got hold of a call's state to complete or to reclaim it. */
  datatype State = State(
    closed: bool, clearing: nat, adding: map<ReqId, AddPc>, table: set<ReqId>, armed: set<ReqId>,
    removing: map<Party, ReqId>, issued: set<ReqId>, obtained: multiset<ReqId>)

  datatype Action =
    | NewCall(id: ReqId)                    // GenSeq and NewCallState
    | AddStep(id: ReqId, timerFails: bool)
    | Remove(party: Party, id: ReqId)       // response, cancel or failed send: the closed test
    | TimerFires(party: Party, id: ReqId)   // the same test from the timer callback
    | Delete(party: Party)                  // waitBucket.Del
    | StopBegins                            // the CompareAndSwap of Stop
    | StopClears                            // waitBucket.Clear on the next bucket

  datatype Outcome = Stuck | Next(state: State)

  /** The calls in bucket `i` of `n`. */
  function InBucket(table: set<ReqId>, n: nat, i: nat): set<ReqId>
    requires n > 0
  {
    set r | r in table && r % n == i
  }

  function Step(n: nat, s: State, a: Action): Outcome
    requires n > 0
  {
    match a
    case NewCall(r) =>
      if r == 0 || r in s.issued then Stuck
      else Next(s.(issued := s.issued + {r}, adding := s.adding[r := CheckClosed]))
    case AddStep(r, timerFails) => if r in s.adding then Next(Adding(s, r, timerFails)) else Stuck
    case Remove(p, r) => Next(if s.closed || r == 0 || p in s.removing then s else s.(removing := s.removing[p := r]))
    case TimerFires(p, r) =>
      if r !in s.armed then Stuck
      else Next(if s.closed || p in s.removing then s else s.(removing := s.removing[p := r]))
    case Delete(p) => if p in s.removing then Next(Deleted(s, p)) else Stuck
    case StopBegins => if s.closed then Stuck else Next(s.(closed := true))
    case StopClears =>
      if !s.closed || s.clearing >= n then Stuck
      else
        var gone := InBucket(s.table, n, s.clearing);
        Next(s.(clearing := s.clearing + 1, table := s.table - gone, obtained := s.obtained + multiset(gone)))
  }

  function Adding(s: State, r: ReqId, timerFails: bool): State
    requires r in s.adding
  {
    match s.adding[r]
    case CheckClosed =>
      if s.closed then s.(adding := s.adding - {r}, obtained := s.obtained + multiset{r})
      else s.(adding := s.adding[r := ArmTimer])
    case ArmTimer =>
      if timerFails then s.(adding := s.adding - {r}, obtained := s.obtained + multiset{r})
      else s.(adding := s.adding[r := Insert], armed := s.armed + {r})
    case Insert => s.(adding := s.adding - {r}, table := s.table + {r})
  }

  function Deleted(s: State, p: Party): State
    requires p in s.removing
  {
    var r := s.removing[p];
    var s' := s.(removing := s.removing - {p});
    if r in s.table then s'.(table := s.table - {r}, obtained := s.obtained + multiset{r}) else s'
  }

  function Start(): State { State(false, 0, map[], {}, {}, map[], {}, multiset{}) }

  function After(n: nat, s: State, actions: seq<Action>): Outcome
    requires n > 0
    decreases |actions|
  {
    if actions == [] then Next(s)
    else
      var next := Step(n, s, actions[0]);
      if next.Stuck? then Stuck else After(n, next.state, actions[1..])
  }

  ghost predicate Reachable(n: nat, s: State)
    requires n > 0
  {
    exists actions :: After(n, Start(), actions) == Next(s)
  }

  function One(b: bool): nat { if b then 1 else 0 }

  /** An issued call's state is in exactly one place: with the adder, in the table, or obtained. */
  ghost predicate OnePlace(s: State, r: ReqId)
  {
    s.obtained[r] + One(r in s.table) + One(r in s.adding) == One(r in s.issued)
  }

  ghost predicate Inv(s: State) { forall r :: OnePlace(s, r) }

  lemma AddingInv(s: State, r: ReqId, timerFails: bool)
    requires Inv(s) && r in s.adding
    ensures Inv(Adding(s, r, timerFails))
  {
    assert OnePlace(s, r);
    forall q ensures OnePlace(Adding(s, r, timerFails), q) { assert OnePlace(s, q); }
  }

  lemma DeletedInv(s: State, p: Party)
    requires Inv(s) && p in s.removing
    ensures Inv(Deleted(s, p))
  {
    assert OnePlace(s, s.removing[p]);
    forall q ensures OnePlace(Deleted(s, p), q) { assert OnePlace(s, q); }
  }

  lemma ClearedInv(n: nat, s: State)
    requires n > 0 && Inv(s) && Step(n, s, StopClears).Next?
    ensures Inv(Step(n, s, StopClears).state)
  {
    var s' := Step(n, s, StopClears).state;
    forall q ensures OnePlace(s', q) { assert OnePlace(s, q); }
  }

  lemma StepInv(n: nat, s: State, a: Action)
    requires n > 0 && Inv(s)
    ensures Step(n, s, a).Next? ==> Inv(Step(n, s, a).state)
  {
    match a
    case NewCall(r) =>
      if Step(n, s, a).Next? {
        assert OnePlace(s, r);
        forall q ensures OnePlace(Step(n, s, a).state, q) { assert OnePlace(s, q); }
      }
    case AddStep(r, timerFails) => if r in s.adding { AddingInv(s, r, timerFails); }
    case Delete(p) => if p in s.removing { DeletedInv(s, p); }
    case StopClears => if Step(n, s, a).Next? { ClearedInv(n, s); }
    case Remove(p, r) => if Step(n, s, a).Next? { Unmoved(s, Step(n, s, a).state); }
    case TimerFires(p, r) => if Step(n, s, a).Next? { Unmoved(s, Step(n, s, a).state); }
    case StopBegins => if Step(n, s, a).Next? { Unmoved(s, Step(n, s, a).state); }
  }

  lemma Unmoved(s: State, s': State)
    requires Inv(s) && s'.obtained == s.obtained && s'.table == s.table && s'.adding == s.adding
    requires s'.issued == s.issued
    ensures Inv(s')
  {
    forall q ensures OnePlace(s', q) { assert OnePlace(s, q); }
  }

  lemma {:induction false} AfterInv(n: nat, s: State, actions: seq<Action>)
    requires n > 0 && Inv(s)
    ensures After(n, s, actions).Next? ==> Inv(After(n, s, actions).state)
    decreases |actions|
  {
    hide Step, Inv;
    if actions != [] && Step(n, s, actions[0]).Next? {
      StepInv(n, s, actions[0]);
      AfterInv(n, Step(n, s, actions[0]).state, actions[1..]);
    }
  }

  /** In every interleaving at most one party obtains the state of a request, and once somebody
      has it the table does not, nor will an Add put it there. */
  lemma AtMostOneOwner(n: nat, s: State, r: ReqId)
    requires n > 0 && Reachable(n, s)
    ensures s.obtained[r] <= 1
    ensures s.obtained[r] == 1 ==> r !in s.table && r !in s.adding
    ensures r in s.issued && r !in s.table && r !in s.adding ==> s.obtained[r] == 1
  {
    var actions :| After(n, Start(), actions) == Next(s);
    assert Inv(Start()) by { forall q ensures OnePlace(Start(), q) { } }
    AfterInv(n, Start(), actions);
    assert OnePlace(s, r);
  }

  // ---- Who obtains a call, and when

  /** The step hands the state of `r` to somebody: to its adder, when the monitor is closed or the
      timer cannot be armed; to the party whose delete finds it in the table; to Stop, which clears
      the bucket it is in. */
  ghost predicate Obtains(n: nat, s: State, a: Action, r: ReqId)
    requires n > 0
  {
    match a
    case AddStep(q, fails) =>
      q == r && r in s.adding && ((s.adding[r].CheckClosed? && s.closed) || (s.adding[r].ArmTimer? && fails))
    case Delete(p) => p in s.removing && s.removing[p] == r && r in s.table
    case StopClears => s.closed && s.clearing < n && r % n == s.clearing && r in s.table
    case _ => false
  }

  /** The step inserts `r` into the table. */
  predicate Inserts(s: State, a: Action, r: ReqId)
  {
    a.AddStep? && a.id == r && r in s.adding && s.adding[r].Insert?
  }

  /** Every step, for every call: its state changes hands exactly when Obtains says so, and then it is
      no longer in the table; it comes into the table exactly by its own insert, and stays there
      otherwise. */
  lemma HandsOver(n: nat, s: State, a: Action, s': State, r: ReqId)
    requires n > 0 && Inv(s) && Step(n, s, a) == Next(s')
    ensures s'.obtained[r] == s.obtained[r] + One(Obtains(n, s, a, r))
    ensures r in s'.table <==> (r in s.table && !Obtains(n, s, a, r)) || Inserts(s, a, r)
    ensures a.Delete? ==> s'.removing == s.removing - {a.party}
  {
    assert OnePlace(s, r);
    if a.Delete? && a.party in s.removing { assert OnePlace(s, s.removing[a.party]); }
  }

  /** A response, a cancel or a timeout of an open monitor gets to its delete exactly for a call with an
      id; a closed monitor turns it away, and nothing else changes. */
  lemma Registers(n: nat, s: State, a: Action, s': State)
    requires n > 0 && (a.Remove? || a.TimerFires?) && Step(n, s, a) == Next(s')
    requires a.party !in s.removing && (a.TimerFires? ==> a.id != 0)
    ensures s' == if !s.closed && a.id != 0 then s.(removing := s.removing[a.party := a.id]) else s
  {
  }

  /** What is possible: a response or cancel always; a timeout for an armed call; a delete for a party
      that registered; an Add step while the Add is under way. */
  lemma Possible(n: nat, s: State)
    requires n > 0
    ensures forall p, r :: Step(n, s, Remove(p, r)).Next?
    ensures forall p, r :: Step(n, s, TimerFires(p, r)).Next? <==> r in s.armed
    ensures forall p :: Step(n, s, Delete(p)).Next? <==> p in s.removing
    ensures forall r, fails :: Step(n, s, AddStep(r, fails)).Next? <==> r in s.adding
    ensures forall r :: Step(n, s, NewCall(r)).Next? <==> r != 0 && r !in s.issued
    ensures Step(n, s, StopBegins).Next? <==> !s.closed
    ensures Step(n, s, StopClears).Next? <==> s.closed && s.clearing < n
  {
  }

  /** Undisturbed, a response to a call in the table of an open monitor obtains it with its second
      step. */
  lemma ResponseObtains(n: nat, s: State, p: Party, r: ReqId)
    requires n > 0 && !s.closed && r != 0 && r in s.table && p !in s.removing
    ensures var end := After(n, s, [Remove(p, r), Delete(p)]);
            end == Next(s.(table := s.table - {r}, obtained := s.obtained + multiset{r}))
  {
    var s1 := s.(removing := s.removing[p := r]);
    assert [Remove(p, r), Delete(p)][1..] == [Delete(p)] && [Delete(p)][1..] == [];
    assert s1.removing - {p} == s.removing;
    assert After(n, s1, [Delete(p)]) == Step(n, s1, Delete(p));
  }

  /** So does a timeout. */
  lemma TimeoutObtains(n: nat, s: State, p: Party, r: ReqId)
    requires n > 0 && !s.closed && r in s.armed && r in s.table && p !in s.removing
    ensures var end := After(n, s, [TimerFires(p, r), Delete(p)]);
            end == Next(s.(table := s.table - {r}, obtained := s.obtained + multiset{r}))
  {
    var s1 := s.(removing := s.removing[p := r]);
    assert [TimerFires(p, r), Delete(p)][1..] == [Delete(p)] && [Delete(p)][1..] == [];
    assert s1.removing - {p} == s.removing;
    assert After(n, s1, [Delete(p)]) == Step(n, s1, Delete(p));
  }

  /** Undisturbed, an Add on an open monitor arms the timer and leaves the call in the table. */
  lemma AddInserts(n: nat, s: State, r: ReqId)
    requires n > 0 && !s.closed && r in s.adding && s.adding[r].CheckClosed?
    ensures var step := AddStep(r, false);
            After(n, s, [step, step, step]) ==
              Next(s.(adding := s.adding - {r}, table := s.table + {r}, armed := s.armed + {r}))
  {
    var step := AddStep(r, false);
    var s1 := s.(adding := s.adding[r := ArmTimer]);
    var s2 := s.(adding := s.adding[r := Insert], armed := s.armed + {r});
    assert s1.adding[r := Insert] == s2.adding && s2.adding - {r} == s.adding - {r};
    assert [step, step, step][1..] == [step, step] && [step, step][1..] == [step] && [step][1..] == [];
    assert After(n, s2, [step]) == Step(n, s2, step);
    assert After(n, s1, [step, step]) == After(n, s2, [step]);
  }

  lemma Below(r: ReqId, n: nat)
    requires n > 0
    ensures r % n < n
  {
  }

  /** Stop obtains whatever is in the table, bucket by bucket, once it has begun. */
  lemma {:induction false} StopReclaims(n: nat, s: State) returns (acts: seq<Action>, s': State)
    requires n > 0 && s.closed && s.clearing <= n && forall r :: r in s.table ==> s.clearing <= r % n
    ensures After(n, s, acts) == Next(s') && s'.table == {}
    ensures forall r :: s'.obtained[r] == s.obtained[r] + One(r in s.table)
    decreases n - s.clearing
  {
    if s.clearing == n {
      forall r ensures r !in s.table { Below(r, n); }
      return [], s;
    }
    var gone := InBucket(s.table, n, s.clearing);
    var next := s.(clearing := s.clearing + 1, table := s.table - gone, obtained := s.obtained + multiset(gone));
    var rest, end := StopReclaims(n, next);
    acts, s' := [StopClears] + rest, end;
    assert acts[1..] == rest;
  }
}
