/** The priority queue manager (engine/pkg/actor/mailbox/queue_manager_priority.go) and the dual
    queue manager (queue_manager_dual.go). A physical queue is a FIFO sequence with a capacity. */
module PriorityQueues {
  import opened PriorityScheduler

  class Job {
    var priority: int

    constructor (priority: int)
      ensures this.priority == priority
    {
      this.priority := priority;
    }
  }

  ghost predicate Increasing(s: seq<int>) { forall i, j :: 0 <= i < j < |s| ==> s[i] < s[j] }

  type Queues = map<int, seq<Job>>

  /** `p` is the smallest class with a job. */
  ghost predicate Best(queues: Queues, p: int)
  {
    p in queues && queues[p] != [] && forall q :: q in queues && q < p ==> queues[q] == []
  }

  ghost predicate AllEmpty(queues: Queues) { forall p :: p in queues ==> queues[p] == [] }

  ghost predicate Covers(queues: Queues, classes: seq<int>)
  {
    forall i :: 0 <= i < |classes| ==> classes[i] in queues
  }

  /** All jobs of the classes from the n-th on, by class and then in the order of arrival. */
  ghost function ByClass(queues: Queues, classes: seq<int>, n: nat): seq<Job>
    requires Covers(queues, classes) && n <= |classes|
    decreases |classes| - n
  {
    if n == |classes| then [] else queues[classes[n]] + ByClass(queues, classes, n + 1)
  }

  /** The first n classes have been emptied, the others are as they were in `all`. */
  ghost predicate Emptied(all: Queues, queues: Queues, classes: seq<int>, n: nat)
  {
    && queues.Keys == all.Keys && Covers(all, classes)
    && forall i :: 0 <= i < |classes| ==> queues[classes[i]] == if i < n then [] else all[classes[i]]
  }

  lemma EmptiedStep(all: Queues, queues: Queues, classes: seq<int>, n: nat, handed: seq<Job>)
    requires Emptied(all, queues, classes, n) && n < |classes| && Increasing(classes)
    ensures Emptied(all, queues[classes[n] := []], classes, n + 1)
    ensures handed + queues[classes[n]] + ByClass(all, classes, n + 1) == handed + ByClass(all, classes, n)
  {
  }

  lemma EmptiedNone(all: Queues, classes: seq<int>)
    requires Covers(all, classes)
    ensures Emptied(all, all, classes, 0)
  {
  }

  lemma EmptiedAll(all: Queues, queues: Queues, classes: seq<int>)
    requires Emptied(all, queues, classes, |classes|) && forall p :: p in queues ==> p in classes
    ensures AllEmpty(queues) && queues.Keys == all.Keys && ByClass(all, classes, |classes|) == []
  {
  }

  datatype Popped = Nothing | Popped(job: Job)

  datatype SubmitResult = Accepted | NoQueue | Full

  class PriorityQueueManager {
    const scheduler: Scheduler
    const capacity: map<int, nat>
    const sortedPriorities: seq<int>
    const fallback: int
    var queues: Queues

    /** `classes` are the configured classes, sorted; the last one is the fallback. */
    constructor (scheduler: Scheduler, classes: seq<int>, capacity: map<int, nat>)
      requires classes != [] && Increasing(classes) && forall p :: p in classes ==> p in capacity
      ensures Valid() && AllEmpty(queues) && queues.Keys == set p | p in classes
      ensures this.scheduler == scheduler && sortedPriorities == classes && this.capacity == capacity
      ensures fallback == classes[|classes| - 1]
    {
      this.scheduler, this.capacity, sortedPriorities := scheduler, capacity, classes;
      fallback := classes[|classes| - 1];
      queues := map p | p in classes :: [];
    }

    /** The sorted list has exactly the classes that have a queue. */
    ghost predicate Valid()
      reads this
    {
      && Increasing(sortedPriorities) && fallback in queues
      && (forall p :: p in sortedPriorities <==> p in queues)
      && (forall p :: p in queues ==> p in capacity && |queues[p]| <= capacity[p])
    }

    /** Submit: the class of the job, or the fallback class with the job's priority rewritten; a
        full queue leaves the queues and the job's priority as they were. */
    method Submit(e: Job) returns (r: SubmitResult)
      requires Valid()
      modifies this`queues, e
      ensures Valid() && !r.NoQueue?
      ensures var p := if old(e.priority) in old(queues) then old(e.priority) else fallback;
              && (r.Full? <==> |old(queues)[p]| >= capacity[p])
              && (r.Full? ==> queues == old(queues) && e.priority == old(e.priority))
              && (r.Accepted? ==> queues == old(queues)[p := old(queues)[p] + [e]] && e.priority == p)
    {
      var priority := e.priority;
      var p := priority;
      var usesFallback := p !in queues;
      if usesFallback {
        p := fallback;
        if p !in queues { return NoQueue; }
        e.priority := fallback;
      }
      if |queues[p]| >= capacity[p] {
        if usesFallback { e.priority := priority; }
        return Full;
      }
      queues := queues[p := queues[p] + [e]];
      return Accepted;
    }

    /** NextJob, under any strategy: the head of the smallest non-empty class. It yields nothing
        exactly when everything is empty or that class is -1, which the scheduler's answer cannot
        tell from "none". */
    method NextJob() returns (r: Popped)
      requires Valid()
      modifies this`queues, scheduler
      ensures Valid()
      ensures r.Nothing? <==> AllEmpty(old(queues)) || Best(old(queues), -1)
      ensures r.Nothing? ==> queues == old(queues)
      ensures r.Popped? ==> exists p ::
                && Best(old(queues), p) && r.job == old(queues)[p][0]
                && queues == old(queues)[p := old(queues)[p][1..]]
    {
      var available := Available();
      if available == [] { return Nothing; }
      assert Best(queues, available[0]);
      var selected := scheduler.NextPriority(available);
      if selected == -1 { return Nothing; }
      r := Popped(queues[selected][0]);
      queues := queues[selected := queues[selected][1..]];
    }

    /** The non-empty classes, in order. */
    method Available() returns (available: seq<int>)
      requires Valid()
      ensures Increasing(available) && (available == [] <==> AllEmpty(queues))
      ensures available != [] ==> Best(queues, available[0])
    {
      available := [];
      for n := 0 to |sortedPriorities|
        invariant Increasing(available)
        invariant forall i, k :: 0 <= i < |available| && n <= k < |sortedPriorities| ==>
                    available[i] < sortedPriorities[k]
        invariant forall p :: p in available <==> p in sortedPriorities[..n] && queues[p] != []
      {
        var p := sortedPriorities[n];
        if queues[p] != [] { available := available + [p]; }
        assert sortedPriorities[..n + 1] == sortedPriorities[..n] + [p];
      }
      assert sortedPriorities[..|sortedPriorities|] == sortedPriorities;
      if available != [] { assert available[0] in available; }
    }

    /** DrainAll hands over every queued job once, by class and then in order of arrival. */
    method DrainAll() returns (handed: seq<Job>)
      requires Valid()
      modifies this`queues
      ensures Valid() && AllEmpty(queues) && queues.Keys == old(queues.Keys)
      ensures handed == ByClass(old(queues), sortedPriorities, 0)
    {
      hide ByClass, Emptied;
      handed := [];
      ghost var all := queues;
      EmptiedNone(all, sortedPriorities);
      for n := 0 to |sortedPriorities|
        invariant Valid() && Emptied(all, queues, sortedPriorities, n) && Covers(all, sortedPriorities)
        invariant handed + ByClass(all, sortedPriorities, n) == ByClass(all, sortedPriorities, 0)
      {
        var p := sortedPriorities[n];
        EmptiedStep(all, queues, sortedPriorities, n, handed);
        var drained := DrainClass(p);
        handed := handed + drained;
      }
      EmptiedAll(all, queues, sortedPriorities);
    }

    method DrainClass(p: int) returns (handed: seq<Job>)
      requires Valid() && p in queues
      modifies this`queues
      ensures Valid() && queues == old(queues)[p := []] && handed == old(queues)[p]
    {
      handed := [];
      ghost var all := queues;
      while queues[p] != []
        invariant Valid() && p in queues && handed + queues[p] == all[p] && queues == all[p := queues[p]]
        decreases |queues[p]|
      {
        handed := handed + [queues[p][0]];
        queues := queues[p := queues[p][1..]];
      }
    }
  }

  /** What ByClass lists: the jobs of the listed classes and no others. */
  lemma {:induction false} ByClassHolds(queues: Queues, classes: seq<int>, n: nat, j: Job)
    requires Covers(queues, classes) && n <= |classes|
    ensures j in ByClass(queues, classes, n) <==> exists i :: n <= i < |classes| && j in queues[classes[i]]
    decreases |classes| - n
  {
    if n < |classes| { ByClassHolds(queues, classes, n + 1, j); }
  }

  /** DualQueueManager: classes below 0 go to the system queue. */
  class DualQueueManager {
    const systemCapacity: nat
    const userCapacity: nat
    var system: seq<Job>
    var user: seq<Job>

    constructor (systemCapacity: nat, userCapacity: nat)
      ensures system == [] && user == [] && this.systemCapacity == systemCapacity && this.userCapacity == userCapacity
    {
      this.systemCapacity, this.userCapacity, system, user := systemCapacity, userCapacity, [], [];
    }

    method Submit(e: Job) returns (r: SubmitResult)
      modifies this
      ensures r.Full? <==> if e.priority < 0 then |old(system)| >= systemCapacity else |old(user)| >= userCapacity
      ensures r.Full? ==> system == old(system) && user == old(user)
      ensures !r.Full? ==> if e.priority < 0 then system == old(system) + [e] && user == old(user)
                           else system == old(system) && user == old(user) + [e]
    {
      if e.priority < 0 {
        if |system| >= systemCapacity { return Full; }
        system := system + [e];
      } else {
        if |user| >= userCapacity { return Full; }
        user := user + [e];
      }
      return Accepted;
    }

    /** System jobs first; each queue in order of arrival. */
    method NextJob() returns (r: Popped)
      modifies this
      ensures r.Nothing? <==> old(system) == [] && old(user) == []
      ensures (match r case Popped(j) => [j] + (system + user) case Nothing => []) == old(system + user)
      ensures old(system) != [] ==> user == old(user)
    {
      if system != [] {
        r := Popped(system[0]);
        assert [system[0]] + (system[1..] + user) == system + user;
        system := system[1..];
      } else if user != [] {
        r := Popped(user[0]);
        assert [user[0]] + (system + user[1..]) == system + user;
        user := user[1..];
      } else {
        r := Nothing;
      }
    }

    method DrainAll() returns (handed: seq<Job>)
      modifies this
      ensures handed == old(system + user) && system == [] && user == []
    {
      handed := [];
      while system != []
        invariant handed + system == old(system) && user == old(user)
        decreases |system|
      {
        handed := handed + [system[0]];
        system := system[1..];
      }
      while user != []
        invariant handed + user == old(system + user) && system == []
        decreases |user|
      {
        handed := handed + [user[0]];
        user := user[1..];
      }
    }
  }
}
