/** The storage budget of bounded mailboxes: the layout part of normalizeQueueSpec
    (engine/pkg/actor/mailbox/worker_pool.go). */
module QueueSpec {
  import opened Bits

  const MaxUint64: nat := 0xffff_ffff_ffff_ffff
  const MaxInt: nat := 0x7fff_ffff_ffff_ffff

  datatype Checked = Overflow | Value(value: nat)

  /** Unsigned 64-bit arithmetic with an overflow test before the operation. */
  function CheckedAdd(a: nat, b: nat): (r: Checked)
    requires a <= MaxUint64 && b <= MaxUint64
    ensures r.Value? <==> a + b <= MaxUint64
    ensures r.Value? ==> r.value == a + b
  {
    if b > MaxUint64 - a then Overflow else Value((a + b) % (MaxUint64 + 1))
  }

  function CheckedMul(a: nat, b: nat): (r: Checked)
    requires a <= MaxUint64 && b <= MaxUint64
    ensures r.Value? <==> a * b <= MaxUint64
    ensures r.Value? ==> r.value == a * b
  {
    MulTest(a, b);
    if a != 0 && b > MaxUint64 / a then Overflow else Value((a * b) % (MaxUint64 + 1))
  }

  /** The division test is exact. */
  lemma MulTest(a: nat, b: nat)
    ensures a != 0 ==> (b > MaxUint64 / a <==> a * b > MaxUint64)
  {
    if a != 0 {
      var q := MaxUint64 / a;
      Division(MaxUint64, a);
      if b > q { MulStep(a, q, b); } else if b < q { MulStep(a, b, q); }
    }
  }

  /** The exact sums, over the integers. */
  ghost function Slots(caps: seq<nat>): nat { if caps == [] then 0 else Slots(caps[..|caps| - 1]) + caps[|caps| - 1] }

  /** One queue: its header and its slot array. */
  ghost function Layout(fixed: nat, slot: nat, capacity: nat): nat { fixed + capacity * slot }

  ghost function Bytes(fixed: nat, slot: nat, caps: seq<nat>): nat
  {
    if caps == [] then 0 else Bytes(fixed, slot, caps[..|caps| - 1]) + Layout(fixed, slot, caps[|caps| - 1])
  }

  /** Every capacity is a power of two from 2 on whose slot array fits the platform's int. */
  ghost predicate Sized(slot: nat, caps: seq<int>)
  {
    forall i :: 0 <= i < |caps| ==> caps[i] >= 2 && IsPow2(caps[i]) && caps[i] * slot <= MaxInt
  }

  ghost predicate Acceptable(fixed: nat, slot: nat, caps: seq<int>, workers: nat, budget: nat)
  {
    && Sized(slot, caps)
    && var sizes := Sizes(slot, caps);
       Slots(sizes) <= MaxUint64 && Bytes(fixed, slot, sizes) <= MaxUint64
         && Bytes(fixed, slot, sizes) * workers <= budget
  }

  ghost function Sizes(slot: nat, caps: seq<int>): (sizes: seq<nat>)
    requires Sized(slot, caps)
    ensures |sizes| == |caps| && forall i :: 0 <= i < |caps| ==> sizes[i] == caps[i]
  {
    seq(|caps|, i requires 0 <= i < |caps| => caps[i])
  }

  datatype Verdict = Refused | Accepted(storageBytes: nat)

  /** The checking loop of normalizeQueueSpec: it accepts exactly the layouts whose exact total is
      within the budget without overflow anywhere, and reports that total. */
  method CheckLayout(fixed: nat, slot: nat, caps: seq<int>, workers: nat, budget: nat) returns (v: Verdict)
    requires fixed <= MaxUint64 && slot <= MaxUint64 && workers <= MaxUint64 && budget <= MaxUint64
    requires forall i :: 0 <= i < |caps| ==> caps[i] <= MaxInt
    ensures v.Accepted? <==> Acceptable(fixed, slot, caps, workers, budget)
    ensures v.Accepted? ==> v.storageBytes == Bytes(fixed, slot, Sizes(slot, caps)) * workers
  {
    var bytes, slots := 0, 0;
    for i := 0 to |caps|
      invariant Sized(slot, caps[..i])
      invariant slots == Slots(Sizes(slot, caps[..i])) <= MaxUint64
      invariant bytes == Bytes(fixed, slot, Sizes(slot, caps[..i])) <= MaxUint64
    {
      var capacity := caps[i];
      if capacity >= 2 { PowerTest(capacity); }
      if capacity < 2 || And(capacity, capacity - 1) != 0 { return Refused; }
      Extend(fixed, slot, caps, i);
      var more := CheckedAdd(slots, capacity);
      if more.Overflow? { return Refused; }
      slots := more.value;
      var block := CheckedMul(capacity, slot);
      if block.Overflow? || block.value > MaxInt { return Refused; }
      var layout := CheckedAdd(fixed, block.value);
      if layout.Overflow? { return Refused; }
      var sum := CheckedAdd(bytes, layout.value);
      if sum.Overflow? { return Refused; }
      bytes := sum.value;
    }
    assert caps[..|caps|] == caps;
    var total := CheckedMul(bytes, workers);
    if total.Overflow? || total.value > budget { return Refused; }
    return Accepted(total.value);
  }

  /** What a refusal at position `i` says about the whole list, and what passing it adds. */
  lemma Extend(fixed: nat, slot: nat, caps: seq<int>, i: nat)
    requires i < |caps| && Sized(slot, caps[..i])
    ensures Sized(slot, caps[..i + 1]) <==> caps[i] >= 2 && IsPow2(caps[i]) && caps[i] * slot <= MaxInt
    ensures Sized(slot, caps[..i + 1]) ==>
              && Slots(Sizes(slot, caps[..i + 1])) == Slots(Sizes(slot, caps[..i])) + caps[i]
              && Bytes(fixed, slot, Sizes(slot, caps[..i + 1])) == Bytes(fixed, slot, Sizes(slot, caps[..i]))
                 + Layout(fixed, slot, caps[i])
    ensures Sized(slot, caps) ==>
              && Sized(slot, caps[..i + 1])
              && Slots(Sizes(slot, caps[..i + 1])) <= Slots(Sizes(slot, caps))
              && Bytes(fixed, slot, Sizes(slot, caps[..i + 1])) <= Bytes(fixed, slot, Sizes(slot, caps))
  {
    if Sized(slot, caps[..i + 1]) { assert Sizes(slot, caps[..i + 1])[..i] == Sizes(slot, caps[..i]); }
    if Sized(slot, caps) { PrefixSums(fixed, slot, caps, i + 1); }
  }

  lemma {:induction false} PrefixSums(fixed: nat, slot: nat, caps: seq<int>, i: nat)
    requires i <= |caps| && Sized(slot, caps)
    ensures Sized(slot, caps[..i])
    ensures Slots(Sizes(slot, caps[..i])) <= Slots(Sizes(slot, caps))
    ensures Bytes(fixed, slot, Sizes(slot, caps[..i])) <= Bytes(fixed, slot, Sizes(slot, caps))
    decreases |caps|
  {
    if i == |caps| {
      assert caps[..i] == caps;
    } else {
      var front := caps[..|caps| - 1];
      assert Sized(slot, front);
      hide Layout, Sized;
      assert Sizes(slot, caps)[..|caps| - 1] == Sizes(slot, front) && front[..i] == caps[..i];
      PrefixSums(fixed, slot, front, i);
    }
  }

  /** Published workers up to the number the check was made for stay within the budget. */
  lemma FewerWorkers(fixed: nat, slot: nat, caps: seq<int>, workers: nat, budget: nat, published: nat)
    requires Acceptable(fixed, slot, caps, workers, budget) && published <= workers
    ensures Bytes(fixed, slot, Sizes(slot, caps)) * published <= budget
  {
    var b := Bytes(fixed, slot, Sizes(slot, caps));
    if published < workers { MulStep(b, published, workers); }
  }

  // ---- The configuration around it

  const DefaultCapacity: int := 4096
  const DefaultBudget: nat := 0x400_0000

  datatype Class = Class(priority: int, capacity: int)

  /** A bounded configuration after fixConf. The classes come in the order in which the map is
      traversed; a missing DualQueueCapacity is (0, 0). */
  datatype Queues = DualQueues(system: int, user: int) | PriorityQueues(classes: seq<Class>)

  datatype Scaling = Fixed | Unset | Scaling(maxWorkers: nat, coolDown: int)

  datatype Conf = Conf(queues: Queues, initialWorkers: nat, scaling: Scaling, maxBytes: nat)

  function Defaulted(capacity: int): (c: int)
    ensures c != 0 && (capacity != 0 ==> c == capacity) && (capacity == 0 ==> c == 4096)
  {
    if capacity == 0 then DefaultCapacity else capacity
  }

  function Capacities(q: Queues): (caps: seq<int>)
    ensures |caps| == if q.DualQueues? then 2 else |q.classes|
    ensures forall i :: 0 <= i < |caps| ==> caps[i] != 0
    ensures q.DualQueues? ==> (q.system != 0 ==> caps[0] == q.system) && (q.user != 0 ==> caps[1] == q.user)
    ensures q.PriorityQueues? ==>
              forall i :: 0 <= i < |caps| && q.classes[i].capacity != 0 ==> caps[i] == q.classes[i].capacity
  {
    match q
    case DualQueues(system, user) => [Defaulted(system), Defaulted(user)]
    case PriorityQueues(classes) => seq(|classes|, i requires 0 <= i < |classes| => Defaulted(classes[i].capacity))
  }

  /** The number of workers the budget is checked for. */
  function Workers(conf: Conf): nat { if conf.scaling.Scaling? then conf.scaling.maxWorkers else conf.initialWorkers }

  function Budget(conf: Conf): (b: nat)
    ensures conf.maxBytes > 0 ==> b == conf.maxBytes
    ensures conf.maxBytes == 0 ==> b == 64 * 1024 * 1024
  {
    if conf.maxBytes == 0 then DefaultBudget else conf.maxBytes
  }

  ghost predicate HasClass(classes: seq<Class>, p: int) { exists i :: 0 <= i < |classes| && classes[i].priority == p }

  /** All three system classes (-3, -2, -1) and a user class are there. */
  ghost predicate Complete(classes: seq<Class>)
  {
    && HasClass(classes, -3) && HasClass(classes, -2) && HasClass(classes, -1)
    && exists i :: 0 <= i < |classes| && classes[i].priority >= 0
  }

  ghost predicate Consistent(conf: Conf)
  {
    && (conf.queues.PriorityQueues? ==> Complete(conf.queues.classes))
    && !conf.scaling.Unset?
    && (conf.scaling.Scaling? ==> conf.scaling.maxWorkers >= conf.initialWorkers && conf.scaling.coolDown > 0)
  }

  /** normalizeQueueSpec for the bounded backend. */
  method Normalize(conf: Conf, fixed: nat, slot: nat) returns (v: Verdict)
    requires fixed <= MaxUint64 && slot <= MaxUint64 && conf.maxBytes <= MaxUint64 && Workers(conf) <= MaxUint64
    requires forall i :: 0 <= i < |Capacities(conf.queues)| ==> Capacities(conf.queues)[i] <= MaxInt
    ensures v.Accepted? <==>
              && Consistent(conf)
              && Acceptable(fixed, slot, Capacities(conf.queues), Workers(conf), Budget(conf))
    ensures v.Accepted? ==>
              v.storageBytes == Bytes(fixed, slot, Sizes(slot, Capacities(conf.queues))) * Workers(conf) <= Budget(conf)
  {
    if conf.queues.PriorityQueues? {
      var complete := CheckClasses(conf.queues.classes);
      if !complete { return Refused; }
    }
    if conf.scaling.Unset? { return Refused; }
    if conf.scaling.Scaling? {
      if conf.scaling.maxWorkers < conf.initialWorkers || conf.scaling.coolDown <= 0 { return Refused; }
    }
    v := CheckLayout(fixed, slot, Capacities(conf.queues), Workers(conf), Budget(conf));
  }

  lemma OneMoreClass(classes: seq<Class>, c: Class)
    ensures forall q :: HasClass(classes + [c], q) <==> HasClass(classes, q) || q == c.priority
  {
    forall q ensures HasClass(classes + [c], q) <==> HasClass(classes, q) || q == c.priority {
      var more := classes + [c];
      if HasClass(classes, q) { var i :| 0 <= i < |classes| && classes[i].priority == q; assert more[i].priority == q; }
      if q == c.priority { assert more[|classes|].priority == q; }
      if HasClass(more, q) { var i :| 0 <= i < |more| && more[i].priority == q; }
    }
  }

  /** The system classes are looked up; the fallback is the class with the largest number. */
  method CheckClasses(classes: seq<Class>) returns (complete: bool)
    ensures complete <==> Complete(classes)
  {
    var present: set<int> := {};
    var first, fallback := true, 0;
    for n := 0 to |classes|
      invariant first <==> n == 0
      invariant forall p :: p in present <==> HasClass(classes[..n], p)
      invariant n > 0 ==> fallback in present && forall i :: 0 <= i < n ==> classes[i].priority <= fallback
    {
      var p := classes[n].priority;
      assert classes[..n + 1] == classes[..n] + [classes[n]];
      assert forall q :: HasClass(classes[..n + 1], q) <==> HasClass(classes[..n], q) || q == p by {
        OneMoreClass(classes[..n], classes[n]);
      }
      present := present + {p};
      if first || p > fallback { fallback, first := p, false; }
    }
    assert classes[..|classes|] == classes;
    complete := -3 in present && -2 in present && -1 in present && fallback >= 0 && !first;
  }
}
