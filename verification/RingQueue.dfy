/** The bounded FIFO of engine/pkg/utils/boundedmpsc/queue.go: a ring buffer with 64-bit cursors
    that wrap, indexed by a power-of-two mask. Each method body is one critical section. */
module RingQueue {
  import opened Bits

  /** Popping k values one after the other from a FIFO sequence. */
  function PopTimes<T>(s: seq<T>, k: nat): (seq<T>, seq<T>)
    decreases k
  {
    if k == 0 || s == [] then ([], s)
    else var rest := PopTimes(s[1..], k - 1); ([s[0]] + rest.0, rest.1)
  }

  lemma {:induction false} PopTimesSplits<T>(s: seq<T>, k: nat)
    ensures var n := if k < |s| then k else |s|; PopTimes(s, k) == (s[..n], s[n..])
  {
    if k > 0 && s != [] {
      PopTimesSplits(s[1..], k - 1);
      var n := if k < |s| then k else |s|;
      assert [s[0]] + s[1..][..n - 1] == s[..n] && s[1..][n - 1..] == s[n..];
    }
  }

  datatype NewResult<T> = Ok(queue: Queue<T>) | CapacityTooSmall | CapacityNotPower2

  const Wrap: nat := 0x1_0000_0000_0000_0000

  /** A uint64. */
  function Wrapped(x: nat): nat { x % Wrap }

  lemma ByteIsPow2()
    ensures Pow2(8) == 0x100
  {
  }

  lemma WrapIsPow2()
    ensures Wrap == Pow2(64)
  {
    hide Pow2;
    ByteIsPow2();
    Pow2Sum(8, 8);
    Pow2Sum(16, 16);
    Pow2Sum(32, 32);
  }

  lemma Width(c: nat) returns (k: nat)
    requires IsPow2(c) && c < Wrap
    ensures c == Pow2(k) && k <= 64 && Wrap == Pow2(64)
  {
    k :| c == Pow2(k);
    WrapIsPow2();
    if k > 64 { Pow2Monotone(64, k); }
  }

  /** Masking a cursor that wraps modulo 2^64 finds the slot of the cursor that does not. */
  lemma MaskedCursor(x: nat, c: nat)
    requires c >= 2 && IsPow2(c) && c < Wrap
    ensures And(Wrapped(x), c - 1) == x % c
  {
    var k := Width(c);
    MaskIsRemainder(x % Wrap, k);
    WrapKeepsRemainder(x, k, 64);
  }

  lemma WrappedWindow(x: nat, i: nat, c: nat)
    requires c >= 2 && IsPow2(c) && c < Wrap
    ensures (Wrapped(x) + i) % c == (x + i) % c
  {
    var k := Width(c);
    WrapBeforeSum(x, i, k, 64);
  }

  /** The slot of the i-th place from the head, whatever the cursors' wrap-around. */
  ghost function Slot(head: nat, i: nat, capacity: nat): (slot: nat)
    requires capacity > 0
    ensures slot < capacity
  {
    (head + i) % capacity
  }

  /** Different places have different slots. */
  lemma SlotsDistinct(head: nat, j: nat, c: nat)
    requires j < c
    ensures forall i :: 0 <= i < c && i != j ==> Slot(head, i, c) != Slot(head, j, c)
  {
    forall i | 0 <= i < c && i != j ensures Slot(head, i, c) != Slot(head, j, c) {
      if i < j { WindowDistinct(head, i, j, c); } else { WindowDistinct(head, j, i, c); }
    }
  }

  /** Advancing the head moves every place one slot on. */
  lemma SlotsShift(head: nat, head': nat, c: nat)
    requires 2 <= c < Wrap && IsPow2(c) && head' == Wrapped(head + 1)
    ensures forall i :: 0 <= i < c - 1 ==> Slot(head', i, c) == Slot(head, i + 1, c)
    ensures Slot(head', c - 1, c) == Slot(head, 0, c)
  {
    forall i | 0 <= i < c - 1 ensures Slot(head', i, c) == Slot(head, i + 1, c) { WrappedWindow(head + 1, i, c); }
    WrappedWindow(head + 1, c - 1, c);
    AddMultiple(head, c, 1);
  }

  /** The values of the `live` places from the head, oldest first. */
  ghost function View<T>(buffer: seq<T>, head: nat, live: nat): (s: seq<T>)
    requires live <= |buffer|
    ensures |s| == live
  {
    seq(live, i requires 0 <= i < live => buffer[Slot(head, i, |buffer|)])
  }

  /** Every other slot holds the zero value. */
  ghost predicate Cleared<T>(buffer: seq<T>, zero: T, head: nat, live: nat)
  {
    forall i :: live <= i < |buffer| ==> buffer[Slot(head, i, |buffer|)] == zero
  }

  lemma PushView<T>(buffer: seq<T>, zero: T, head: nat, live: nat, value: T)
    requires live < |buffer| && Cleared(buffer, zero, head, live)
    ensures var after := buffer[Slot(head, live, |buffer|) := value];
            View(after, head, live + 1) == View(buffer, head, live) + [value] && Cleared(after, zero, head, live + 1)
  {
    SlotsDistinct(head, live, |buffer|);
    hide Slot;
  }

  lemma TakeView<T>(buffer: seq<T>, zero: T, head: nat, head': nat, live: nat)
    requires 0 < live <= |buffer| && Cleared(buffer, zero, head, live)
    requires 2 <= |buffer| < Wrap && IsPow2(|buffer|) && head' == Wrapped(head + 1)
    ensures var after := buffer[Slot(head, 0, |buffer|) := zero];
            && View(buffer, head, live)[0] == buffer[Slot(head, 0, |buffer|)]
            && View(after, head', live - 1) == View(buffer, head, live)[1..] && Cleared(after, zero, head', live - 1)
  {
    var c := |buffer|;
    SlotsDistinct(head, 0, c);
    SlotsShift(head, head', c);
    hide Slot, IsPow2;
    var after := buffer[Slot(head, 0, c) := zero];
    forall i | 0 <= i < live - 1 ensures after[Slot(head', i, c)] == buffer[Slot(head, i + 1, c)] { }
    forall i | live - 1 <= i < c ensures after[Slot(head', i, c)] == zero {
      if i < c - 1 { assert Slot(head', i, c) == Slot(head, i + 1, c); }
    }
  }

  lemma SumCursor(x: nat, n: nat)
    ensures Wrapped(Wrapped(x) + n) == Wrapped(x + n)
  {
  }

  /** The wrapped cursor `live` places from the head masks to the slot of that place. */
  lemma CursorSlot(head: nat, live: nat, c: nat)
    requires 2 <= c < Wrap && IsPow2(c)
    ensures And(Wrapped(head + live), c - 1) == Slot(head, live, c)
    ensures Wrapped(Wrapped(head + live) + 1) == Wrapped(head + (live + 1))
  {
    hide And, IsPow2, Wrapped;
    MaskedCursor(head + live, c);
    SumCursor(head + live, 1);
  }

  /** Advancing the head of a queue with a value leaves the tail in its place. */
  lemma NextHead(head: nat, live: nat)
    requires live > 0
    ensures Wrapped(Wrapped(head + 1)) == Wrapped(head + 1)
    ensures Wrapped(Wrapped(head + 1) + (live - 1)) == Wrapped(head + live)
  {
    SumCursor(head + 1, live - 1);
    SumCursor(head + 1, 0);
  }

  class Queue<T> {
    const zero: T
    const buffer: array<T>
    const mask: nat
    var head: nat
    var tail: nat
    var count: nat

    constructor (capacity: nat, zero: T)
      requires capacity >= 2 && IsPow2(capacity) && capacity < Wrap
      ensures Valid() && fresh(buffer) && buffer.Length == capacity && Contents() == [] && this.zero == zero
      ensures head == 0
    {
      this.zero := zero;
      buffer := new T[capacity](_ => zero);
      mask := capacity - 1;
      head, tail, count := 0, 0, 0;
    }

    /** `live` values are queued, and every slot outside that window holds the zero value. */
    ghost predicate Holds(live: nat)
      reads this`head, this`tail, buffer
    {
      && 2 <= buffer.Length < Wrap && IsPow2(buffer.Length) && mask == buffer.Length - 1
      && live <= buffer.Length && head == Wrapped(head) && tail == Wrapped(head + live)
      && Cleared(buffer[..], zero, head, live)
    }

    ghost function Window(live: nat): (s: seq<T>)
      requires Holds(live)
      reads this`head, this`tail, buffer
      ensures |s| == live
    {
      View(buffer[..], head, live)
    }

    ghost predicate Valid()
      reads this, buffer
    {
      Holds(count)
    }

    /** The queued values, oldest first. */
    ghost function Contents(): (s: seq<T>)
      requires Valid()
      reads this, buffer
    {
      Window(count)
    }

    /** The array keeps nothing but the queued values: every element is one of them, in its slot, or
        the zero value. */
    lemma NothingRetained(k: nat)
      requires Valid() && k < buffer.Length
      ensures buffer[k] == zero ||
              exists i :: 0 <= i < count && Slot(head, i, buffer.Length) == k && Contents()[i] == buffer[k]
    {
      var i := WindowCovers(head, k, buffer.Length);
      assert Slot(head, i, buffer.Length) == k && buffer[..][k] == buffer[k];
      if i < count { assert Contents()[i] == buffer[k]; }
    }

    method Push(value: T) returns (ok: bool)
      requires Valid()
      modifies this, buffer
      ensures Valid() && ok == (|old(Contents())| < buffer.Length)
      ensures Contents() == if ok then old(Contents()) + [value] else old(Contents())
    {
      hide Slot, And, IsPow2, Cleared, View, Wrapped;
      if count == buffer.Length { return false; }
      CursorSlot(head, count, buffer.Length);
      PushView(buffer[..], zero, head, count, value);
      var slot := And(tail, mask);
      buffer[slot] := value;
      assert buffer[..] == old(buffer[..])[slot := value];
      tail := Wrapped(tail + 1);
      count := count + 1;
      return true;
    }

    /** The common part of Pop and PopBatch: read the head slot, clear it, advance the head. */
    method TakeHead(ghost live: nat) returns (value: T)
      requires Holds(live) && live > 0
      modifies this`head, buffer
      ensures Holds(live - 1) && value == old(Window(live))[0] && Window(live - 1) == old(Window(live))[1..]
    {
      hide Slot, And, IsPow2, Cleared, View, Wrapped;
      var index := And(head, mask);
      CursorSlot(head, 0, buffer.Length);
      NextHead(head, live);
      TakeView(buffer[..], zero, head, Wrapped(head + 1), live);
      value := buffer[index];
      buffer[index] := zero;
      assert buffer[..] == old(buffer[..])[index := zero];
      head := Wrapped(head + 1);
    }

    method Pop() returns (value: T, ok: bool)
      requires Valid()
      modifies this, buffer
      ensures Valid() && ok == (old(Contents()) != [])
      ensures if ok then value == old(Contents())[0] && Contents() == old(Contents())[1..]
              else value == zero && Contents() == old(Contents())
    {
      if count == 0 { return zero, false; }
      value := TakeHead(count);
      count := count - 1;
      return value, true;
    }

    /** Taking a batch is popping that often: what is written, what is left, and the rest of `dst`
        untouched. */
    method PopBatch(dst: array<T>) returns (n: nat)
      requires Valid() && dst != buffer
      modifies this, buffer, dst
      ensures Valid() && n <= dst.Length
      ensures PopTimes(old(Contents()), dst.Length) == (dst[..n], Contents())
      ensures dst[n..] == old(dst[n..])
    {
      hide Slot, And, IsPow2, Holds;
      n := if dst.Length < count then dst.Length else count;
      ghost var all := Contents();
      for i := 0 to n
        invariant count == |all| && Holds(count - i) && Window(count - i) == all[i..]
        invariant dst[..i] == all[..i] && dst[n..] == old(dst[n..])
      {
        var value := TakeHead(count - i);
        dst[i] := value;
      }
      count := count - n;
      PopTimesSplits(all, dst.Length);
    }

    method Empty() returns (empty: bool)
      requires Valid()
      ensures empty <==> Contents() == []
    {
      empty := count == 0;
    }

    method Len() returns (n: nat)
      requires Valid()
      ensures n == |Contents()|
    {
      n := count;
    }
  }

  /** New accepts exactly the powers of two from 2 on. `capacity` is a 64-bit int. */
  method New<T>(capacity: int, zero: T) returns (r: NewResult<T>)
    requires -0x8000_0000_0000_0000 <= capacity < 0x8000_0000_0000_0000
    ensures r.CapacityTooSmall? <==> capacity < 2
    ensures r.Ok? <==> capacity >= 2 && IsPow2(capacity)
    ensures r.Ok? ==> && fresh(r.queue) && fresh(r.queue.buffer) && r.queue.Valid() && r.queue.Contents() == []
                      && r.queue.buffer.Length == capacity && r.queue.zero == zero
  {
    if capacity < 2 { return CapacityTooSmall; }
    PowerTest(capacity);
    if And(capacity, capacity - 1) != 0 { return CapacityNotPower2; }
    var queue := new Queue(capacity, zero);
    return Ok(queue);
  }
}
