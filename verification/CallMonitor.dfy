/** The table of pending RPC calls (engine/pkg/monitor/monitor.go): buckets selected by a
    power-of-two mask. Each method is one region under a bucket's mutex. */
module CallMonitor {
  import opened Bits

  /** bits.Len. */
  function BitLen(x: nat): nat { if x == 0 then 0 else 1 + BitLen(x / 2) }

  lemma {:induction false} BitLenBounds(x: nat)
    ensures x < Pow2(BitLen(x)) && (x > 0 ==> Pow2(BitLen(x)) <= 2 * x)
  {
    if x > 0 { BitLenBounds(x / 2); }
  }

  const MaxPow2: nat := 0x4000_0000_0000_0000

  /** RoundUpToPowerOfTwoInt: the least power of two that is not below v (1 for v <= 1), up to the
      largest that an int holds. */
  function RoundUp(v: int): (p: nat)
    ensures v <= MaxPow2 ==> v <= p && (p > 1 ==> p < 2 * v)
    ensures IsPow2(p)
  {
    MaxIsPow2();
    if v <= 1 then assert 1 == Pow2(0); 1
    else if v >= MaxPow2 then MaxPow2
    else BitLenBounds(v - 1); Pow2(BitLen(v - 1))
  }

  lemma SmallPowers()
    ensures Pow2(8) == 0x100 && Pow2(6) == 0x40
  {
  }

  lemma MaxIsPow2()
    ensures MaxPow2 == Pow2(62)
  {
    hide Pow2;
    SmallPowers();
    Pow2Sum(8, 8);
    Pow2Sum(16, 16);
    Pow2Sum(32, 16);
    Pow2Sum(48, 8);
    Pow2Sum(56, 6);
  }

  type Buckets<S> = seq<map<nat, S>>

  function With<S>(m: map<nat, S>, r: nat, s: S): map<nat, S> { m[r := s] }

  /** Every entry is in the bucket of its id. */
  ghost predicate Sharded<S>(b: Buckets<S>)
  {
    |b| > 0 && forall i, r :: 0 <= i < |b| && r in b[i] ==> r % |b| == i
  }

  /** The one map that the buckets are. */
  ghost function Table<S>(b: Buckets<S>): map<nat, S>
    requires |b| > 0
  {
    map r | r in Ids(b) && r in b[r % |b|] :: b[r % |b|][r]
  }

  ghost function Ids<S>(b: Buckets<S>): set<nat> { set i, r | 0 <= i < |b| && r in b[i] :: r }

  lemma TableAt<S>(b: Buckets<S>, r: nat)
    requires Sharded(b)
    ensures r in Table(b) <==> r in b[r % |b|]
    ensures r in Table(b) ==> Table(b)[r] == b[r % |b|][r]
  {
  }

  /** Changing one id in its bucket changes that id in the table. */
  lemma TableUpdate<S>(b: Buckets<S>, r: nat, s: S)
    requires Sharded(b)
    ensures var i := r % |b|; Sharded(b[i := With(b[i], r, s)]) && Table(b[i := With(b[i], r, s)]) == Table(b)[r := s]
  {
    var i := r % |b|;
    var b' := b[i := With(b[i], r, s)];
    assert Sharded(b');
    forall q: nat ensures q in Table(b') <==> q in Table(b)[r := s] { TableAt(b, q); TableAt(b', q); }
    forall q: nat | q in Table(b') ensures Table(b')[q] == Table(b)[r := s][q] { TableAt(b, q); TableAt(b', q); }
  }

  lemma TableDelete<S>(b: Buckets<S>, r: nat)
    requires Sharded(b)
    ensures var i := r % |b|; Sharded(b[i := b[i] - {r}]) && Table(b[i := b[i] - {r}]) == Table(b) - {r}
  {
    var i := r % |b|;
    var b' := b[i := b[i] - {r}];
    assert Sharded(b');
    forall q: nat ensures q in Table(b') <==> q in Table(b) - {r} { TableAt(b, q); TableAt(b', q); }
    forall q: nat | q in Table(b') ensures Table(b')[q] == Table(b)[q] { TableAt(b, q); TableAt(b', q); }
  }

  lemma TableClear<S>(b: Buckets<S>, i: nat)
    requires Sharded(b) && i < |b|
    ensures Sharded(b[i := map[]])
    ensures Table(b[i := map[]]) == map r | r in Table(b) && r % |b| != i :: Table(b)[r]
  {
    var b' := b[i := map[]];
    assert Sharded(b');
    forall q: nat ensures q in Table(b') <==> q in Table(b) && q % |b| != i { TableAt(b, q); TableAt(b', q); }
    forall q: nat | q in Table(b') ensures Table(b')[q] == Table(b)[q] { TableAt(b, q); TableAt(b', q); }
  }

  const Wrap: nat := 0x1_0000_0000_0000_0000

  /** The id of the k-th call. */
  function SeqId(k: nat): nat { k % Wrap }

  /** Two calls share an id exactly when a multiple of 2^64 lies between them, and a call gets the id
      0, which `remove` takes for "none", exactly when its number is such a multiple. */
  lemma IdsDistinct(i: nat, j: nat)
    requires i < j
    ensures SeqId(i) == SeqId(j) <==> (j - i) % Wrap == 0
    ensures j - i < Wrap ==> SeqId(i) != SeqId(j)
    ensures 0 < j < Wrap ==> SeqId(j) != 0
    ensures SeqId(Wrap) == 0
  {
    var q, r := (j - i) / Wrap, (j - i) % Wrap;
    assert j == i + q * Wrap + r;
    if r == 0 { AddMultiple(i, Wrap, q); }
  }

  datatype Found<S> = Nothing | Found(state: S)

  class RpcMonitor<S> {
    var buckets: Buckets<S>
    var mask: nat
    var seqNo: nat
    ghost var issued: nat

    /** initBuckets. */
    constructor (bucketCount: int)
      requires bucketCount <= MaxPow2
      ensures Valid() && issued == 0 && Calls() == map[]
      ensures |buckets| == RoundUp(if bucketCount <= 0 then 256 else bucketCount)
    {
      var count := RoundUp(if bucketCount <= 0 then 256 else bucketCount);
      buckets := seq(count, _ => map[]);
      mask := count - 1;
      seqNo, issued := 0, 0;
    }

    ghost predicate Valid()
      reads this
    {
      Sharded(buckets) && IsPow2(|buckets|) && mask == |buckets| - 1 && seqNo == SeqId(issued)
    }

    ghost function Calls(): map<nat, S>
      requires Valid()
      reads this
    {
      Table(buckets)
    }

    /** bucketIndex. */
    method BucketIndex(id: nat) returns (index: nat)
      requires Valid()
      ensures index == id % |buckets| && index < |buckets|
    {
      var k: nat :| |buckets| == Pow2(k);
      MaskIsRemainder(id, k);
      index := And(id, mask);
    }

    method Add(id: nat, state: S)
      requires Valid()
      modifies this`buckets
      ensures Valid() && Calls() == old(Calls())[id := state]
    {
      var i := BucketIndex(id);
      TableUpdate(buckets, id, state);
      buckets := buckets[i := With(buckets[i], id, state)];
    }

    /** Del: whoever gets the state is the last to get it. */
    method Del(id: nat) returns (r: Found<S>)
      requires Valid()
      modifies this`buckets
      ensures Valid() && Calls() == old(Calls()) - {id}
      ensures r == if id in old(Calls()) then Found(old(Calls())[id]) else Nothing
    {
      var i := BucketIndex(id);
      TableDelete(buckets, id);
      TableAt(buckets, id);
      r := if id in buckets[i] then Found(buckets[i][id]) else Nothing;
      buckets := buckets[i := buckets[i] - {id}];
    }

    method Get(id: nat) returns (r: Found<S>)
      requires Valid()
      ensures r == if id in Calls() then Found(Calls()[id]) else Nothing
    {
      var i := BucketIndex(id);
      TableAt(buckets, id);
      r := if id in buckets[i] then Found(buckets[i][id]) else Nothing;
    }

    /** waitBucket.Clear on bucket `i`: releases exactly the calls of that residue. */
    method Clear(i: nat) returns (released: map<nat, S>)
      requires Valid() && i < |buckets|
      modifies this`buckets
      ensures Valid() && |buckets| == old(|buckets|)
      ensures Calls() == map r | r in old(Calls()) && r % |buckets| != i :: old(Calls())[r]
      ensures released == map r | r in old(Calls()) && r % |buckets| == i :: old(Calls())[r]
    {
      TableClear(buckets, i);
      released := buckets[i];
      ClearedPart(buckets, i);
      buckets := buckets[i := map[]];
    }

    lemma ClearedPart(b: Buckets<S>, i: nat)
      requires Sharded(b) && i < |b|
      ensures b[i] == map r | r in Table(b) && r % |b| == i :: Table(b)[r]
    {
      forall q: nat ensures q in b[i] <==> q in Table(b) && q % |b| == i { TableAt(b, q); }
      forall q: nat | q in b[i] ensures Table(b)[q] == b[i][q] { TableAt(b, q); }
    }

    /** GenSeq: a 64-bit counter; the k-th id is `SeqId(k)`. */
    method GenSeq() returns (id: nat)
      requires Valid()
      modifies this`seqNo, this`issued
      ensures Valid() && issued == old(issued) + 1 && id == SeqId(issued) && Calls() == old(Calls())
    {
      seqNo := (seqNo + 1) % Wrap;
      issued := issued + 1;
      id := seqNo;
    }
  }
}
