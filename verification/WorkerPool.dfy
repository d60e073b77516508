/** The topology of the worker pool (engine/pkg/actor/mailbox/worker_pool.go): published
    snapshots, routing, growth and shrinking. */
module WorkerPool {
  import opened JumpHash
  import QueueSpec

  /** dispatchRing: the sorted ids; a bucket is an index. */
  ghost predicate Increasing(s: seq<nat>) { forall i, j :: 0 <= i < j < |s| ==> s[i] < s[j] }

  ghost function Elements(s: seq<nat>): set<nat> { set x | x in s }

  /** A strictly increasing sequence is determined by its elements. */
  lemma {:induction false} IncreasingUnique(a: seq<nat>, b: seq<nat>)
    requires Increasing(a) && Increasing(b) && Elements(a) == Elements(b)
    ensures a == b
    decreases |a|
  {
    if |b| > 0 { SplitLast(b); }
    if |a| > 0 { SplitLast(a); }
    if |a| > 0 {
      hide Increasing, Elements;
      IncreasingUnique(a[..|a| - 1], b[..|b| - 1]);
      assert a == a[..|a| - 1] + [a[|a| - 1]] && b == b[..|b| - 1] + [b[|b| - 1]];
    }
  }

  /** The last element is the greatest, and the rest is everything else. */
  lemma SplitLast(s: seq<nat>)
    requires Increasing(s) && |s| > 0
    ensures var r, x := s[..|s| - 1], s[|s| - 1];
            && Increasing(r) && Elements(s) == Elements(r) + {x} && x !in Elements(r) && x in Elements(s)
            && forall y :: y in Elements(s) ==> y <= x
  {
  }

  /** newDispatchRing: sorts a copy. */
  method NewDispatchRing(ids: seq<nat>) returns (ring: seq<nat>)
    requires forall i, j :: 0 <= i < j < |ids| ==> ids[i] != ids[j]
    ensures Increasing(ring) && Elements(ring) == Elements(ids)
  {
    ring := [];
    for n := 0 to |ids|
      invariant Increasing(ring) && Elements(ring) == Elements(ids[..n])
    {
      var k := 0;
      while k < |ring| && ring[k] < ids[n]
        invariant 0 <= k <= |ring| && forall i :: 0 <= i < k ==> ring[i] < ids[n]
      {
        k := k + 1;
      }
      InsertIncreasing(ring, k, ids, n);
      ring := ring[..k] + [ids[n]] + ring[k..];
    }
    assert ids[..|ids|] == ids;
  }

  lemma InsertIncreasing(ring: seq<nat>, k: nat, ids: seq<nat>, n: nat)
    requires k <= |ring| && n < |ids| && Increasing(ring) && Elements(ring) == Elements(ids[..n])
    requires forall i, j :: 0 <= i < j < |ids| ==> ids[i] != ids[j]
    requires (forall i :: 0 <= i < k ==> ring[i] < ids[n]) && (k < |ring| ==> ids[n] <= ring[k])
    ensures var after := ring[..k] + [ids[n]] + ring[k..];
            Increasing(after) && Elements(after) == Elements(ids[..n + 1])
  {
    var after := ring[..k] + [ids[n]] + ring[k..];
    assert ids[n] !in Elements(ids[..n]);
    assert ids[n] !in ring;
    assert forall i :: k <= i < |ring| ==> ids[n] < ring[i];
    assert forall i :: 0 <= i < |after| ==>
             after[i] == if i < k then ring[i] else if i == k then ids[n] else ring[i - 1];
    assert ids[..n + 1] == ids[..n] + [ids[n]];
    assert Elements(after) == Elements(ring) + {ids[n]};
  }

  /** workersSnapshot. A worker is whatever `W` is; `sole` holds the only worker and its id. */
  datatype Sole<W> = NoSole | Sole(id: nat, worker: W)

  datatype Snapshot<W> = Snapshot(workers: map<nat, W>, ring: seq<nat>, count: nat, sole: Sole<W>)

  datatype Published<W> = Unpublished | Current(snapshot: Snapshot<W>)

  /** The ring holds exactly the keys of the worker map, sorted; the count and the shortcut
      agree with the map. */
  ghost predicate Coherent<W>(s: Snapshot<W>)
  {
    && Increasing(s.ring) && Elements(s.ring) == s.workers.Keys && |s.ring| == s.count == |s.workers|
    && (s.count == 1 ==> s.sole.Sole? && s.sole.id in s.workers && s.workers[s.sole.id] == s.sole.worker)
  }

  /** What DispatchJob finds before it submits. */
  datatype Routing<W> = NotFound | NoRing | Missing | To(id: nat, worker: W)

  /** The id the ring gives for a hashed key. */
  ghost function Owner<W>(jump: Jump, s: Snapshot<W>, hash: nat): nat
    requires Ahead(jump) && Coherent(s) && s.count > 0
  {
    s.ring[Bucket(jump, hash, |s.ring|)]
  }

  lemma OwnerThere<W>(jump: Jump, s: Snapshot<W>, hash: nat)
    requires Ahead(jump) && Coherent(s) && s.count > 0
    ensures Owner(jump, s, hash) in s.workers
  {
    assert s.ring[Bucket(jump, hash, |s.ring|)] in Elements(s.ring);
  }

  lemma {:induction false} IncreasingSize(s: seq<nat>)
    requires Increasing(s)
    ensures |Elements(s)| == |s|
    decreases |s|
  {
    if s != [] {
      var r, x := s[..|s| - 1], s[|s| - 1];
      IncreasingSize(r);
      assert Elements(s) == Elements(r) + {x} && x !in Elements(r);
    }
  }

  /** Growth moves a key only to a new worker. */
  lemma GrowthMoves<W>(jump: Jump, before: Snapshot<W>, after: Snapshot<W>, added: seq<nat>, hash: nat)
    requires Ahead(jump) && Coherent(before) && Coherent(after) && before.count > 0
    requires after.ring == before.ring + added
    ensures Owner(jump, after, hash) == Owner(jump, before, hash) || Owner(jump, after, hash) in added
  {
    Consistent(jump, hash, |before.ring|, |after.ring|);
  }

  /** Shrinking moves only the keys of removed workers. */
  lemma ShrinkMoves<W>(jump: Jump, before: Snapshot<W>, after: Snapshot<W>, hash: nat)
    requires Ahead(jump) && Coherent(before) && Coherent(after) && 0 < after.count <= before.count
    requires after.ring == before.ring[..after.count]
    ensures Owner(jump, before, hash) in after.workers ==> Owner(jump, after, hash) == Owner(jump, before, hash)
  {
    var n, m := |after.ring|, |before.ring|;
    Consistent(jump, hash, n, m);
    var b := Bucket(jump, hash, m);
    if before.ring[b] in after.workers {
      assert before.ring[b] in Elements(after.ring);
      var i :| 0 <= i < n && after.ring[i] == before.ring[b];
      assert b == i;
    }
  }

  /** What the queues of a pool are: unbounded, or bounded by a configuration, with the sizes of a
      queue header and of a slot. */
  datatype Backend = Unbounded | Bounded(conf: QueueSpec.Conf, fixed: nat, slot: nat)

  /** The configuration of a bounded pool went through normalizeQueueSpec, and fixConf left a
      positive MaxWorkerNum. */
  ghost predicate Checked(b: Backend, initial: nat, limit: nat)
  {
    b.Bounded? ==>
      && initial == b.conf.initialWorkers && QueueSpec.Consistent(b.conf)
      && (b.conf.scaling.Scaling? ==> 0 < limit == b.conf.scaling.maxWorkers)
      && QueueSpec.Acceptable(b.fixed, b.slot, QueueSpec.Capacities(b.conf.queues), QueueSpec.Workers(b.conf),
                              QueueSpec.Budget(b.conf))
  }

  /** WorkerPool: `initial` is InitialWorkerNum, `limit` MaxWorkerNum (0 without a ScalingStrategy),
      `hash` is xxhash and `make` is newWorker followed by Start; `resized`: resizeWorkers changed
      something, which only the auto scaler makes it do. */
  class Pool<W(==)> {
    const jump: Jump
    const hash: string -> nat
    const make: nat -> W
    const backend: Backend
    const initial: nat
    const limit: nat
    var snap: Published<W>
    var workerCount: nat
    var nextWorkerId: nat
    ghost var resized: bool

    constructor (jump: Jump, hash: string -> nat, make: nat -> W, backend: Backend, initial: nat, limit: nat)
      requires Ahead(jump) && Checked(backend, initial, limit)
      ensures Valid() && snap.Unpublished? && nextWorkerId == 0 && !resized
      ensures this.jump == jump && this.hash == hash && this.make == make
      ensures this.backend == backend && this.initial == initial && this.limit == limit
    {
      this.jump, this.hash, this.make := jump, hash, make;
      this.backend, this.initial, this.limit := backend, initial, limit;
      snap, workerCount, nextWorkerId, resized := Unpublished, 0, 0, false;
    }

    /** So many workers may be published: in a bounded pool with scaling no more than MaxWorkerNum,
        in one without exactly the initial number, unless somebody resizes it nevertheless. */
    ghost predicate Allowed(n: nat)
      reads this`resized
    {
      backend.Bounded? ==>
        if backend.conf.scaling.Scaling? then n <= backend.conf.scaling.maxWorkers else resized || n == initial
    }

    /** Ids are handed out in increasing order and never again. */
    ghost predicate Valid()
      reads this
    {
      && Ahead(jump) && Checked(backend, initial, limit)
      && (snap.Current? ==> && Coherent(snap.snapshot) && workerCount == snap.snapshot.count
                            && Allowed(snap.snapshot.count)
                            && forall id :: id in snap.snapshot.workers ==> id < nextWorkerId)
    }

    /** publishSnapshotLocked on the keys of `workers`, listed in any order. */
    method Publish(workers: map<nat, W>)
      requires Valid() && workerCount == |workers| && forall id :: id in workers ==> id < nextWorkerId
      requires Allowed(|workers|)
      modifies this`snap
      ensures Valid() && snap.Current? && snap.snapshot.workers == workers
    {
      var ids := ListKeys(workers);
      var ring := NewDispatchRing(ids);
      IncreasingSize(ring);
      var sole := NoSole;
      if |workers| == 1 {
        var id :| id in workers;
        sole := Sole(id, workers[id]);
      }
      snap := Current(Snapshot(workers, ring, |workers|, sole));
    }

    method ListKeys(workers: map<nat, W>) returns (ids: seq<nat>)
      ensures Elements(ids) == workers.Keys && forall i, j :: 0 <= i < j < |ids| ==> ids[i] != ids[j]
    {
      ids := [];
      var todo := workers.Keys;
      while todo != {}
        invariant todo <= workers.Keys && Elements(ids) == workers.Keys - todo
        invariant forall i, j :: 0 <= i < j < |ids| ==> ids[i] != ids[j]
        decreases todo
      {
        var id :| id in todo;
        assert forall i :: 0 <= i < |ids| ==> ids[i] in Elements(ids);
        assert Elements(ids + [id]) == Elements(ids) + {id};
        ids := ids + [id];
        todo := todo - {id};
      }
    }

    /** DispatchJob up to SubmitJob: never misses while a worker is published, and the shortcut
        for a single worker agrees with the ring. */
    method Route(key: string) returns (r: Routing<W>)
      requires Valid()
      ensures r.NotFound? <==> snap.Unpublished? || snap.snapshot.count == 0
      ensures snap.Current? && snap.snapshot.count > 0 ==>
                && r.To? && r.id == Owner(jump, snap.snapshot, hash(key)) && r.id in snap.snapshot.workers
                && r.worker == snap.snapshot.workers[r.id]
                && exists b: nat :: IsBucket(jump, hash(key), |snap.snapshot.ring|, b) && r.id == snap.snapshot.ring[b]
    {
      if snap.Unpublished? || snap.snapshot.count == 0 { return NotFound; }
      var s := snap.snapshot;
      OwnerThere(jump, s, hash(key));
      assert IsBucket(jump, hash(key), |s.ring|, Bucket(jump, hash(key), |s.ring|));
      if s.count == 1 {
        SoleOwner(s);
        return To(s.sole.id, s.sole.worker);
      }
      var bucket := Hash(jump, hash(key), |s.ring|);
      BucketUnique(jump, hash(key), |s.ring|, bucket, Bucket(jump, hash(key), |s.ring|));
      var id := s.ring[bucket];
      if id in s.workers { return To(id, s.workers[id]); }
      return Missing;
    }

    lemma SoleOwner(s: Snapshot<W>)
      requires Coherent(s) && s.count == 1
      ensures s.ring == [s.sole.id]
    {
      assert s.sole.id in Elements(s.ring);
    }

    /** Start: the first snapshot has exactly the configured workers. */
    method Start()
      requires Valid() && snap.Unpublished?
      modifies this
      ensures Valid() && snap.Current? && snap.snapshot.ring == Range(old(nextWorkerId), initial)
      ensures snap.snapshot.count == initial && nextWorkerId == old(nextWorkerId) + initial
      ensures resized == old(resized)
    {
      assert [] + Range(nextWorkerId, initial) == Range(nextWorkerId, initial);
      AddWorkers(map[], initial, []);
    }

    /** Start and growth: publish with `n` new workers. `ring` is the sorted ids of `workers`. */
    method AddWorkers(workers: map<nat, W>, n: nat, ghost ring: seq<nat>)
      requires Ahead(jump) && forall id :: id in workers ==> id < nextWorkerId
      requires Increasing(ring) && Elements(ring) == workers.Keys
      requires Checked(backend, initial, limit) && Allowed(|workers| + n)
      modifies this
      ensures Valid() && snap.Current? && nextWorkerId == old(nextWorkerId) + n && resized == old(resized)
      ensures snap.snapshot.count == |workers| + n && snap.snapshot.ring == ring + Range(old(nextWorkerId), n)
      ensures workers.Keys <= snap.snapshot.workers.Keys
      ensures forall id :: id in snap.snapshot.workers ==>
                snap.snapshot.workers[id] == if id in workers then workers[id] else make(id)
    {
      hide Increasing, Elements, Range, Ahead, Checked, Extends;
      AppendRange(ring, nextWorkerId, n);
      var added := NewWorkers(workers, n);
      ExtendsFacts(added, workers, old(nextWorkerId), nextWorkerId);
      assert added.Keys == Elements(ring + Range(old(nextWorkerId), n));
      workerCount := |added|;
      snap := Unpublished;
      Publish(added);
      IncreasingUnique(snap.snapshot.ring, ring + Range(old(nextWorkerId), n));
    }

    /** `added` is `workers` with new workers for the ids from `first` up to `next`. */
    ghost predicate Extends(added: map<nat, W>, workers: map<nat, W>, first: nat, next: nat)
    {
      && first <= next && |added| == |workers| + (next - first)
      && (forall id :: id in added <==> id in workers || first <= id < next)
      && (forall id :: id in added ==> added[id] == if id in workers then workers[id] else make(id))
    }

    lemma ExtendsFacts(added: map<nat, W>, workers: map<nat, W>, first: nat, next: nat)
      requires Extends(added, workers, first, next)
      ensures |added| == |workers| + (next - first)
      ensures forall id :: id in added <==> id in workers || first <= id < next
      ensures forall id :: id in added ==> added[id] == if id in workers then workers[id] else make(id)
    {
    }

    lemma ExtendsOne(added: map<nat, W>, workers: map<nat, W>, first: nat, next: nat)
      requires Extends(added, workers, first, next) && forall id :: id in workers ==> id < first
      ensures Extends(added[next := make(next)], workers, first, next + 1)
    {
      assert next !in added;
    }

    /** The loop: `n` new workers with the next ids. */
    method NewWorkers(workers: map<nat, W>, n: nat) returns (added: map<nat, W>)
      requires forall id :: id in workers ==> id < nextWorkerId
      modifies this`nextWorkerId
      ensures nextWorkerId == old(nextWorkerId) + n && Extends(added, workers, old(nextWorkerId), nextWorkerId)
    {
      added := workers;
      var first := nextWorkerId;
      assert Extends(added, workers, first, first);
      hide Extends;
      for i := 0 to n
        invariant nextWorkerId == first + i && Extends(added, workers, first, nextWorkerId)
      {
        var id := nextWorkerId;
        nextWorkerId := nextWorkerId + 1;
        ExtendsOne(added, workers, first, id);
        added := added[id := make(id)];
      }
    }

    lemma AppendRange(ring: seq<nat>, first: nat, n: nat)
      requires Increasing(ring) && forall id :: id in Elements(ring) ==> id < first
      ensures Increasing(ring + Range(first, n))
      ensures forall id :: id in Elements(ring + Range(first, n)) <==> id in Elements(ring) || first <= id < first + n
    {
      assert forall i :: 0 <= i < |ring| ==> ring[i] in Elements(ring);
      forall id | first <= id < first + n
        ensures id in ring + Range(first, n)
      {
        assert Range(first, n)[id - first] == id;
      }
    }

    /** How many workers resizeWorkers(newSize) aims at: growth is clamped to MaxWorkerNum. */
    function Target(newSize: nat): nat
      reads this`workerCount
    {
      if newSize > workerCount && 0 < limit < newSize then limit else newSize
    }

    /** resizeWorkers. Growth appends new ids to the ring; shrinking cuts its tail and returns the
        ids whose workers were stopped and waited for before the new snapshot appeared. */
    method Resize(newSize: nat) returns (removed: seq<nat>)
      requires Valid()
      modifies this
      ensures Valid() && snap.Current? == old(snap.Current?)
      ensures old(snap.Current? && Target(newSize) > workerCount) ==>
                && snap.snapshot.ring == old(snap.snapshot.ring + Range(nextWorkerId, Target(newSize) - workerCount))
                && snap.snapshot.count == old(Target(newSize)) && removed == []
                && forall id :: id in old(snap.snapshot.workers) ==>
                     id in snap.snapshot.workers && snap.snapshot.workers[id] == old(snap.snapshot.workers)[id]
      ensures old(snap.Current? && newSize < workerCount) ==>
                && snap.snapshot.ring == old(snap.snapshot.ring)[..newSize]
                && removed == old(snap.snapshot.ring)[newSize..]
                && snap.snapshot.workers == old(snap.snapshot.workers) - Elements(removed)
      ensures old(snap.Current? && 0 < workerCount < Target(newSize)) ==>
                forall h: nat :: Owner(jump, snap.snapshot, h) == Owner(jump, old(snap.snapshot), h)
                  || Owner(jump, snap.snapshot, h) >= old(nextWorkerId)
      ensures old(snap.Current? && 0 < newSize < workerCount) ==>
                forall h: nat :: Owner(jump, snap.snapshot, h) == Owner(jump, old(snap.snapshot), h)
                  || Owner(jump, old(snap.snapshot), h) in removed
      ensures old(snap.Unpublished? || (newSize >= workerCount && Target(newSize) <= workerCount)) ==>
                removed == [] && snap == old(snap) && nextWorkerId == old(nextWorkerId) && resized == old(resized)
    {
      hide Increasing, Elements, Ahead;
      removed := [];
      if newSize == workerCount { return; }
      if newSize > workerCount {
        if snap.Unpublished? { return; }
        var size := if 0 < limit < newSize then limit else newSize;
        if size <= workerCount { return; }
        resized := true;
        ghost var before, first := snap.snapshot, nextWorkerId;
        AddWorkers(snap.snapshot.workers, size - workerCount, before.ring);
        if before.count > 0 { OwnersAfterGrowth(before, snap.snapshot, first, size - before.count); }
        return;
      }
      if snap.Unpublished? { return; }
      ghost var before := snap.snapshot;
      resized := true;
      removed := Shrink(newSize);
      if newSize > 0 { OwnersAfterShrink(before, snap.snapshot, removed); }
    }

    lemma OwnersAfterGrowth(before: Snapshot<W>, after: Snapshot<W>, first: nat, n: nat)
      requires Ahead(jump) && Coherent(before) && Coherent(after) && before.count > 0
      requires after.ring == before.ring + Range(first, n)
      ensures forall h: nat :: Owner(jump, after, h) == Owner(jump, before, h) || Owner(jump, after, h) >= first
    {
      forall h: nat ensures Owner(jump, after, h) == Owner(jump, before, h) || Owner(jump, after, h) >= first {
        GrowthMoves(jump, before, after, Range(first, n), h);
      }
    }

    lemma OwnersAfterShrink(before: Snapshot<W>, after: Snapshot<W>, removed: seq<nat>)
      requires Ahead(jump) && Coherent(before) && Coherent(after) && 0 < after.count <= before.count
      requires after.ring == before.ring[..after.count] && after.workers == before.workers - Elements(removed)
      ensures forall h: nat :: Owner(jump, after, h) == Owner(jump, before, h) || Owner(jump, before, h) in removed
    {
      forall h: nat ensures Owner(jump, after, h) == Owner(jump, before, h) || Owner(jump, before, h) in removed {
        OwnerThere(jump, before, h);
        ShrinkMoves(jump, before, after, h);
      }
    }

    /** In every state of a bounded pool that scales, or that nobody resized, the queue layout of the
        published workers is within MaxQueueStorageBytes. */
    lemma WithinBudget()
      requires Valid() && snap.Current? && backend.Bounded? && (backend.conf.scaling.Scaling? || !resized)
      ensures var caps := QueueSpec.Capacities(backend.conf.queues);
              var bytes := QueueSpec.Bytes(backend.fixed, backend.slot, QueueSpec.Sizes(backend.slot, caps));
              bytes * |snap.snapshot.workers| <= QueueSpec.Budget(backend.conf)
    {
      var conf := backend.conf;
      QueueSpec.FewerWorkers(backend.fixed, backend.slot, QueueSpec.Capacities(conf.queues), QueueSpec.Workers(conf),
                             QueueSpec.Budget(conf), snap.snapshot.count);
    }

    method Shrink(newSize: nat) returns (removed: seq<nat>)
      requires Valid() && snap.Current? && newSize < workerCount && resized
      modifies this
      ensures Valid() && snap.Current? && nextWorkerId == old(nextWorkerId) && resized
      ensures snap.snapshot.ring == old(snap.snapshot.ring)[..newSize] && removed == old(snap.snapshot.ring)[newSize..]
      ensures snap.snapshot.workers == old(snap.snapshot.workers) - Elements(removed)
    {
      hide Increasing, Elements, Ahead;
      ghost var ring := snap.snapshot.ring;
      var workers;
      removed, workers := Evict(snap.snapshot, newSize);
      workerCount := newSize;
      snap := Unpublished;
      Publish(workers);
      IncreasingUnique(snap.snapshot.ring, ring[..newSize]);
    }

    /** The ids beyond the first `newSize` in order, and the workers without them. */
    method Evict(s: Snapshot<W>, newSize: nat) returns (removed: seq<nat>, workers: map<nat, W>)
      requires Coherent(s) && newSize < s.count
      ensures removed == s.ring[newSize..] && workers == s.workers - Elements(removed)
      ensures Increasing(s.ring[..newSize]) && Elements(s.ring[..newSize]) == workers.Keys && |workers| == newSize
    {
      var toRemove := s.count - newSize;
      var ids := SortedIds(s);
      if |ids| > newSize { ids := ids[newSize..]; } else { ids := []; }
      removed := ids[..if |ids| > toRemove then toRemove else |ids|];
      assert removed == s.ring[newSize..];
      CutRing(s, newSize);
      workers := s.workers - (set id | id in removed);
    }

    method SortedIds(s: Snapshot<W>) returns (ids: seq<nat>)
      requires Coherent(s)
      ensures ids == s.ring
    {
      ids := ListKeys(s.workers);
      ids := NewDispatchRing(ids);
      IncreasingUnique(ids, s.ring);
    }

    lemma CutRing(s: Snapshot<W>, n: nat)
      requires Coherent(s) && n <= s.count
      ensures var rest := s.workers - Elements(s.ring[n..]);
              Increasing(s.ring[..n]) && Elements(s.ring[..n]) == rest.Keys && |rest| == n
    {
      var rest := s.workers - Elements(s.ring[n..]);
      assert s.ring == s.ring[..n] + s.ring[n..];
      assert Elements(s.ring) == Elements(s.ring[..n]) + Elements(s.ring[n..]);
      assert Elements(s.ring[..n]) !! Elements(s.ring[n..]);
      IncreasingSize(s.ring[..n]);
      assert rest.Keys == Elements(s.ring[..n]);
    }

    /** Wait clears the snapshot once the workers are gone. */
    method Clear()
      requires Valid()
      modifies this`snap
      ensures Valid() && snap.Unpublished?
    {
      snap := Unpublished;
    }
  }

  datatype NewPoolResult<W(==)> = Refused | Built(pool: Pool<W>)

  /** NewWorkerPool for a bounded backend: a pool exactly when the configuration is accepted. */
  method NewBoundedPool<W(==)>(
    jump: Jump, hash: string -> nat, make: nat -> W, conf: QueueSpec.Conf, fixed: nat, slot: nat, limit: nat)
    returns (r: NewPoolResult<W>)
    requires Ahead(jump) && (conf.scaling.Scaling? ==> 0 < limit == conf.scaling.maxWorkers)
    requires fixed <= QueueSpec.MaxUint64 && slot <= QueueSpec.MaxUint64
    requires conf.maxBytes <= QueueSpec.MaxUint64 && QueueSpec.Workers(conf) <= QueueSpec.MaxUint64
    requires forall i :: 0 <= i < |QueueSpec.Capacities(conf.queues)| ==>
               QueueSpec.Capacities(conf.queues)[i] <= QueueSpec.MaxInt
    ensures r.Built? <==>
              && QueueSpec.Consistent(conf)
              && QueueSpec.Acceptable(fixed, slot, QueueSpec.Capacities(conf.queues), QueueSpec.Workers(conf),
                                      QueueSpec.Budget(conf))
    ensures r.Built? ==> fresh(r.pool) && r.pool.Valid() && r.pool.snap.Unpublished? && !r.pool.resized
    ensures r.Built? ==>
              && r.pool.backend == Bounded(conf, fixed, slot) && r.pool.initial == conf.initialWorkers
              && r.pool.limit == limit
  {
    var v := QueueSpec.Normalize(conf, fixed, slot);
    if v.Refused? { return Refused; }
    var pool := new Pool(jump, hash, make, Bounded(conf, fixed, slot), conf.initialWorkers, limit);
    return Built(pool);
  }

  /** first, first + 1, ... */
  function Range(first: nat, n: nat): (s: seq<nat>)
    ensures |s| == n && forall i :: 0 <= i < n ==> s[i] == first + i
  {
    seq(n, i requires 0 <= i => first + i)
  }
}
