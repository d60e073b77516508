/** The priority scheduler (engine/pkg/actor/mailbox/scheduler.go). */
module PriorityScheduler {

  datatype Strategy = Absolute | Weighted | Fairness | Other

  class Scheduler {
    const strategy: Strategy
    const weights: map<int, int>
    var counters: map<int, int>

    constructor (strategy: Strategy, weights: map<int, int>)
      ensures this.strategy == strategy && this.weights == weights && counters == map p | p in weights :: 0
    {
      this.strategy, this.weights := strategy, weights;
      counters := map p | p in weights :: 0;
    }

    /** NextPriorityWithOrdering. The answer is the first class, or -1 where the weighted strategy
        meets that class more than once without a positive weight for it; -1 also stands for the
        first class when that is -1. */
    method NextPriority(available: seq<int>) returns (p: int)
      modifies this
      ensures available == [] ==> p == -1
      ensures available != [] ==>
                p == if strategy.Weighted? && Repeated(available) && !Weighs(available[0]) then -1 else available[0]
      ensures available == [] || strategy.Absolute? || strategy.Other? ==> counters == old(counters)
      ensures available != [] && (strategy.Weighted? || strategy.Fairness?) ==>
                Charged(old(counters), counters, available, p)
    {
      if available == [] { return -1; }
      match strategy
      case Absolute => return available[0];
      case Weighted => p := WeightedPriority(available);
      case Fairness => p := FairPriority(available);
      case Other => return available[0];
    }

    predicate Weighs(p: int) { p in weights && weights[p] > 0 }

    method WeightedPriority(available: seq<int>) returns (p: int)
      requires available != []
      modifies this
      ensures p == if Repeated(available) && !Weighs(available[0]) then -1 else available[0]
      ensures Charged(old(counters), counters, available, p)
    {
      ResetCountersIfNeeded();
      ghost var reset := counters;
      assert IsReset(old(counters), reset);
      var same := SamePriority(available);
      if |same| == 1 { return same[0]; }
      p := -1;
      var minRatio := 9223372036854775807.0;
      for i := 0 to |same|
        invariant p == if i > 0 && Weighs(available[0]) then available[0] else -1
      {
        var q := same[i];
        if q !in weights || weights[q] <= 0 { continue; }
        var counter := if q in counters then counters[q] else 0;
        var ratio := counter as real / weights[q] as real;
        if p == -1 || ratio < minRatio { minRatio, p := ratio, q; }
      }
      if p != -1 { counters := counters[p := CountOf(counters, p) + 1]; }
    }

    method FairPriority(available: seq<int>) returns (p: int)
      requires available != []
      modifies this
      ensures p == available[0] && Charged(old(counters), counters, available, p)
    {
      ResetCountersIfNeeded();
      ghost var reset := counters;
      assert IsReset(old(counters), reset);
      var same := SamePriority(available);
      if |same| == 1 { return same[0]; }
      p := -1;
      var minCounter := 0x7fff_ffff_ffff_ffff;
      for i := 0 to |same|
        invariant p == if i > 0 then available[0] else -1
      {
        var counter := if same[i] in counters then counters[same[i]] else 0;
        if p == -1 || counter < minCounter { minCounter, p := counter, same[i]; }
      }
      if p != -1 { counters := counters[p := CountOf(counters, p) + 1]; }
    }

    /** The leading entries equal to the first one. */
    method SamePriority(available: seq<int>) returns (same: seq<int>)
      requires available != []
      ensures 0 < |same| <= |available| && forall i :: 0 <= i < |same| ==> same[i] == available[0]
      ensures |same| == 1 <==> !Repeated(available)
    {
      same := [];
      while |same| < |available| && available[|same|] == available[0]
        invariant |same| <= |available| && forall i :: 0 <= i < |same| ==> same[i] == available[0] == available[i]
        decreases |available| - |same|
      {
        same := same + [available[|same|]];
      }
    }

    /** Counters are only shifted together: when one of them is above 10^10, down to zero. */
    method ResetCountersIfNeeded()
      modifies this
      ensures IsReset(old(counters), counters)
    {
      var most := Greatest(counters);
      if most > 10000000000 {
        var least := Least(counters, most);
        counters := map p | p in counters :: counters[p] - least;
      }
    }
  }

  function CountOf(counters: map<int, int>, p: int): int { if p in counters then counters[p] else 0 }

  /** `after` is `before`, all shifted down to a smallest counter of zero if one is above 10^10. */
  ghost predicate IsReset(before: map<int, int>, after: map<int, int>)
  {
    && after.Keys == before.Keys
    && (forall p, q :: p in after && q in after ==> after[p] - after[q] == before[p] - before[q])
    && ((forall p :: p in before ==> before[p] <= 10000000000) ==> after == before)
    && ((exists p :: p in before && before[p] > 10000000000) ==>
          (exists p :: p in after && after[p] == 0) && forall p :: p in after ==> after[p] >= 0)
  }

  /** After a possible reset, the chosen class is charged one, but only if it was met repeatedly. */
  ghost predicate Charged(before: map<int, int>, after: map<int, int>, available: seq<int>, p: int)
  {
    exists reset :: IsReset(before, reset) &&
      after == if Repeated(available) && p != -1 then reset[p := CountOf(reset, p) + 1] else reset
  }

  /** The largest counter, or 0. */
  method Greatest(counters: map<int, int>) returns (most: int)
    ensures most >= 0 && forall p :: p in counters ==> counters[p] <= most
    ensures most > 0 ==> exists p :: p in counters && counters[p] == most
  {
    most := 0;
    var todo := counters.Keys;
    while todo != {}
      invariant todo <= counters.Keys && most >= 0 && forall p :: p in counters && p !in todo ==> counters[p] <= most
      invariant most > 0 ==> exists p :: p in counters && counters[p] == most
      decreases todo
    {
      assert (forall p :: p !in todo) ==> todo == {};
      var p :| p in todo;
      if counters[p] > most { most := counters[p]; }
      todo := todo - {p};
    }
  }

  /** The smallest counter, up to `bound`. */
  method Least(counters: map<int, int>, bound: int) returns (least: int)
    ensures least <= bound && forall p :: p in counters ==> least <= counters[p]
    ensures least < bound ==> exists p :: p in counters && counters[p] == least
  {
    least := bound;
    var todo := counters.Keys;
    while todo != {}
      invariant todo <= counters.Keys && least <= bound
      invariant forall p :: p in counters && p !in todo ==> least <= counters[p]
      invariant least < bound ==> exists p :: p in counters && counters[p] == least
      decreases todo
    {
      assert (forall p :: p !in todo) ==> todo == {};
      var p :| p in todo;
      if counters[p] < least { least := counters[p]; }
      todo := todo - {p};
    }
  }

  predicate Repeated(available: seq<int>) { |available| >= 2 && available[1] == available[0] }
}
