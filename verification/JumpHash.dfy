/** The jump consistent hash of engine/pkg/actor/mailbox/dispatch_ring.go (Lamping and Veach,
    "A Fast, Minimal Memory, Consistent Hash Algorithm", 2014).

    The floating-point step is an arbitrary function `jump` of b + 1 and the divisor that never
    stays behind b + 1; the exact rational value is one such function. */
module JumpHash {
  import opened Bits

  const KeyWrap: nat := 0x1_0000_0000_0000_0000
  const Half: nat := 0x8000_0000

  /** The linear congruential step on the 64-bit key. */
  function NextKey(key: nat): nat { (key * 2862933555777941757 + 1) % KeyWrap }

  /** (key >> 33) + 1, between 1 and 2^31. */
  function Divisor(key: nat): nat { key / 0x2_0000_0000 + 1 }

  type Jump = (nat, nat) -> nat

  ghost predicate Ahead(jump: Jump)
  {
    forall b: nat, d: nat :: 1 <= d <= Half ==> jump(b, d) >= b
  }

  /** floor(b * 2^31 / d). */
  function ExactJump(b: nat, d: nat): nat { if d == 0 then b else b * Half / d }

  lemma ExactJumpAhead()
    ensures Ahead(ExactJump)
  {
    forall b: nat, d: nat | 1 <= d <= Half ensures ExactJump(b, d) >= b { Quotient(b, d, Half); }
  }

  lemma Quotient(b: nat, d: nat, h: nat)
    requires 1 <= d <= h
    ensures b * h / d >= b
  {
    Division(b * h, d);
    MulWider(d, h, b);
    if b * h / d < b { MulStep(d, b * h / d, b); }
  }

  lemma MulWider(d: nat, h: nat, b: nat)
    requires d <= h
    ensures d * b <= b * h
  {
    assert (h - d) * b >= 0;
  }

  /** The i-th key and the i-th jump point of a key; the points do not depend on n. */
  function KeyAt(key: nat, i: nat): nat { if i == 0 then key else NextKey(KeyAt(key, i - 1)) }

  function Point(jump: Jump, key: nat, i: nat): nat
  {
    if i == 0 then 0 else jump(Point(jump, key, i - 1) + 1, Divisor(KeyAt(key, i)))
  }

  lemma DivisorRange(key: nat, i: nat)
    requires i > 0
    ensures 1 <= Divisor(KeyAt(key, i)) <= Half
  {
    assert KeyAt(key, i) < KeyWrap;
  }

  lemma PointAdvances(jump: Jump, key: nat, i: nat)
    requires Ahead(jump)
    ensures Point(jump, key, i) < Point(jump, key, i + 1)
  {
    DivisorRange(key, i + 1);
  }

  lemma {:induction false} PointsIncrease(jump: Jump, key: nat, i: nat, k: nat)
    requires Ahead(jump) && i < k
    ensures Point(jump, key, i) < Point(jump, key, k)
  {
    PointAdvances(jump, key, k - 1);
    if i < k - 1 { PointsIncrease(jump, key, i, k - 1); }
  }

  /** `b` is the largest jump point of the key below n. */
  ghost predicate IsBucket(jump: Jump, key: nat, n: nat, b: nat)
  {
    b < n && exists i: nat :: IsStep(jump, key, n, b, i)
  }

  ghost predicate IsStep(jump: Jump, key: nat, n: nat, b: nat, i: nat)
  {
    Point(jump, key, i) == b && Point(jump, key, i + 1) >= n
  }

  /** There is only one: no point lies in between. */
  lemma BucketUnique(jump: Jump, key: nat, n: nat, b: nat, b': nat)
    requires Ahead(jump) && IsBucket(jump, key, n, b) && IsBucket(jump, key, n, b')
    ensures b == b'
  {
    hide Point, Ahead;
    var i: nat :| IsStep(jump, key, n, b, i);
    var k: nat :| IsStep(jump, key, n, b', k);
    if i < k { if i + 1 < k { PointsIncrease(jump, key, i + 1, k); } }
    else if k < i { if k + 1 < i { PointsIncrease(jump, key, k + 1, i); } }
  }

  /** jumpHash: terminates for every n, answers 0 without buckets and the largest point below n
      otherwise. */
  method Hash(jump: Jump, key: nat, n: int) returns (bucket: int)
    requires Ahead(jump)
    ensures n <= 0 ==> bucket == 0
    ensures n > 0 ==> 0 <= bucket < n && IsBucket(jump, key, n, bucket)
  {
    hide NextKey, Divisor, Ahead;
    if n <= 0 { return 0; }
    var b, j, state := -1, 0, key;
    ghost var i := 0;
    while j < n
      invariant j == Point(jump, key, i) && state == KeyAt(key, i)
      invariant i == 0 <==> b == -1
      invariant i > 0 ==> b == Point(jump, key, i - 1) && b < n
      invariant b < j
      decreases n - j
    {
      PointAdvances(jump, key, i);
      b := j;
      state := NextKey(state);
      j := jump(b + 1, Divisor(state));
      i := i + 1;
    }
    assert IsStep(jump, key, n, b, i - 1);
    return b;
  }

  /** The same as a function, for use in statements about routing. */
  function Bucket(jump: Jump, key: nat, n: nat): (b: nat)
    requires Ahead(jump) && n > 0
    ensures IsBucket(jump, key, n, b)
  {
    LastBelow(jump, key, n, 0)
  }

  function LastBelow(jump: Jump, key: nat, n: nat, i: nat): (b: nat)
    requires Ahead(jump) && Point(jump, key, i) < n
    ensures IsBucket(jump, key, n, b)
    decreases n - Point(jump, key, i)
  {
    PointAdvances(jump, key, i);
    if Point(jump, key, i + 1) >= n then
      assert IsStep(jump, key, n, Point(jump, key, i), i);
      Point(jump, key, i)
    else LastBelow(jump, key, n, i + 1)
  }

  /** Adding buckets moves a key only to one of the new ones. */
  lemma Consistent(jump: Jump, key: nat, n: nat, m: nat)
    requires Ahead(jump) && 0 < n <= m
    ensures Bucket(jump, key, m) == Bucket(jump, key, n) || n <= Bucket(jump, key, m) < m
  {
    var b := Bucket(jump, key, m);
    if b < n {
      var i: nat :| IsStep(jump, key, m, b, i);
      assert IsStep(jump, key, n, b, i);
      BucketUnique(jump, key, n, b, Bucket(jump, key, n));
    }
  }

  /** In particular one more bucket: the key stays or moves to it. */
  lemma OneMoreBucket(jump: Jump, key: nat, n: nat)
    requires Ahead(jump) && n > 0
    ensures Bucket(jump, key, n + 1) == Bucket(jump, key, n) || Bucket(jump, key, n + 1) == n
  {
    Consistent(jump, key, n, n + 1);
  }

  // ---- The arithmetic of one step

  /** (key >> 33) + 1: the key lies in the block of 2^33 keys that its divisor numbers. */
  lemma DivisorIs(key: nat)
    ensures (Divisor(key) - 1) * 0x2_0000_0000 <= key < Divisor(key) * 0x2_0000_0000
  {
  }

  /** The next key is the 64-bit remainder of key * 2862933555777941757 + 1. */
  lemma NextKeyIs(key: nat)
    ensures NextKey(key) < KeyWrap
    ensures exists q: nat :: key * 2862933555777941757 + 1 == q * KeyWrap + NextKey(key)
  {
    var t := key * 2862933555777941757 + 1;
    assert t == (t / KeyWrap) * KeyWrap + NextKey(key);
  }

  /** The exact jump from b - 1 is the integer part of b * 2^31 / d. */
  lemma ExactJumpIs(b: nat, d: nat)
    requires d > 0
    ensures ExactJump(b, d) * d <= b * Half < (ExactJump(b, d) + 1) * d
  {
    Division(b * Half, d);
  }

  // ---- Reference values

  lemma Starts(key: nat)
    ensures KeyAt(key, 0) == key && Point(ExactJump, key, 0) == 0
  {
  }

  /** One jump, checked by multiplication: the next key leaves the quotient `q`, and has divisor `d`. */
  lemma Advances(key: nat, i: nat, k: nat, p: nat, q: nat, k': nat, d: nat, p': nat)
    requires KeyAt(key, i) == k && Point(ExactJump, key, i) == p
    requires k * 2862933555777941757 + 1 == q * 0x1_0000_0000_0000_0000 + k' && k' < 0x1_0000_0000_0000_0000
    requires d > 0 && (d - 1) * 0x2_0000_0000 <= k' < d * 0x2_0000_0000
    requires p' * d <= (p + 1) * 0x8000_0000 < (p' + 1) * d
    ensures KeyAt(key, i + 1) == k' && Point(ExactJump, key, i + 1) == p'
  {
    hide ExactJump;
    UniqueRemainder(k * 2862933555777941757 + 1, KeyWrap, q, k');
    DivisorIs(k');
    ExactJumpIs(p + 1, d);
    Between(ExactJump(p + 1, d), p', d, (p + 1) * Half);
  }

  lemma Between(a: nat, b: nat, d: nat, x: nat)
    requires d > 0 && a * d <= x < (a + 1) * d && b * d <= x < (b + 1) * d
    ensures a == b
  {
    if a < b { MulStep(d, a, b); } else if b < a { MulStep(d, b, a); }
  }

  lemma Lands(key: nat, n: nat, i: nat, b: nat)
    requires Ahead(ExactJump) && Point(ExactJump, key, i) == b < n <= Point(ExactJump, key, i + 1)
    ensures Bucket(ExactJump, key, n) == b
  {
    hide Point, ExactJump, Ahead;
    assert IsStep(ExactJump, key, n, b, i);
    BucketUnique(ExactJump, key, n, b, Bucket(ExactJump, key, n));
  }

  /** Of ten buckets key 3 has bucket 8. */
  lemma KeyThreeOfTen()
    ensures Ahead(ExactJump) && Bucket(ExactJump, 3, 10) == 8
  {
    hide Point, KeyAt, NextKey, Divisor, ExactJump, Ahead, IsStep;
    ExactJumpAhead();
    Starts(3);
    Advances(3, 0, 3, 0, 0, 8588800667333825272, 999867994, 2);
    Advances(3, 1, 8588800667333825272, 2, 1332981340021010241, 16835445614176583449, 1959903820, 3);
    Advances(3, 2, 16835445614176583449, 3, 2612860133078659938, 8478220943449820086, 986994820, 8);
    Advances(3, 3, 8478220943449820086, 8, 1315819373614842459, 1604421673667867359, 186779266, 103);
    Lands(3, 10, 3, 8);
  }

  /** And key 6 has bucket 9. */
  lemma KeySixOfTen()
    ensures Ahead(ExactJump) && Bucket(ExactJump, 6, 10) == 9
  {
    hide Point, KeyAt, NextKey, Divisor, ExactJump, Ahead, IsStep;
    ExactJumpAhead();
    Starts(6);
    Advances(6, 0, 6, 0, 0, 17177601334667650543, 1999735988, 1);
    Advances(6, 1, 17177601334667650543, 1, 2665962680042020483, 12361213598865673524, 1439034660, 2);
    Advances(6, 2, 12361213598865673524, 2, 1918459597039041372, 9436004311655484517, 1098495479, 5);
    Advances(6, 3, 9436004311655484517, 5, 1464467293976573773, 13815888723065909202, 1608381133, 8);
    Advances(6, 4, 13815888723065909202, 8, 2144225087642002344, 17689221436745360011, 2059296407, 9);
    Advances(6, 5, 17689221436745360011, 9, 2745366088697554525, 2125789360093016928, 247474453, 86);
    Lands(6, 10, 5, 9);
  }

  /** Of two buckets key 1 has the first. */
  lemma KeyOneOfTwo()
    ensures Ahead(ExactJump) && Bucket(ExactJump, 1, 2) == 0
  {
    hide Point, KeyAt, NextKey, Divisor, ExactJump, Ahead, IsStep;
    ExactJumpAhead();
    Starts(1);
    Advances(1, 0, 1, 0, 0, 2862933555777941758, 333289332, 6);
    Lands(1, 2, 0, 0);
  }

  /** And key 4 has the second. */
  lemma KeyFourOfTwo()
    ensures Ahead(ExactJump) && Bucket(ExactJump, 4, 2) == 1
  {
    hide Point, KeyAt, NextKey, Divisor, ExactJump, Ahead, IsStep;
    ExactJumpAhead();
    Starts(4);
    Advances(4, 0, 4, 0, 0, 11451734223111767029, 1333157326, 1);
    Advances(4, 1, 11451734223111767029, 1, 1777308453361346989, 3046205559933245730, 354625001, 12);
    Lands(4, 2, 1, 1);
  }

  /** With two buckets each of them has a key. */
  lemma BothBuckets()
    ensures Ahead(ExactJump)
    ensures exists key: nat :: key < KeyWrap && Bucket(ExactJump, key, 2) == 0
    ensures exists key: nat :: key < KeyWrap && Bucket(ExactJump, key, 2) == 1
  {
    KeyOneOfTwo();
    KeyFourOfTwo();
  }
}
