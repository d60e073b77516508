/** Powers of two and masks on unsigned integers, written out on naturals. */
module Bits {

  function Pow2(k: nat): (p: nat)
    ensures p >= 1
  {
    if k == 0 then 1 else 2 * Pow2(k - 1)
  }

  /** The bitwise and. */
  function And(a: nat, b: nat): nat
  {
    if a == 0 || b == 0 then 0 else 2 * And(a / 2, b / 2) + (a % 2) * (b % 2)
  }

  ghost predicate IsPow2(c: int) { exists k: nat :: c == Pow2(k) }

  /** A mask of k ones takes the remainder modulo 2^k. */
  lemma {:induction false} MaskIsRemainder(x: nat, k: nat)
    ensures And(x, Pow2(k) - 1) == x % Pow2(k)
  {
    hide And;
    if k == 0 {
      AndZero(x);
    } else {
      var p := Pow2(k - 1);
      MaskIsRemainder(x / 2, k - 1);
      AndOdd(x, p - 1);
      HalfRemainder(x, p);
      assert Pow2(k) - 1 == 2 * (p - 1) + 1;
    }
  }

  lemma AndZero(x: nat)
    ensures And(x, 0) == 0
  {
  }

  lemma AndOdd(x: nat, m: nat)
    ensures And(x, 2 * m + 1) == 2 * And(x / 2, m) + x % 2
  {
    assert (2 * m + 1) / 2 == m && (2 * m + 1) % 2 == 1;
  }

  lemma HalfRemainder(x: nat, p: nat)
    requires p > 0
    ensures x % (2 * p) == 2 * (x / 2 % p) + x % 2
  {
    var q, r := x / 2 / p, x / 2 % p;
    assert x == 2 * (p * q + r) + x % 2;
    UniqueRemainder(x, 2 * p, q, 2 * r + x % 2);
  }

  lemma MulStep(d: nat, a: int, b: int)
    requires a + 1 <= b
    ensures d * a + d <= d * b
  {
    assert d * b == d * a + d + d * (b - a - 1);
  }

  lemma Division(x: nat, d: nat)
    requires d > 0
    ensures x == d * (x / d) + x % d && x % d < d
  {
  }

  /** Division with remainder has one result. */
  lemma UniqueRemainder(x: nat, d: nat, q: int, r: nat)
    requires d > 0 && x == d * q + r && r < d
    ensures x % d == r
  {
    Division(x, d);
    var q' := x / d;
    if q > q' { MulStep(d, q', q); } else if q < q' { MulStep(d, q, q'); }
  }

  /** The test `c & (c - 1) == 0` recognises exactly the powers of two. */
  lemma {:induction false} PowerTest(c: nat)
    requires c >= 1
    ensures And(c, c - 1) == 0 <==> IsPow2(c)
  {
    if c == 1 {
      assert c == Pow2(0);
    } else if c % 2 == 1 {
      OddAbove(c);
      AndPredecessorOdd(c / 2);
      AndSelf(c / 2);
    } else {
      PowerTest(c / 2);
      AndPredecessorEven(c / 2);
      DoubledPower(c / 2);
    }
  }

  lemma AndPredecessorOdd(m: nat)
    requires m >= 1
    ensures And(2 * m + 1, 2 * m) == 2 * And(m, m)
  {
    assert (2 * m + 1) / 2 == m && (2 * m) / 2 == m;
  }

  lemma AndPredecessorEven(m: nat)
    requires m >= 1
    ensures And(2 * m, 2 * m - 1) == 2 * And(m, m - 1)
  {
    assert (2 * m) / 2 == m && (2 * m - 1) / 2 == m - 1;
  }

  lemma OddAbove(c: nat)
    requires c > 1 && c % 2 == 1
    ensures !IsPow2(c)
  {
    forall k: nat ensures c != Pow2(k) { if k > 0 { assert Pow2(k) == 2 * Pow2(k - 1); } }
  }

  lemma DoubledPower(m: nat)
    requires m >= 1
    ensures IsPow2(2 * m) <==> IsPow2(m)
  {
    if k: nat :| 2 * m == Pow2(k) { assert k > 0 && m == Pow2(k - 1); }
    if k: nat :| m == Pow2(k) { assert 2 * m == Pow2(k + 1); }
  }

  lemma {:induction false} AndSelf(c: nat)
    ensures And(c, c) == c
  {
    if c == 0 { return; }
    hide And;
    if c > 0 {
      AndSelf(c / 2);
      AndUnfolds(c, c);
      BitSquared(c % 2);
    }
  }

  lemma AndUnfolds(a: nat, b: nat)
    requires a > 0 && b > 0
    ensures And(a, b) == 2 * And(a / 2, b / 2) + (a % 2) * (b % 2)
  {
  }

  lemma BitSquared(b: nat)
    requires b < 2
    ensures b * b == b
  {
  }

  lemma {:induction false} Pow2Sum(a: nat, b: nat)
    ensures Pow2(a + b) == Pow2(a) * Pow2(b)
  {
    if a > 0 { Pow2Sum(a - 1, b); }
  }

  lemma {:induction false} Pow2Monotone(a: nat, b: nat)
    requires a <= b
    ensures Pow2(a) <= Pow2(b)
  {
    if a < b { Pow2Monotone(a, b - 1); }
  }

  lemma Distribute(p: nat, e: nat, q: nat, n: nat)
    ensures p * (e * q + n) == p * e * q + p * n
  {
  }

  /** Wrapping at 2^m does not disturb remainders modulo a smaller power of two. */
  lemma WrapKeepsRemainder(x: nat, k: nat, m: nat)
    requires k <= m
    ensures x % Pow2(m) % Pow2(k) == x % Pow2(k)
  {
    Pow2Sum(k, m - k);
    RemainderOfRemainder(x, Pow2(k), Pow2(m - k));
  }

  lemma RemainderOfRemainder(x: nat, p: nat, e: nat)
    requires p > 0 && e > 0 && p * e > 0
    ensures x % (p * e) % p == x % p
  {
    var d := p * e;
    Division(x, d);
    var q, r := x / d, x % d;
    Division(r, p);
    Distribute(p, e, q, r / p);
    UniqueRemainder(x, p, e * q + r / p, r % p);
  }

  lemma AddMultiple(y: nat, p: nat, n: nat)
    requires p > 0
    ensures (y + p * n) % p == y % p
  {
    Division(y, p);
    Distribute(p, 1, n, y / p);
    UniqueRemainder(y + p * n, p, n + y / p, y % p);
  }

  /** Nor does wrapping before an addition. */
  lemma WrapBeforeSum(a: nat, i: nat, k: nat, m: nat)
    requires k <= m
    ensures (a % Pow2(m) + i) % Pow2(k) == (a + i) % Pow2(k)
  {
    Pow2Sum(k, m - k);
    RemainderBeforeSum(a, i, Pow2(k), Pow2(m - k));
  }

  lemma RemainderBeforeSum(a: nat, i: nat, p: nat, e: nat)
    requires p > 0 && e > 0 && p * e > 0
    ensures (a % (p * e) + i) % p == (a + i) % p
  {
    var w := p * e;
    Division(a, w);
    Distribute(p, e, a / w, 0);
    AddMultiple(a % w + i, p, e * (a / w));
  }

  /** A window of length p meets every remainder at most once. */
  lemma WindowDistinct(h: nat, i: nat, j: nat, p: nat)
    requires p > 0 && i < j < p
    ensures (h + i) % p != (h + j) % p
  {
    Division(h + i, p);
    Division(h + j, p);
    var a, b := (h + i) / p, (h + j) / p;
    if b > a { MulStep(p, a, b); } else if b < a { MulStep(p, b, a); }
  }

  /** Every remainder is met by some place of the window. */
  lemma WindowCovers(h: nat, slot: nat, p: nat) returns (i: nat)
    requires slot < p
    ensures i < p && (h + i) % p == slot
  {
    var r := h % p;
    Division(h, p);
    if slot >= r {
      i := slot - r;
      UniqueRemainder(h + i, p, h / p, slot);
    } else {
      i := slot + p - r;
      Distribute(p, 1, h / p, 1);
      UniqueRemainder(h + i, p, h / p + 1, slot);
    }
  }
}
