/**
 * src/util.c: the random range helper and the millisecond sleep. The C library's
 * `rand()` value is a parameter, and the sleep itself is left out: what is modelled
 * is the arithmetic around the two foreign calls, with C's truncating `/` and `%`.
 */
module Util {

  function Abs(x: int): nat {
    if x < 0 then -x else x
  }

  /** C's integer `/`: the quotient truncated toward zero. */
  function CDiv(a: int, b: int): int
    requires b != 0
  {
    var q := Abs(a) / Abs(b);
    if (a < 0) == (b < 0) then q else -q
  }

  /** C's integer `%`: the remainder carries the sign of the dividend. */
  function CMod(a: int, b: int): int
    requires b != 0
  {
    var m := Abs(a) % Abs(b);
    if a < 0 then -m else m
  }

  lemma MulNeg(x: int, y: int)
    ensures x * -y == -(x * y)
  {
  }

  /** Truncating division on magnitudes, with the sign put back, undoes itself. */
  lemma CDivModIdentity(a: int, b: int)
    requires b != 0
    ensures CDiv(a, b) * b + CMod(a, b) == a
  {
    if b > 0 {
      if a >= 0 { CDivModPosPos(a, b); } else { CDivModNegPos(a, b); }
    } else {
      CDivModNeg(a, b);
    }
  }

  lemma CDivModPosPos(a: int, b: int)
    requires a >= 0 && b > 0
    ensures CDiv(a, b) * b + CMod(a, b) == a
  {
    assert CDiv(a, b) == a / b && CMod(a, b) == a % b;
  }

  lemma CDivModNegPos(a: int, b: int)
    requires a < 0 && b > 0
    ensures CDiv(a, b) * b + CMod(a, b) == a
  {
    var q, m := -a / b, -a % b;
    assert -a == q * b + m;
    assert CDiv(a, b) == -q && CMod(a, b) == -m;
    MulNeg(b, q);
    assert -q * b == -(q * b);
  }

  lemma CDivModNeg(a: int, b: int)
    requires b < 0
    ensures CDiv(a, b) * b + CMod(a, b) == a
  {
    var B := -b;
    var q, m := Abs(a) / B, Abs(a) % B;
    assert Abs(a) == q * B + m;
    MulNeg(q, B);
    assert q * b == -(q * B);
    if a >= 0 {
      assert CDiv(a, b) == -q && CMod(a, b) == m;
      MulNeg(b, q);
      assert -q * b == q * B;
    } else {
      assert CDiv(a, b) == q && CMod(a, b) == -m;
    }
  }

  /** The identity C guarantees for `/` and `%`, and where they agree with Dafny's. */
  lemma CDivMod(a: int, b: int)
    requires b != 0
    ensures CDiv(a, b) * b + CMod(a, b) == a
    ensures Abs(CMod(a, b)) < Abs(b)
    ensures a >= 0 ==> CMod(a, b) >= 0
    ensures a <= 0 ==> CMod(a, b) <= 0
    ensures a >= 0 && b > 0 ==> CDiv(a, b) == a / b && CMod(a, b) == a % b
  {
    CDivModIdentity(a, b);
  }

  /** Dividing an exact multiple gives the factor back, with no remainder. */
  lemma CDivExact(k: int, b: int)
    requires b > 0
    ensures CDiv(k * b, b) == k
    ensures CMod(k * b, b) == 0
  {
    var K := Abs(k);
    LemmaMulDiv(K, b);
    if k < 0 {
      MulNeg(b, K);
      assert k * b == -(K * b);
      assert Abs(k * b) == K * b;
    } else {
      assert Abs(k * b) == K * b;
    }
  }

  lemma LemmaMulDiv(k: nat, b: int)
    requires b > 0
    ensures (k * b) / b == k && (k * b) % b == 0
  {
    var n := k * b;
    var q, m := n / b, n % b;
    assert n == q * b + m && 0 <= m < b;
    var d := k - q;
    assert d * b == m by {
      assert d * b == k * b - q * b;
    }
    if d > 0 {
      LemmaMulAtLeast(d, b);
      assert false;
    } else if d < 0 {
      MulNeg(b, -d);
      LemmaMulAtLeast(-d, b);
      assert false;
    }
  }

  lemma LemmaMulAtLeast(d: int, b: int)
    requires d >= 1 && b > 0
    ensures d * b >= b
  {
  }

  /**
   * `rand_range(min, max)` is `min + rand() % (max - min + 1)`; `r` is the value
   * `rand()` returned, which the C library keeps non-negative. A zero divisor
   * would be undefined behaviour in C, hence the precondition.
   */
  function RandRange(min: int, max: int, r: nat): (v: int)
    requires max - min + 1 != 0
    ensures min <= max ==> min <= v <= max
    ensures min == max ==> v == min
  {
    CDivMod(r, max - min + 1);
    min + CMod(r, max - min + 1)
  }

  /** `struct timespec`: whole seconds and the nanosecond part. */
  datatype Timespec = Timespec(tvSec: int, tvNsec: int)

  const NSEC_PER_SEC := 1000000000
  const NSEC_PER_MSEC := 1000000

  /** A timespec whose nanosecond part is in range, as `nanosleep` expects. */
  predicate Normalized(t: Timespec) {
    0 <= t.tvNsec < NSEC_PER_SEC
  }

  /** The timespec `nanosleep_ms(ms)` hands to `nanosleep`. */
  function MsToTimespec(ms: int): (t: Timespec)
    ensures t.tvSec * 1000 + CDiv(t.tvNsec, NSEC_PER_MSEC) == ms
    ensures CMod(t.tvNsec, NSEC_PER_MSEC) == 0
    ensures ms >= 0 ==> Normalized(t)
  {
    CDivMod(ms, 1000);
    CDivExact(CMod(ms, 1000), NSEC_PER_MSEC);
    Timespec(CDiv(ms, 1000), CMod(ms, 1000) * NSEC_PER_MSEC)
  }

  /** The split `{ ns / 1000000000, ns % 1000000000 }` used before every nanosecond sleep. */
  function NsToTimespec(ns: int): (t: Timespec)
    ensures t.tvSec * NSEC_PER_SEC + t.tvNsec == ns
    ensures ns >= 0 ==> Normalized(t)
    ensures ns >= 0 ==> t.tvSec == ns / NSEC_PER_SEC
  {
    CDivMod(ns, NSEC_PER_SEC);
    Timespec(CDiv(ns, NSEC_PER_SEC), CMod(ns, NSEC_PER_SEC))
  }
}
