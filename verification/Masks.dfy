/**
  Index arithmetic of the ring buffer: `size_t` values combined by `& (N - 1)`.

  Bitwise-and is defined on naturals by its binary digits, so nothing here
  presupposes that masking is a remainder; that is what is proved.
 */
module Masks {

  /** Bitwise and, digit by digit. */
  function And(a: nat, b: nat): nat {
    if a == 0 || b == 0 then 0
    else (if a % 2 == 1 && b % 2 == 1 then 1 else 0) + 2 * And(a / 2, b / 2)
  }

  function Pow2(k: nat): (p: nat)
    ensures p >= 1
  {
    if k == 0 then 1 else 2 * Pow2(k - 1)
  }

  /** The two static assertions on the template parameter N. */
  predicate AcceptedSize(n: nat) {
    n >= 2 && And(n, n - 1) == 0
  }

  /** The number of values of a 64-bit size_t. */
  const SIZE_T: nat := 0x1_0000_0000_0000_0000

  /** Subtraction on size_t wraps around. */
  function WrapSub(a: nat, b: nat): nat {
    (a - b) % SIZE_T
  }

  /** Masking with 2^k - 1 is the remainder modulo 2^k. */
  lemma {:induction false} MaskIsRemainder(x: nat, k: nat)
    ensures And(x, Pow2(k) - 1) == x % Pow2(k)
  {
    if k > 0 {
      var half := Pow2(k - 1);
      MaskIsRemainder(x / 2, k - 1);
      assert (2 * half - 1) / 2 == half - 1;
      HalveRemainder(x, half);
      if x == 0 { SmallRemainder(0, 2 * half); }
    }
  }

  lemma SmallRemainder(x: nat, n: nat)
    requires x < n
    ensures x % n == x
  {
  }

  lemma HalveRemainder(x: nat, half: nat)
    requires half >= 1
    ensures x % (2 * half) == x % 2 + 2 * ((x / 2) % half)
  {
    var q, r := x / 2 / half, x / 2 % half;
    assert x / 2 == q * half + r;
    assert x == q * (2 * half) + (x % 2 + 2 * r) by {
      assert x == 2 * (x / 2) + x % 2;
    }
    RemainderUnique(x, 2 * half, q, x % 2 + 2 * r);
  }

  lemma RemainderUnique(x: int, n: nat, q: int, r: nat)
    requires x == q * n + r && r < n
    ensures x % n == r && x / n == q
  {
    var q', r' := x / n, x % n;
    assert x == q' * n + r';
    assert (q' - q) * n == q' * n - q * n;
    SmallMultiple(q' - q, n);
  }

  /** The only multiple of n strictly between -n and n is zero. */
  lemma SmallMultiple(d: int, n: int)
    requires -n < d * n < n
    ensures d == 0
  {
    if d >= 1 {
      MultiplyOrder(1, d, n);
    } else if d <= -1 {
      MultiplyOrder(d, -1, n);
    }
  }

  lemma MultiplyOrder(a: int, b: int, n: int)
    requires a <= b && n >= 0
    ensures a * n <= b * n
  {
    assert b * n - a * n == (b - a) * n;
  }

  /** The static assertion accepts exactly the powers of two from 2 up. */
  lemma AcceptedExactlyPowers(n: nat)
    ensures AcceptedSize(n) <==> exists k: nat :: k >= 1 && n == Pow2(k)
  {
    if k: nat :| k >= 1 && n == Pow2(k) {
      PowerAccepted(k);
    }
    if AcceptedSize(n) {
      var k := Exponent(n);
    }
  }

  lemma PowerAccepted(k: nat)
    requires k >= 1
    ensures AcceptedSize(Pow2(k))
  {
    var n := Pow2(k);
    assert n == 2 * Pow2(k - 1);
    MaskIsRemainder(n, k);
    RemainderUnique(n, n, 1, 0);
  }

  /** The exponent of an accepted size. */
  lemma {:induction false} Exponent(n: nat) returns (k: nat)
    requires n >= 1 && And(n, n - 1) == 0
    ensures n == Pow2(k)
    ensures n >= 2 ==> k >= 1
  {
    if n == 1 {
      k := 0;
    } else {
      assert And(n, n - 1) == 2 * And(n / 2, (n - 1) / 2) by {
        assert n % 2 == 0 || (n - 1) % 2 == 0;
      }
      if n % 2 == 1 {
        AndSelf(n / 2);
        assert false;
      }
      assert (n - 1) / 2 == n / 2 - 1;
      k := Exponent(n / 2);
      k := k + 1;
    }
  }

  lemma {:induction false} AndSelf(n: nat)
    ensures And(n, n) == n
  {
    if n > 0 { AndSelf(n / 2); }
  }

  /** `(h + 1) & mask` is the successor modulo N. */
  lemma MaskedSuccessor(h: nat, n: nat)
    requires AcceptedSize(n)
    ensures And(h + 1, n - 1) == (h + 1) % n
  {
    var k := Exponent(n);
    MaskIsRemainder(h + 1, k);
  }

  lemma {:induction false} PowerSplit(j: nat, k: nat)
    requires j <= k
    ensures Pow2(k) == Pow2(j) * Pow2(k - j)
  {
    if j > 0 { PowerSplit(j - 1, k - 1); }
  }

  lemma PowerSquare(k: nat, v: nat)
    requires Pow2(k) == v
    ensures Pow2(k + k) == v * v
  {
    PowerSplit(k, k + k);
  }

  lemma SizeTIsPower(k: nat)
    requires k == 64
    ensures SIZE_T == Pow2(k)
  {
    var four := k / 16;
    assert four == 4 && Pow2(four) == 16;
    PowerSquare(four, 16);
    PowerSquare(k / 8, 0x100);
    PowerSquare(k / 4, 0x1_0000);
    PowerSquare(k / 2, 0x1_0000_0000);
  }

  /** An accepted N that fits in size_t divides 2^64. */
  lemma SizeDivides(n: nat) returns (m: nat)
    requires AcceptedSize(n) && n < SIZE_T
    ensures SIZE_T == n * m
  {
    var k := Exponent(n);
    SizeTIsPower(64);
    if k > 64 { PowerSplit(64, k); }
    PowerSplit(k, 64);
    m := Pow2(64 - k);
  }

  /** Adding a multiple of n changes no remainder modulo n. */
  lemma AddMultiple(x: int, n: nat, m: int)
    requires n >= 1
    ensures (x + n * m) % n == x % n
  {
    RemainderUnique(x + n * m, n, x / n + m, x % n);
  }

  /**
    `(head - tail) & mask` over wrapping size_t values recovers the true
    element count: head and tail are the two unbounded counters modulo N.
   */
  lemma MaskedDifference(pushed: nat, popped: nat, n: nat)
    requires AcceptedSize(n) && n < SIZE_T
    requires popped <= pushed < popped + n
    ensures And(WrapSub(pushed % n, popped % n), n - 1) == pushed - popped
  {
    WrappedRemainder(pushed, popped, n);
    SmallRemainder(pushed - popped, n);
  }

  lemma WrapKeepsRemainder(d: int, n: nat)
    requires AcceptedSize(n) && n < SIZE_T
    ensures (d % SIZE_T) % n == d % n
  {
    var m := SizeDivides(n);
    var turns := d / SIZE_T;
    assert d % SIZE_T == d - SIZE_T * turns;
    MultiplyAssociates(n, m, turns);
    AddMultiple(d % SIZE_T, n, m * turns);
  }

  lemma MultiplyAssociates(a: int, b: int, c: int)
    ensures a * b * c == a * (b * c)
  {
  }

  lemma CountersRemainder(pushed: nat, popped: nat, n: nat)
    requires n >= 1
    ensures (pushed % n - popped % n) % n == (pushed - popped) % n
  {
    var q, r := pushed / n, popped / n;
    assert pushed % n == pushed - n * q && popped % n == popped - n * r;
    assert n * (r - q) == n * r - n * q;
    AddMultiple(pushed - popped, n, r - q);
  }

  /** Two counters less than N apart that share a slot are the same counter. */
  lemma SlotsDistinct(i: nat, j: nat, n: nat)
    requires n >= 1 && i <= j < i + n
    requires i % n == j % n
    ensures i == j
  {
    var q := j / n - i / n;
    assert q * n == (j / n) * n - (i / n) * n;
    assert j - i == q * n;
    SmallMultiple(q, n);
  }

  /** The masked wrapping difference of any two words is their difference modulo N. */
  lemma MaskedWrap(a: nat, b: nat, n: nat)
    requires AcceptedSize(n) && n < SIZE_T
    ensures And(WrapSub(a, b), n - 1) == (a - b) % n
  {
    var k := Exponent(n);
    MaskIsRemainder(WrapSub(a, b), k);
    WrapKeepsRemainder(a - b, n);
  }

  /** So for two indices it is their counters' difference modulo N. */
  lemma WrappedRemainder(i: nat, j: nat, n: nat)
    requires AcceptedSize(n) && n < SIZE_T
    ensures And(WrapSub(i % n, j % n), n - 1) == (i - j) % n
  {
    MaskedWrap(i % n, j % n, n);
    CountersRemainder(i, j, n);
  }

  lemma OwnRemainder(d: int, n: nat)
    requires n >= 1
    ensures d % n == d <==> 0 <= d < n
  {
    if 0 <= d < n { SmallRemainder(d, n); }
  }
}
