/** Bits of IPv4 addresses: XOR, bit length, and the aligned blocks of section 3.1 of RFC 4632.
    `Shift(a, k)` drops the low `k` bits, so two addresses lie in one block of 2^k addresses
    exactly when their shifts agree. */
module Blocks {
  function Pow2(k: nat): (p: nat)
    ensures p > 0
  {
    if k == 0 then 1 else 2 * Pow2(k - 1)
  }

  lemma Sizes()
    ensures Pow2(8) == 0x100 && Pow2(9) == 0x200 && Pow2(10) == 0x400 && Pow2(11) == 0x800
    ensures Pow2(21) == 0x20_0000 && Pow2(32) == 0x1_0000_0000
  {
    assert Pow2(14) == 0x4000;
    assert Pow2(17) == 0x2_0000;
    assert Pow2(20) == 0x10_0000;
    assert Pow2(24) == 0x100_0000;
    assert Pow2(28) == 0x1000_0000;
  }

  function Shift(a: nat, k: nat): nat {
    if k == 0 then a else Shift(a / 2, k - 1)
  }

  function Xor(a: nat, b: nat): nat
    decreases a + b
  {
    if a == 0 && b == 0 then 0
    else 2 * Xor(a / 2, b / 2) + (if a % 2 == b % 2 then 0 else 1)
  }

  function BitLength(d: nat): nat {
    if d == 0 then 0 else 1 + BitLength(d / 2)
  }

  /** The address with its low `k` bits cleared. */
  function Floor(a: nat, k: nat): nat {
    if k == 0 then a else 2 * Floor(a / 2, k - 1)
  }

  lemma {:induction false} XorIsZero(a: nat, b: nat)
    ensures Xor(a, b) == 0 <==> a == b
    decreases a + b
  {
    if a != 0 || b != 0 {
      XorIsZero(a / 2, b / 2);
    }
  }

  /** The bit length of the XOR says how many low bits must be dropped before two numbers agree. */
  lemma {:induction false} XorBits(a: nat, b: nat, k: nat)
    ensures BitLength(Xor(a, b)) <= k <==> Shift(a, k) == Shift(b, k)
    decreases k
  {
    XorIsZero(a, b);
    if k > 0 && Xor(a, b) != 0 {
      assert Xor(a, b) / 2 == Xor(a / 2, b / 2);
      XorBits(a / 2, b / 2, k - 1);
    }
  }

  lemma {:induction false} ShiftMonotone(a: nat, b: nat, k: nat)
    requires a <= b
    ensures Shift(a, k) <= Shift(b, k)
  {
    if k > 0 {
      ShiftMonotone(a / 2, b / 2, k - 1);
    }
  }

  /** Clearing bits goes down to the start of the address's block. */
  lemma {:induction false} FloorBounds(a: nat, k: nat)
    ensures Floor(a, k) <= a < Floor(a, k) + Pow2(k)
  {
    if k > 0 {
      FloorBounds(a / 2, k - 1);
    }
  }

  /** Addresses of one block have the same start. */
  lemma {:induction false} FloorOfAgreeing(a: nat, b: nat, k: nat)
    requires Shift(a, k) == Shift(b, k)
    ensures Floor(a, k) == Floor(b, k)
  {
    if k > 0 {
      FloorOfAgreeing(a / 2, b / 2, k - 1);
    }
  }

  /** A block of an n-bit space ends inside it, and its number has the remaining bits. */
  lemma {:induction false} BlockFits(a: nat, k: nat, n: nat)
    requires a < Pow2(n) && k <= n
    ensures Floor(a, k) + Pow2(k) <= Pow2(n)
    ensures Shift(a, k) < Pow2(n - k)
  {
    if k > 0 {
      BlockFits(a / 2, k - 1, n - 1);
    }
  }

  lemma {:induction false} ShiftSplit(a: nat, j: nat, k: nat)
    ensures Shift(Shift(a, j), k) == Shift(a, j + k)
  {
    if j > 0 {
      ShiftSplit(a / 2, j - 1, k);
    }
  }

  /** Agreement after dropping `j` bits persists when more are dropped. */
  lemma AgreeMore(a: nat, b: nat, j: nat, k: nat)
    requires j <= k && Shift(a, j) == Shift(b, j)
    ensures Shift(a, k) == Shift(b, k)
  {
    ShiftSplit(a, j, k - j);
    ShiftSplit(b, j, k - j);
  }

  /** First and last address of a block lie in it. */
  lemma {:induction false} EndsInBlock(a: nat, k: nat)
    ensures Shift(Floor(a, k), k) == Shift(a, k)
    ensures Shift(Floor(a, k) + Pow2(k) - 1, k) == Shift(a, k)
  {
    if k > 0 {
      EndsInBlock(a / 2, k - 1);
      assert (Floor(a, k) + Pow2(k) - 1) / 2 == Floor(a / 2, k - 1) + Pow2(k - 1) - 1;
    }
  }

  lemma FloorInBlock(a: nat, k: nat)
    ensures Shift(Floor(a, k), k) == Shift(a, k)
    ensures Shift(Floor(a, k) + Pow2(k) - 1, k) == Shift(a, k)
    ensures Floor(a, k) <= a < Floor(a, k) + Pow2(k)
    ensures Floor(Floor(a, k), k) == Floor(a, k)
  {
    FloorBounds(a, k);
    EndsInBlock(a, k);
    FloorOfAgreeing(Floor(a, k), a, k);
  }

  lemma Between(lo: nat, p: nat, hi: nat, k: nat)
    requires lo <= p <= hi && Shift(lo, k) == Shift(hi, k)
    ensures Shift(p, k) == Shift(lo, k)
  {
    ShiftMonotone(lo, p, k);
    ShiftMonotone(p, hi, k);
  }

  /** The block of an address is an interval. */
  lemma BlockIsInterval(base: nat, a: nat, k: nat)
    ensures Shift(a, k) == Shift(base, k) <==> Floor(base, k) <= a <= Floor(base, k) + Pow2(k) - 1
  {
    FloorInBlock(base, k);
    if Shift(a, k) == Shift(base, k) {
      FloorOfAgreeing(a, base, k);
      FloorBounds(a, k);
    }
    if Floor(base, k) <= a <= Floor(base, k) + Pow2(k) - 1 {
      Between(Floor(base, k), a, Floor(base, k) + Pow2(k) - 1, k);
    }
  }

  /** In arithmetic: the quotient and the multiple below. */
  lemma {:induction false} ShiftIsQuotient(a: nat, k: nat)
    ensures Shift(a, k) == a / Pow2(k) && Floor(a, k) == a - a % Pow2(k)
  {
    if k > 0 {
      ShiftIsQuotient(a / 2, k - 1);
      HalfThenDivide(a, Pow2(k - 1));
    }
  }

  lemma HalfThenDivide(a: nat, n: nat)
    requires n > 0
    ensures a / 2 / n == a / (2 * n) && 2 * (a / 2 - a / 2 % n) == a - a % (2 * n)
  {
    var q, r := a / 2 / n, a / 2 % n;
    assert a / 2 == q * n + r;
    assert a == q * (2 * n) + (2 * r + a % 2) && 2 * r + a % 2 < 2 * n;
    QuotientIs(a, 2 * n, q, 2 * r + a % 2);
  }

  lemma QuotientIs(a: nat, n: nat, q: nat, r: nat)
    requires r < n && a == q * n + r
    ensures a / n == q && a % n == r
  {
    var d: int := a / n - q;
    assert d * n == r - a % n;
    MultipleIsLarge(d, n);
  }

  lemma MultipleIsLarge(d: int, n: nat)
    ensures d > 0 ==> d * n >= n
    ensures d < 0 ==> d * n + n <= 0
  {}

  /** First and last address of a block differ in every bit below its size. */
  lemma {:induction false} EndsDiffer(a: nat, j: nat, k: nat)
    requires j < k
    ensures Shift(Floor(a, k), j) < Shift(Floor(a, k) + Pow2(k) - 1, j)
  {
    if j > 0 {
      EndsDiffer(a / 2, j - 1, k - 1);
      assert (Floor(a, k) + Pow2(k) - 1) / 2 == Floor(a / 2, k - 1) + Pow2(k - 1) - 1;
    }
  }
}
