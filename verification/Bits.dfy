/** Bitwise operators on unbounded natural numbers, bit by bit, and the facts
    about them that the hash and the address parser rest on. */
module Bits {
  function Pow2(k: nat): (p: nat)
    ensures p > 0
  {
    if k == 0 then 1 else 2 * Pow2(k - 1)
  }

  function Xor(a: nat, b: nat): nat
    decreases a + b
  {
    if a == 0 && b == 0 then 0 else (a % 2 + b % 2) % 2 + 2 * Xor(a / 2, b / 2)
  }

  function Or(a: nat, b: nat): nat
    decreases a + b
  {
    if a == 0 && b == 0 then 0 else (if a % 2 == 1 || b % 2 == 1 then 1 else 0) + 2 * Or(a / 2, b / 2)
  }

  lemma XorHalf(a: nat, b: nat)
    ensures Xor(a, b) / 2 == Xor(a / 2, b / 2)
    ensures Xor(a, b) % 2 == (a % 2 + b % 2) % 2
  {
  }

  lemma SameByHalves(x: nat, y: nat)
    requires x / 2 == y / 2 && x % 2 == y % 2
    ensures x == y
  {
  }

  lemma {:induction false} XorBound(a: nat, b: nat, k: nat)
    requires a < Pow2(k) && b < Pow2(k)
    ensures Xor(a, b) < Pow2(k)
  {
    if k == 0 {
    } else {
      XorBound(a / 2, b / 2, k - 1);
    }
  }

  lemma HalvesCancel(a: nat, b: nat, x: nat, y: nat)
    requires x % 2 == (a % 2 + b % 2) % 2 && y % 2 == (x % 2 + b % 2) % 2 && y / 2 == a / 2
    ensures y == a
  {
    SameByHalves(y, a);
  }

  /** Xor is its own inverse: mixing the same value twice restores the state. */
  lemma {:induction false} XorCancel(a: nat, b: nat)
    ensures Xor(Xor(a, b), b) == a
    decreases a + b
  {
    if a == 0 && b == 0 {
    } else {
      XorCancel(a / 2, b / 2);
      XorHalf(a, b);
      XorHalf(Xor(a, b), b);
      HalvesCancel(a, b, Xor(a, b), Xor(Xor(a, b), b));
    }
  }

  lemma {:induction false} XorCommutes(a: nat, b: nat)
    ensures Xor(a, b) == Xor(b, a)
    decreases a + b
  {
    if a == 0 && b == 0 {
    } else {
      XorCommutes(a / 2, b / 2);
    }
  }

  lemma {:induction false} XorZero(a: nat)
    ensures Xor(a, 0) == a
  {
    if a == 0 {
    } else {
      XorZero(a / 2);
    }
  }

  lemma MulAtLeast(m: nat, d: int)
    requires d >= 1
    ensures m * d >= m
  {
  }

  /** Quotient and remainder are determined by the division equation. */
  lemma ModUnique(a: int, m: nat, q: int, r: int)
    requires m > 0 && 0 <= r < m
    requires a == m * q + r
    ensures a % m == r && a / m == q
  {
    var q', r' := a / m, a % m;
    assert a == m * q' + r' && 0 <= r' < m;
    assert m * (q - q') == m * q - m * q';
    assert m * (q' - q) == m * q' - m * q;
    if q > q' {
      MulAtLeast(m, q - q');
    } else if q < q' {
      MulAtLeast(m, q' - q);
    }
  }

  lemma ModHalf(a: nat, k: nat)
    requires k > 0
    ensures (a % Pow2(k)) / 2 == (a / 2) % Pow2(k - 1)
    ensures (a % Pow2(k)) % 2 == a % 2
  {
    var p := Pow2(k - 1);
    var m := 2 * p;
    assert Pow2(k) == m;
    var q, r := a / m, a % m;
    var pq := p * q;
    assert m * q == 2 * pq;
    assert a == 2 * pq + r;
    assert a / 2 == pq + r / 2;
    assert 0 <= r / 2 < p;
    ModUnique(a / 2, p, q, r / 2);
  }

  /** The low k bits of a xor depend only on the low k bits of its operands. */
  lemma {:induction false} XorLow(a: nat, b: nat, k: nat)
    ensures Xor(a, b) % Pow2(k) == Xor(a % Pow2(k), b % Pow2(k))
    decreases k
  {
    var a', b' := a % Pow2(k), b % Pow2(k);
    if k == 0 {
    } else {
      XorLow(a / 2, b / 2, k - 1);
      ModHalf(a, k);
      ModHalf(b, k);
      ModHalf(Xor(a, b), k);
      XorHalf(a, b);
      XorHalf(a', b');
      SameByHalves(Xor(a, b) % Pow2(k), Xor(a', b'));
    }
  }

  lemma {:induction false} OrZero(a: nat)
    ensures Or(a, 0) == a && Or(0, a) == a
  {
    if a == 0 {
    } else {
      OrZero(a / 2);
    }
  }

  /** Or of numbers with no common bit is their sum. */
  lemma {:induction false} OrDisjoint(a: nat, b: nat, k: nat)
    requires a < Pow2(k)
    ensures Or(a, b * Pow2(k)) == a + b * Pow2(k)
    decreases k
  {
    if k == 0 {
      OrZero(b);
    } else {
      var c := b * Pow2(k);
      assert c == 2 * (b * Pow2(k - 1));
      OrDisjoint(a / 2, b, k - 1);
    }
  }
}
