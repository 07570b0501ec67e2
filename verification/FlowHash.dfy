/** The 64-bit hash of a flow key and its algebra. */
module FlowHash {
  import opened Types
  import opened Bits

  const OFFSET_BASIS: uint64 := 14695981039346656037
  const PRIME: uint64 := 1099511628211
  const WORD: nat := 0x1_0000_0000_0000_0000

  /** The multiplicative inverse of PRIME modulo 2^64. */
  const PRIME_INVERSE: uint64 := 14886173955864302971

  /** One mixing step: whole fields are folded in, not single bytes. */
  function Combine(h: uint64, v: uint32): uint64 {
    Xor(h, v) * PRIME % WORD
  }

  function Hash(t: FiveTuple): uint64 {
    var h1 := Combine(OFFSET_BASIS, t.srcIp);
    var h2 := Combine(h1, t.dstIp);
    var h3 := Combine(h2, t.srcPort);
    var h4 := Combine(h3, t.dstPort);
    Combine(h4, t.protocol)
  }

  lemma WordIsPow2()
    ensures Pow2(64) == WORD
  {
    assert Pow2(4) == 0x10;
    Pow2Plus(4, 4);
    Pow2Plus(8, 8);
    Pow2Plus(16, 16);
    Pow2Plus(32, 32);
  }

  lemma {:induction false} Pow2Plus(a: nat, b: nat)
    ensures Pow2(a + b) == Pow2(a) * Pow2(b)
  {
    if a == 0 {
    } else {
      Pow2Plus(a - 1, b);
      assert Pow2(a + b) == 2 * (Pow2(a - 1) * Pow2(b));
    }
  }

  lemma ModShift(a: int, k: int, m: nat)
    requires m > 0
    ensures (a + k * m) % m == a % m
  {
    var q := a / m;
    assert a + k * m == m * (q + k) + a % m by {
      assert m * (q + k) == m * q + k * m;
    }
    ModUnique(a + k * m, m, q + k, a % m);
  }

  /** Multiplying by the prime and then by its inverse is the identity on words. */
  lemma MulCancel(x: uint64)
    ensures x * PRIME % WORD * PRIME_INVERSE % WORD == x
  {
    var y, q := x * PRIME % WORD, x * PRIME / WORD;
    var c := PRIME * PRIME_INVERSE / WORD;
    assert PRIME * PRIME_INVERSE == c * WORD + 1;
    assert y * PRIME_INVERSE == x + (x * c - q * PRIME_INVERSE) * WORD by {
      assert y == x * PRIME - q * WORD;
      assert y * PRIME_INVERSE == x * PRIME * PRIME_INVERSE - q * WORD * PRIME_INVERSE;
      assert x * PRIME * PRIME_INVERSE == x * (c * WORD + 1);
    }
    ModShift(x, x * c - q * PRIME_INVERSE, WORD);
  }

  lemma XorWord(h: uint64, v: uint32)
    ensures Xor(h, v) < WORD
  {
    WordIsPow2();
    XorBound(h, v, 64);
  }

  /** A mixing step loses nothing: given the value, the state before it can be
      recovered, and given the state, the value can. */
  lemma CombineInjective(h: uint64, v: uint32, h': uint64, v': uint32)
    requires Combine(h, v) == Combine(h', v')
    ensures v == v' ==> h == h'
    ensures h == h' ==> v == v'
  {
    XorWord(h, v);
    XorWord(h', v');
    MulCancel(Xor(h, v));
    MulCancel(Xor(h', v'));
    assert Xor(h, v) == Xor(h', v');
    XorCancel(h, v);
    XorCancel(h', v');
    XorCommutes(h, v);
    XorCommutes(h', v');
    XorCancel(v, h);
    XorCancel(v', h');
  }

  /** How many of the five fields of two keys differ. */
  function FieldsApart(t: FiveTuple, u: FiveTuple): nat {
    (if t.srcIp != u.srcIp then 1 else 0) + (if t.dstIp != u.dstIp then 1 else 0) +
    (if t.srcPort != u.srcPort then 1 else 0) + (if t.dstPort != u.dstPort then 1 else 0) +
    (if t.protocol != u.protocol then 1 else 0)
  }

  /** Keys that differ in exactly one field never collide. */
  lemma OneFieldApartNeverCollides(t: FiveTuple, u: FiveTuple)
    requires FieldsApart(t, u) == 1
    ensures Hash(t) != Hash(u)
  {
    if Hash(t) == Hash(u) {
      var a1, b1 := Combine(OFFSET_BASIS, t.srcIp), Combine(OFFSET_BASIS, u.srcIp);
      var a2, b2 := Combine(a1, t.dstIp), Combine(b1, u.dstIp);
      var a3, b3 := Combine(a2, t.srcPort), Combine(b2, u.srcPort);
      var a4, b4 := Combine(a3, t.dstPort), Combine(b3, u.dstPort);
      CombineInjective(a4, t.protocol, b4, u.protocol);
      if a4 == b4 { CombineInjective(a3, t.dstPort, b3, u.dstPort); }
      if a3 == b3 { CombineInjective(a2, t.srcPort, b2, u.srcPort); }
      if a2 == b2 { CombineInjective(a1, t.dstIp, b1, u.dstIp); }
      if a1 == b1 { CombineInjective(OFFSET_BASIS, t.srcIp, OFFSET_BASIS, u.srcIp); }
    }
  }

  /** Two numbers agree in their low k bits. */
  predicate SameLow(a: nat, b: nat, k: nat) {
    a % Pow2(k) == b % Pow2(k)
  }

  lemma MulLow(a: nat, b: nat, c: nat, m: nat)
    requires m > 0 && a % m == b % m
    ensures a * c % m == b * c % m
  {
    var qa, qb := a / m, b / m;
    assert a * c == b * c + ((qa - qb) * c) * m by {
      assert a - b == (qa - qb) * m;
      assert (a - b) * c == ((qa - qb) * c) * m;
    }
    ModShift(b * c, (qa - qb) * c, m);
  }

  lemma MulThree(q: nat, low: nat, high: nat)
    ensures q * (low * high) == (q * high) * low
  {
  }

  lemma ModOfMod(a: nat, k: nat)
    requires k <= 64
    ensures a % WORD % Pow2(k) == a % Pow2(k)
  {
    WordIsPow2();
    Pow2Plus(k, 64 - k);
    var q, low, high := a / WORD, Pow2(k), Pow2(64 - k);
    assert WORD == low * high;
    MulThree(q, low, high);
    ModShift(a % WORD, q * high, low);
  }

  lemma CombineLow(h: uint64, v: uint32, h': uint64, v': uint32, k: nat)
    requires k <= 64 && SameLow(h, h', k) && SameLow(v, v', k)
    ensures SameLow(Combine(h, v), Combine(h', v'), k)
  {
    XorLow(h, v, k);
    XorLow(h', v', k);
    MulLow(Xor(h, v), Xor(h', v'), PRIME, Pow2(k));
    ModOfMod(Xor(h, v) * PRIME, k);
    ModOfMod(Xor(h', v') * PRIME, k);
  }

  predicate SameLowFields(t: FiveTuple, u: FiveTuple, k: nat) {
    SameLow(t.srcIp, u.srcIp, k) && SameLow(t.dstIp, u.dstIp, k) && SameLow(t.srcPort, u.srcPort, k) &&
    SameLow(t.dstPort, u.dstPort, k) && SameLow(t.protocol, u.protocol, k)
  }

  /** The low k bits of the hash are a function of the low k bits of the fields. */
  lemma HashLow(t: FiveTuple, u: FiveTuple, k: nat)
    requires k <= 64 && SameLowFields(t, u, k)
    ensures SameLow(Hash(t), Hash(u), k)
  {
    var a1, b1 := Combine(OFFSET_BASIS, t.srcIp), Combine(OFFSET_BASIS, u.srcIp);
    CombineLow(OFFSET_BASIS, t.srcIp, OFFSET_BASIS, u.srcIp, k);
    var a2, b2 := Combine(a1, t.dstIp), Combine(b1, u.dstIp);
    CombineLow(a1, t.dstIp, b1, u.dstIp, k);
    var a3, b3 := Combine(a2, t.srcPort), Combine(b2, u.srcPort);
    CombineLow(a2, t.srcPort, b2, u.srcPort, k);
    var a4, b4 := Combine(a3, t.dstPort), Combine(b3, u.dstPort);
    CombineLow(a3, t.dstPort, b3, u.dstPort, k);
    CombineLow(a4, t.protocol, b4, u.protocol, k);
  }

  lemma PrimeIsOdd(x: nat)
    ensures x * PRIME % 2 == x % 2
  {
    assert x * PRIME == 2 * (549755814105 * x) + x;
  }

  lemma WordParity(y: nat)
    ensures y % WORD % 2 == y % 2
  {
    assert Pow2(1) == 2;
    ModOfMod(y, 1);
  }

  lemma CombineParity(h: uint64, v: uint32)
    ensures Combine(h, v) % 2 == (h + v) % 2
  {
    XorHalf(h, v);
    PrimeIsOdd(Xor(h, v));
    WordParity(Xor(h, v) * PRIME);
  }

  /** The lowest bit of the hash is the parity of the five fields, so it is the
      same in both directions of a connection. */
  lemma HashParity(t: FiveTuple)
    ensures Hash(t) % 2 == (OFFSET_BASIS + t.srcIp + t.dstIp + t.srcPort + t.dstPort + t.protocol) % 2
    ensures Hash(t) % 2 == Hash(t.Reverse()) % 2
  {
    ParityOf(t);
    ParityOf(t.Reverse());
  }

  lemma ParityOf(t: FiveTuple)
    ensures Hash(t) % 2 == (OFFSET_BASIS + t.srcIp + t.dstIp + t.srcPort + t.dstPort + t.protocol) % 2
  {
    var h1 := Combine(OFFSET_BASIS, t.srcIp);
    var h2 := Combine(h1, t.dstIp);
    var h3 := Combine(h2, t.srcPort);
    var h4 := Combine(h3, t.dstPort);
    CombineParity(OFFSET_BASIS, t.srcIp);
    CombineParity(h1, t.dstIp);
    CombineParity(h2, t.srcPort);
    CombineParity(h3, t.dstPort);
    CombineParity(h4, t.protocol);
    ParityChain(h1, t.dstIp, OFFSET_BASIS + t.srcIp);
    ParityChain(h2, t.srcPort, OFFSET_BASIS + t.srcIp + t.dstIp);
    ParityChain(h3, t.dstPort, OFFSET_BASIS + t.srcIp + t.dstIp + t.srcPort);
    ParityChain(h4, t.protocol, OFFSET_BASIS + t.srcIp + t.dstIp + t.srcPort + t.dstPort);
  }

  lemma ParityChain(h: nat, v: nat, sum: nat)
    ensures h % 2 == sum % 2 ==> (h + v) % 2 == (sum + v) % 2
  {
  }
}
