/** Two tiers of dispatch: the engine picks a balancer by dividing the hash, the
    balancer picks one of its workers by taking a remainder. */
module Dispatch {
  import opened Types
  import Bits
  import FlowHash

  /** `LBManager::getLBForPacket`: which of `balancers` serves the flow. */
  function Balancer(t: FiveTuple, balancers: nat, perBalancer: nat): (i: nat)
    requires balancers > 0 && perBalancer > 0
    ensures i < balancers
  {
    (FlowHash.Hash(t) / perBalancer) % balancers
  }

  /** `LoadBalancer::selectFP`: which worker of its balancer serves the flow. */
  function WorkerOf(t: FiveTuple, perBalancer: nat): (j: nat)
    requires perBalancer > 0
    ensures j < perBalancer
  {
    FlowHash.Hash(t) % perBalancer
  }

  /** The place of that worker among all workers of the engine. */
  function GlobalWorker(t: FiveTuple, balancers: nat, perBalancer: nat): (g: nat)
    requires balancers > 0 && perBalancer > 0
  {
    Balancer(t, balancers, perBalancer) * perBalancer + WorkerOf(t, perBalancer)
  }

  lemma SplitRemainder(h: nat, l: nat, f: nat)
    requires l > 0 && f > 0
    ensures l * f > 0
    ensures ((h / f) % l) * f + h % f == h % (l * f)
  {
    var q, r := h / f, h % f;
    var qq, qr := q / l, q % l;
    var m := l * f;
    Bits.MulAtLeast(l, f);
    assert h == f * q + r;
    assert q == l * qq + qr;
    assert f * q == m * qq + qr * f by {
      assert f * (l * qq + qr) == f * (l * qq) + f * qr;
      assert f * (l * qq) == (l * f) * qq;
    }
    assert qr * f + r < m by {
      assert (qr + 1) * f <= l * f;
      assert (qr + 1) * f == qr * f + f;
    }
    Bits.ModUnique(h, m, qq, qr * f + r);
  }

  /** Two-tier dispatch is one-tier dispatch: the worker reached is the hash
      modulo the number of workers, whatever the split between the tiers. */
  lemma TwoTiersAreOne(t: FiveTuple, balancers: nat, perBalancer: nat)
    requires balancers > 0 && perBalancer > 0
    ensures balancers * perBalancer > 0
    ensures GlobalWorker(t, balancers, perBalancer) == FlowHash.Hash(t) % (balancers * perBalancer)
    ensures GlobalWorker(t, balancers, perBalancer) < balancers * perBalancer
  {
    SplitRemainder(FlowHash.Hash(t), balancers, perBalancer);
  }

  /** Every worker is fed by the one balancer its index names. */
  lemma OneFeederPerWorker(t: FiveTuple, balancers: nat, perBalancer: nat)
    requires balancers > 0 && perBalancer > 0
    ensures GlobalWorker(t, balancers, perBalancer) / perBalancer == Balancer(t, balancers, perBalancer)
    ensures GlobalWorker(t, balancers, perBalancer) % perBalancer == WorkerOf(t, perBalancer)
  {
    var i, j := Balancer(t, balancers, perBalancer), WorkerOf(t, perBalancer);
    assert i * perBalancer == perBalancer * i;
    Bits.ModUnique(i * perBalancer + j, perBalancer, i, j);
  }

  /** With a power-of-two number of workers the choice of worker sees only the
      low bits of the five fields. */
  lemma WorkerSeesLowBits(t: FiveTuple, u: FiveTuple, balancers: nat, perBalancer: nat, k: nat)
    requires balancers > 0 && perBalancer > 0
    requires k <= 64 && balancers * perBalancer == Bits.Pow2(k)
    requires FlowHash.SameLowFields(t, u, k)
    ensures GlobalWorker(t, balancers, perBalancer) == GlobalWorker(u, balancers, perBalancer)
  {
    TwoTiersAreOne(t, balancers, perBalancer);
    TwoTiersAreOne(u, balancers, perBalancer);
    FlowHash.HashLow(t, u, k);
  }

  /** Both directions of every connection of a protocol meet at one worker. */
  ghost predicate DirectionsMeet(protocol: byte, balancers: nat, perBalancer: nat)
    requires balancers > 0 && perBalancer > 0
  {
    forall t: FiveTuple :: t.protocol == protocol ==>
      GlobalWorker(t, balancers, perBalancer) == GlobalWorker(t.Reverse(), balancers, perBalancer)
  }

  /** A mixing step on given numbers: the low five bits of the state, what is above them,
      and the quotient of the product. The values are those that the probes hold. */
  datatype Mix = Mix(from: nat, v: nat, to: nat, q: nat, b0: nat, b1: nat, b2: nat, b3: nat, b4: nat, k: nat) {
    predicate Right() {
      && v in {0, 1, 2, 6, 17} && b0 < 2 && b1 < 2 && b2 < 2 && b3 < 2 && b4 < 2
      && from == 32 * q + 16 * b4 + 8 * b3 + 4 * b2 + 2 * b1 + b0 < FlowHash.WORD
      && Mixed() * FlowHash.PRIME == FlowHash.WORD * k + to && to < FlowHash.WORD
    }

    /** The state with the bits of the value flipped. */
    function Mixed(): int {
      32 * q + (if b4 == Bit4(v) then 0 else 16) + (if b3 == 0 then 0 else 8) + (if b2 == Bit2(v) then 0 else 4)
      + (if b1 == Bit1(v) then 0 else 2) + (if b0 == Bit0(v) then 0 else 1)
    }
  }

  // The bits of the values in use.

  function Bit4(v: nat): nat {
    if v == 17 then 1 else 0
  }

  function Bit2(v: nat): nat {
    if v == 6 then 1 else 0
  }

  function Bit1(v: nat): nat {
    if v == 2 || v == 6 then 1 else 0
  }

  function Bit0(v: nat): nat {
    if v == 1 || v == 17 then 1 else 0
  }

  lemma Halve(q: nat, bit: nat)
    requires bit < 2
    ensures (2 * q + bit) / 2 == q && (2 * q + bit) % 2 == bit
  {
  }

  /** Xor one bit at a time. */
  lemma XorBit(q: nat, a: nat, v: nat, b: nat)
    requires a < 2 && b < 2
    ensures Bits.Xor(2 * q + a, 2 * v + b) == 2 * Bits.Xor(q, v) + (if a == b then 0 else 1)
  {
    Halve(q, a);
    Halve(v, b);
    Bits.XorHalf(2 * q + a, 2 * v + b);
  }

  lemma XorTop(q: nat, a: nat, z: nat, b: nat)
    requires a < 2 && b < 2 && z == 0
    ensures Bits.Xor(2 * q + a, 2 * z + b) == 2 * q + (if a == b then 0 else 1)
  {
    XorBit(q, a, z, b);
    Bits.XorZero(q);
  }

  /** Two bits more at the low end. */
  lemma XorTwoBits(q: nat, a1: nat, a0: nat, v: nat, b1: nat, b0: nat)
    requires a1 < 2 && a0 < 2 && b1 < 2 && b0 < 2
    ensures Bits.Xor(4 * q + 2 * a1 + a0, 4 * v + 2 * b1 + b0) ==
      4 * Bits.Xor(q, v) + (if a1 == b1 then 0 else 2) + (if a0 == b0 then 0 else 1)
  {
    XorBit(2 * q + a1, a0, 2 * v + b1, b0);
    XorBit(q, a1, v, b1);
  }

  lemma XorFourBits(q: nat, b3: nat, b2: nat, b1: nat, b0: nat, v: nat, w3: nat, w2: nat, w1: nat, w0: nat)
    requires b3 < 2 && b2 < 2 && b1 < 2 && b0 < 2 && w3 < 2 && w2 < 2 && w1 < 2 && w0 < 2
    ensures Bits.Xor(16 * q + 8 * b3 + 4 * b2 + 2 * b1 + b0, 16 * v + 8 * w3 + 4 * w2 + 2 * w1 + w0) ==
      16 * Bits.Xor(q, v) + (if b3 == w3 then 0 else 8) + (if b2 == w2 then 0 else 4)
      + (if b1 == w1 then 0 else 2) + (if b0 == w0 then 0 else 1)
  {
    XorTwoBits(q, b3, b2, v, w3, w2);
    XorTwoBits(4 * q + 2 * b3 + b2, b1, b0, 4 * v + 2 * w3 + w2, w1, w0);
  }

  lemma XorFiveBits(q: nat, b4: nat, b3: nat, b2: nat, b1: nat, b0: nat, w4: nat, w3: nat, w2: nat, w1: nat, w0: nat)
    requires b4 < 2 && b3 < 2 && b2 < 2 && b1 < 2 && b0 < 2 && w4 < 2 && w3 < 2 && w2 < 2 && w1 < 2 && w0 < 2
    ensures Bits.Xor(32 * q + 16 * b4 + 8 * b3 + 4 * b2 + 2 * b1 + b0, 16 * w4 + 8 * w3 + 4 * w2 + 2 * w1 + w0) ==
      32 * q + (if b4 == w4 then 0 else 16) + (if b3 == w3 then 0 else 8) + (if b2 == w2 then 0 else 4)
      + (if b1 == w1 then 0 else 2) + (if b0 == w0 then 0 else 1)
  {
    var q1, v1 := 2 * q + b4, w4;
    XorTop(q, b4, v1 - w4, w4);
    XorFourBits(q1, b3, b2, b1, b0, v1, w3, w2, w1, w0);
  }

  lemma XorIsMixed(m: Mix)
    requires m.Right()
    ensures Bits.Xor(m.from, m.v) == m.Mixed()
  {
    assert m.v == 16 * Bit4(m.v) + 8 * 0 + 4 * Bit2(m.v) + 2 * Bit1(m.v) + Bit0(m.v);
    XorFiveBits(m.q, m.b4, m.b3, m.b2, m.b1, m.b0, Bit4(m.v), 0, Bit2(m.v), Bit1(m.v), Bit0(m.v));
  }

  lemma CombineByProduct(h: uint64, v: uint32, x: nat, k: nat, to: nat)
    requires Bits.Xor(h, v) == x && x * FlowHash.PRIME == FlowHash.WORD * k + to && to < FlowHash.WORD
    ensures FlowHash.Combine(h, v) == to
  {
    Bits.ModUnique(x * FlowHash.PRIME, FlowHash.WORD, k, to);
  }

  lemma RightIsCombine(m: Mix)
    requires m.Right()
    ensures FlowHash.Combine(m.from, m.v) == m.to
  {
    XorIsMixed(m);
    CombineByProduct(m.from, m.v, m.Mixed(), m.k, m.to);
  }

  lemma HashBySteps(t: FiveTuple, m1: Mix, m2: Mix, m3: Mix, m4: Mix, m5: Mix)
    requires m1.Right() && m2.Right() && m3.Right() && m4.Right() && m5.Right()
    requires m1.from == FlowHash.OFFSET_BASIS
    requires m1.to == m2.from && m2.to == m3.from && m3.to == m4.from && m4.to == m5.from
    requires m1.v == t.srcIp && m2.v == t.dstIp && m3.v == t.srcPort
    requires m4.v == t.dstPort && m5.v == t.protocol
    ensures FlowHash.Hash(t) == m5.to
  {
    RightIsCombine(m1);
    RightIsCombine(m2);
    RightIsCombine(m3);
    RightIsCombine(m4);
    RightIsCombine(m5);
  }

  lemma DividesCombination(n: nat, a: int, b: int, x: int, y: int)
    requires n > 0 && a % n == 0 && b % n == 0
    ensures (x * a + y * b) % n == 0
  {
    var qa, qb := a / n, b / n;
    assert a == n * qa && b == n * qb;
    assert x * (n * qa) + y * (n * qb) == n * (x * qa + y * qb);
    Bits.ModUnique(x * a + y * b, n, x * qa + y * qb, 0);
  }

  lemma SameRemainder(a: nat, b: nat, n: nat)
    requires n > 0 && a % n == b % n
    ensures (a - b) % n == 0
  {
    assert a - b == n * (a / n - b / n);
    Bits.ModUnique(a - b, n, a / n - b / n, 0);
  }

  /** Numbers that agree modulo n in two pairs, where 2 is a combination of the two
      differences. */
  lemma CommonDivisor(n: nat, a: nat, b: nat, c: nat, d: nat, x: int, y: int)
    requires n > 0 && a % n == b % n && c % n == d % n
    requires x * (a - b) + y * (c - d) == 2
    ensures n <= 2
  {
    SameRemainder(a, b, n);
    SameRemainder(c, d, n);
    DividesCombination(n, a - b, c - d, x, y);
    if n > 2 {
      Bits.ModUnique(2, n, 0, 2);
    }
  }

  lemma TcpProbeFirst(t: FiveTuple)
    requires t == FiveTuple(0, 0, 1, 0, 6)
    ensures FlowHash.Hash(t) == 15857969067915994942
  {
    HashBySteps(t,
                Mix(14695981039346656037, 0, 12638153115695167455,
                    459249407479583001, 1, 0, 1, 0, 0, 875948729822),
                Mix(12638153115695167455, 0, 590684067820433389,
                    394942284865473982, 1, 1, 1, 1, 1, 753292627376),
                Mix(590684067820433389, 1, 15658190276026904068,
                    18458877119388543, 1, 0, 1, 1, 0, 35207514050),
                Mix(15658190276026904068, 0, 5558023030422843596,
                    489318446125840752, 0, 0, 1, 0, 0, 933300869597),
                Mix(5558023030422843596, 6, 15857969067915994942,
                    173688219700713862, 0, 0, 1, 1, 0, 331283988512));
  }

  lemma TcpProbeFirstReversed(t: FiveTuple)
    requires t == FiveTuple(0, 0, 0, 1, 6)
    ensures FlowHash.Hash(t) == 16481182154226207116
  {
    HashBySteps(t,
                Mix(14695981039346656037, 0, 12638153115695167455,
                    459249407479583001, 1, 0, 1, 0, 0, 875948729822),
                Mix(12638153115695167455, 0, 590684067820433389,
                    394942284865473982, 1, 1, 1, 1, 1, 753292627376),
                Mix(590684067820433389, 0, 15658191375538532279,
                    18458877119388543, 1, 0, 1, 1, 0, 35207514050),
                Mix(15658191375538532279, 1, 5558978506027569730,
                    489318480485579133, 1, 1, 1, 0, 1, 933300935133),
                Mix(5558978506027569730, 6, 16481182154226207116,
                    173718078313361554, 0, 1, 0, 0, 0, 331340939296));
  }

  lemma TcpProbeSecond(t: FiveTuple)
    requires t == FiveTuple(0, 0, 2, 0, 6)
    ensures FlowHash.Hash(t) == 17730460460009643123
  {
    HashBySteps(t,
                Mix(14695981039346656037, 0, 12638153115695167455,
                    459249407479583001, 1, 0, 1, 0, 0, 875948729822),
                Mix(12638153115695167455, 0, 590684067820433389,
                    394942284865473982, 1, 1, 1, 1, 1, 753292627376),
                Mix(590684067820433389, 2, 15658193574561788701,
                    18458877119388543, 1, 0, 1, 1, 0, 35207514050),
                Mix(15658193574561788701, 0, 5560892755771906631,
                    489318549205055896, 1, 0, 1, 1, 1, 933301066205),
                Mix(5560892755771906631, 6, 17730460460009643123,
                    173777898617872082, 1, 1, 1, 0, 0, 331455037472));
  }

  lemma TcpProbeSecondReversed(t: FiveTuple)
    requires t == FiveTuple(0, 0, 0, 2, 6)
    ensures FlowHash.Hash(t) == 16480216783016827083
  {
    HashBySteps(t,
                Mix(14695981039346656037, 0, 12638153115695167455,
                    459249407479583001, 1, 0, 1, 0, 0, 875948729822),
                Mix(12638153115695167455, 0, 590684067820433389,
                    394942284865473982, 1, 1, 1, 1, 1, 753292627376),
                Mix(590684067820433389, 0, 15658191375538532279,
                    18458877119388543, 1, 0, 1, 1, 0, 35207514050),
                Mix(15658191375538532279, 2, 5558977406515941519,
                    489318480485579133, 1, 1, 1, 0, 1, 933300935133),
                Mix(5558977406515941519, 6, 16480216783016827083,
                    173718043953623172, 1, 1, 1, 1, 0, 331340873760));
  }

  lemma TcpProbesForceTwo(n: nat, p: FiveTuple, q: FiveTuple)
    requires n > 0 && p == FiveTuple(0, 0, 1, 0, 6) && q == FiveTuple(0, 0, 2, 0, 6)
    requires FlowHash.Hash(p) % n == FlowHash.Hash(p.Reverse()) % n
    requires FlowHash.Hash(q) % n == FlowHash.Hash(q.Reverse()) % n
    ensures n <= 2
  {
    TcpProbeFirst(p);
    TcpProbeFirstReversed(p.Reverse());
    TcpProbeSecond(q);
    TcpProbeSecondReversed(q.Reverse());
    CommonDivisor(n, FlowHash.Hash(p), FlowHash.Hash(p.Reverse()), FlowHash.Hash(q), FlowHash.Hash(q.Reverse()),
                  134318422732987297, 66954146875662042);
  }

  lemma UdpProbeFirst(t: FiveTuple)
    requires t == FiveTuple(1, 0, 0, 0, 17)
    ensures FlowHash.Hash(t) == 15568237675983707087
  {
    HashBySteps(t,
                Mix(14695981039346656037, 1, 12638152016183539244,
                    459249407479583001, 1, 0, 1, 0, 0, 875948729822),
                Mix(12638152016183539244, 0, 589727492704079044,
                    394942250505735601, 0, 0, 1, 1, 0, 753292561840),
                Mix(589727492704079044, 0, 15034026112158478604,
                    18428984147002470, 0, 0, 1, 0, 0, 35150497730),
                Mix(15034026112158478604, 0, 12478008331234465636,
                    469813316004952456, 0, 0, 1, 1, 0, 896097786313),
                Mix(12478008331234465636, 17, 15568237675983707087,
                    389937760351077051, 0, 0, 1, 0, 0, 743747254381));
  }

  lemma UdpProbeFirstReversed(t: FiveTuple)
    requires t == FiveTuple(0, 1, 0, 0, 17)
    ensures FlowHash.Hash(t) == 4954439874002700705
  {
    HashBySteps(t,
                Mix(14695981039346656037, 0, 12638153115695167455,
                    459249407479583001, 1, 0, 1, 0, 0, 875948729822),
                Mix(12638153115695167455, 1, 590682968308805178,
                    394942284865473982, 1, 1, 1, 1, 1, 753292627376),
                Mix(590682968308805178, 0, 15657234800422177934,
                    18458842759650161, 0, 1, 0, 1, 1, 35207448514),
                Mix(15657234800422177934, 0, 4934814342159144266,
                    489288587513193060, 0, 1, 1, 1, 0, 933243918813),
                Mix(4934814342159144266, 17, 4954439874002700705,
                    154212948192473258, 0, 1, 0, 1, 0, 294137856013));
  }

  lemma UdpProbeSecond(t: FiveTuple)
    requires t == FiveTuple(0, 0, 1, 0, 17)
    ensures FlowHash.Hash(t) == 15857989958636930951
  {
    HashBySteps(t,
                Mix(14695981039346656037, 0, 12638153115695167455,
                    459249407479583001, 1, 0, 1, 0, 0, 875948729822),
                Mix(12638153115695167455, 0, 590684067820433389,
                    394942284865473982, 1, 1, 1, 1, 1, 753292627376),
                Mix(590684067820433389, 1, 15658190276026904068,
                    18458877119388543, 1, 0, 1, 1, 0, 35207514050),
                Mix(15658190276026904068, 0, 5558023030422843596,
                    489318446125840752, 0, 0, 1, 0, 0, 933300869597),
                Mix(5558023030422843596, 17, 15857989958636930951,
                    173688219700713862, 0, 0, 1, 1, 0, 331283988512));
  }

  lemma UdpProbeSecondReversed(t: FiveTuple)
    requires t == FiveTuple(0, 0, 0, 1, 17)
    ensures FlowHash.Hash(t) == 16481198646900630281
  {
    HashBySteps(t,
                Mix(14695981039346656037, 0, 12638153115695167455,
                    459249407479583001, 1, 0, 1, 0, 0, 875948729822),
                Mix(12638153115695167455, 0, 590684067820433389,
                    394942284865473982, 1, 1, 1, 1, 1, 753292627376),
                Mix(590684067820433389, 0, 15658191375538532279,
                    18458877119388543, 1, 0, 1, 1, 0, 35207514050),
                Mix(15658191375538532279, 1, 5558978506027569730,
                    489318480485579133, 1, 1, 1, 0, 1, 933300935133),
                Mix(5558978506027569730, 17, 16481198646900630281,
                    173718078313361554, 0, 1, 0, 0, 0, 331340939296));
  }

  lemma UdpProbesForceTwo(n: nat, p: FiveTuple, q: FiveTuple)
    requires n > 0 && p == FiveTuple(1, 0, 0, 0, 17) && q == FiveTuple(0, 0, 1, 0, 17)
    requires FlowHash.Hash(p) % n == FlowHash.Hash(p.Reverse()) % n
    requires FlowHash.Hash(q) % n == FlowHash.Hash(q.Reverse()) % n
    ensures n <= 2
  {
    UdpProbeFirst(p);
    UdpProbeFirstReversed(p.Reverse());
    UdpProbeSecond(q);
    UdpProbeSecondReversed(q.Reverse());
    CommonDivisor(n, FlowHash.Hash(p), FlowHash.Hash(p.Reverse()), FlowHash.Hash(q), FlowHash.Hash(q.Reverse()),
                  -120169175781967124, -2046587857005016589);
  }

  lemma MeetForced(t: FiveTuple, protocol: byte, balancers: nat, perBalancer: nat)
    requires balancers > 0 && perBalancer > 0
    requires DirectionsMeet(protocol, balancers, perBalancer) && t.protocol == protocol
    ensures balancers * perBalancer > 0
    ensures FlowHash.Hash(t) % (balancers * perBalancer) == FlowHash.Hash(t.Reverse()) % (balancers * perBalancer)
  {
    TwoTiersAreOne(t, balancers, perBalancer);
    TwoTiersAreOne(t.Reverse(), balancers, perBalancer);
  }

  /** The documentation promises one worker for a connection. For TCP and for UDP alike
      it holds for the two directions of every connection exactly when there are at most
      two workers in all. */
  lemma DirectionsMeetIffTwoWorkers(protocol: byte, balancers: nat, perBalancer: nat)
    requires balancers > 0 && perBalancer > 0 && (protocol == TCP || protocol == UDP)
    ensures DirectionsMeet(protocol, balancers, perBalancer) <==> balancers * perBalancer <= 2
  {
    var n := balancers * perBalancer;
    if n <= 2 {
      forall t: FiveTuple | t.protocol == protocol
        ensures GlobalWorker(t, balancers, perBalancer) == GlobalWorker(t.Reverse(), balancers, perBalancer)
      {
        TwoTiersAreOne(t, balancers, perBalancer);
        TwoTiersAreOne(t.Reverse(), balancers, perBalancer);
        FlowHash.HashParity(t);
        assert n == 1 || n == 2;
      }
    } else if DirectionsMeet(protocol, balancers, perBalancer) {
      var p := if protocol == TCP then FiveTuple(0, 0, 1, 0, TCP) else FiveTuple(1, 0, 0, 0, UDP);
      var q := if protocol == TCP then FiveTuple(0, 0, 2, 0, TCP) else FiveTuple(0, 0, 1, 0, UDP);
      MeetForced(p, protocol, balancers, perBalancer);
      MeetForced(q, protocol, balancers, perBalancer);
      if protocol == TCP {
        TcpProbesForceTwo(n, p, q);
      } else {
        UdpProbesForceTwo(n, p, q);
      }
    }
  }

  /** Consecutive queue numbers, as many as asked for or as far as there are queues. */
  predicate QueuesFrom(list: seq<int>, start: int, count: int, queues: nat) {
    && |list| <= (if count > 0 then count else 0)
    && (forall j :: 0 <= j < |list| ==> list[j] == start + j < queues)
    && (|list| < count ==> start + |list| >= queues)
  }

  /** `LBManager`'s constructor: balancer i receives the worker queues numbered
      from i * perBalancer, as far as there are queues. */
  method AssignQueues(balancers: int, perBalancer: int, queues: nat) returns (lists: seq<seq<int>>)
    ensures |lists| == if balancers > 0 then balancers else 0
    ensures forall i :: 0 <= i < |lists| ==> QueuesFrom(lists[i], i * perBalancer, perBalancer, queues)
  {
    lists := [];
    var i := 0;
    while i < balancers
      invariant 0 <= i && (i <= balancers || i == 0)
      invariant |lists| == i
      invariant forall k :: 0 <= k < i ==> QueuesFrom(lists[k], k * perBalancer, perBalancer, queues)
    {
      var own := QueueRange(i * perBalancer, perBalancer, queues);
      lists := lists + [own];
      i := i + 1;
    }
  }

  /** The inner loop. */
  method QueueRange(start: int, count: int, queues: nat) returns (own: seq<int>)
    ensures QueuesFrom(own, start, count, queues)
  {
    own := [];
    var j := 0;
    while j < count && start + j < queues
      invariant 0 <= j && (j <= count || j == 0) && |own| == j
      invariant forall k :: 0 <= k < j ==> own[k] == start + k < queues
    {
      own := own + [start + j];
      j := j + 1;
    }
  }

  lemma RoomForRow(i: nat, balancers: nat, perBalancer: nat)
    requires i < balancers
    ensures i * perBalancer + perBalancer <= balancers * perBalancer
  {
    assert (i + 1) * perBalancer <= balancers * perBalancer;
  }

  /** The worker a balancer picks from its own list is the global worker. */
  lemma AssignedQueueIsGlobalWorker(t: FiveTuple, balancers: nat, perBalancer: nat, lists: seq<seq<int>>)
    requires balancers > 0 && perBalancer > 0 && |lists| == balancers
    requires forall i :: 0 <= i < |lists| ==>
      QueuesFrom(lists[i], i * perBalancer, perBalancer, balancers * perBalancer)
    ensures var own := lists[Balancer(t, balancers, perBalancer)];
      |own| == perBalancer && own[WorkerOf(t, perBalancer)] == GlobalWorker(t, balancers, perBalancer)
  {
    var i := Balancer(t, balancers, perBalancer);
    RoomForRow(i, balancers, perBalancer);
    assert QueuesFrom(lists[i], i * perBalancer, perBalancer, balancers * perBalancer);
  }
}
