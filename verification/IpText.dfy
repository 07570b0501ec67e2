/** Decimal numbers and dotted IPv4 addresses as text. Addresses are kept as the
    host reads them from the wire: the first octet is the low byte. */
module IpText {
  import opened Types
  import opened Bits
  import opened Bytes

  const WORD32: nat := 0x1_0000_0000

  predicate IsDigit(c: char) {
    '0' <= c <= '9'
  }

  function DigitChar(d: nat): (c: char)
    requires d < 10
    ensures IsDigit(c) && c as int - '0' as int == d
  {
    ('0' as int + d) as char
  }

  /** What a stream prints for an unsigned number. */
  function Digits(n: nat): (s: string)
    ensures s != [] && forall i :: 0 <= i < |s| ==> IsDigit(s[i])
  {
    if n < 10 then [DigitChar(n)] else Digits(n / 10) + [DigitChar(n % 10)]
  }

  function Octet(ip: uint32, k: nat): byte
    requires k < 4
  {
    if k == 0 then ip % 0x100 else if k == 1 then ip / 0x100 % 0x100
    else if k == 2 then ip / 0x1_0000 % 0x100 else ip / 0x100_0000
  }

  function IpToString(ip: uint32): string {
    Digits(Octet(ip, 0)) + "." + Digits(Octet(ip, 1)) + "." + Digits(Octet(ip, 2)) + "." + Digits(Octet(ip, 3))
  }

  /** The three locals of the address parser. */
  datatype Acc = Acc(result: uint32, octet: nat, shift: nat)

  /** The octet moved into place. Where the shift or the octet outgrows 32 bits
      the C++ is undefined; here the value is reduced modulo 2^32. */
  function Placed(octet: nat, shift: nat): uint32 {
    octet * Pow2(shift) % WORD32
  }

  lemma OrWord(a: uint32, b: uint32)
    ensures Or(a, b) < WORD32
  {
    assert Pow2(8) == 0x100;
    assert Pow2(16) == 0x1_0000;
    assert Pow2(16 + 8) == 0x100_0000;
    assert Pow2(24 + 8) == WORD32;
    OrBound(a, b, 32);
  }

  lemma {:induction false} OrBound(a: nat, b: nat, k: nat)
    requires a < Pow2(k) && b < Pow2(k)
    ensures Or(a, b) < Pow2(k)
  {
    if k == 0 {
    } else {
      OrBound(a / 2, b / 2, k - 1);
    }
  }

  function Merge(acc: Acc): uint32 {
    OrWord(acc.result, Placed(acc.octet, acc.shift));
    Or(acc.result, Placed(acc.octet, acc.shift))
  }

  function Feed(acc: Acc, c: char): Acc {
    if c == '.' then Acc(Merge(acc), 0, acc.shift + 8)
    else if IsDigit(c) then acc.(octet := acc.octet * 10 + (c as int - '0' as int))
    else acc
  }

  function FeedAll(acc: Acc, s: string): Acc
    decreases |s|
  {
    if s == [] then acc else FeedAll(Feed(acc, s[0]), s[1..])
  }

  /** `parseIP`: characters that are neither digit nor dot are skipped. */
  function ParseIp(s: string): uint32 {
    Merge(FeedAll(Acc(0, 0, 0), s))
  }

  method ParseIpLoop(s: string) returns (result: uint32)
    ensures result == ParseIp(s)
  {
    var octet, shift := 0, 0;
    result := 0;
    for i := 0 to |s|
      invariant octet >= 0 && shift >= 0
      invariant FeedAll(Acc(0, 0, 0), s) == FeedAll(Acc(result, octet, shift), s[i..])
    {
      var c := s[i];
      assert s[i..][0] == c && s[i..][1..] == s[i + 1..];
      if c == '.' {
        result := Merge(Acc(result, octet, shift));
        shift := shift + 8;
        octet := 0;
      } else if IsDigit(c) {
        octet := octet * 10 + (c as int - '0' as int);
      }
    }
    result := Merge(Acc(result, octet, shift));
  }

  lemma {:induction false} FeedSplit(acc: Acc, s: string, u: string)
    ensures FeedAll(acc, s + u) == FeedAll(FeedAll(acc, s), u)
    decreases |s|
  {
    if s == [] {
      assert s + u == u;
    } else {
      assert (s + u)[1..] == s[1..] + u;
      FeedSplit(Feed(acc, s[0]), s[1..], u);
    }
  }

  /** Feeding the digits of a number to an empty octet leaves the number. */
  lemma {:induction false} FeedDigits(acc: Acc, n: nat)
    requires acc.octet == 0
    ensures FeedAll(acc, Digits(n)) == acc.(octet := n)
  {
    if n < 10 {
    } else {
      FeedDigits(acc, n / 10);
      FeedSplit(acc, Digits(n / 10), [DigitChar(n % 10)]);
      var mid := acc.(octet := n / 10);
      assert FeedAll(mid, [DigitChar(n % 10)]) == FeedAll(Feed(mid, DigitChar(n % 10)), []);
    }
  }

  lemma FeedOctet(acc: Acc, n: nat)
    requires acc.octet == 0
    ensures FeedAll(acc, Digits(n) + ".") == Acc(Merge(acc.(octet := n)), 0, acc.shift + 8)
  {
    FeedDigits(acc, n);
    FeedSplit(acc, Digits(n), ".");
    var mid := acc.(octet := n);
    assert FeedAll(mid, ".") == FeedAll(Feed(mid, '.'), []);
  }

  lemma MulBound(x: nat, bound: nat, p: nat)
    requires x <= bound
    ensures x * p <= bound * p
  {
  }

  /** An octet put above bits that are all below it. */
  lemma Place(low: uint32, octet: byte, shift: nat, p: nat)
    requires p == Pow2(shift) && low < p && 0x100 * p <= WORD32
    ensures Merge(Acc(low, octet, shift)) == low + octet * p < 0x100 * p
  {
    var x := octet * p;
    MulBound(octet, 0xff, p);
    assert x + p <= WORD32;
    assert Placed(octet, shift) == x;
    OrDisjoint(low, octet, shift);
  }

  /** Octets at their places after each dot. */
  lemma FeedNext(low: uint32, octet: byte, shift: nat, p: nat, rest: string) returns (next: uint32)
    requires p == Pow2(shift) && low < p && 0x100 * p <= WORD32
    ensures next == low + octet * p < 0x100 * p
    ensures FeedAll(Acc(low, 0, shift), Digits(octet) + "." + rest) == FeedAll(Acc(next, 0, shift + 8), rest)
  {
    Place(low, octet, shift, p);
    next := low + octet * p;
    FeedOctet(Acc(low, 0, shift), octet);
    FeedSplit(Acc(low, 0, shift), Digits(octet) + ".", rest);
  }

  lemma Powers()
    ensures Pow2(0) == 1 && Pow2(8) == 0x100 && Pow2(16) == 0x1_0000 && Pow2(24) == 0x100_0000
  {
    assert Pow2(4) == 16;
    assert Pow2(8) == 0x100;
    assert Pow2(12) == 0x1000;
    assert Pow2(16) == 0x1_0000;
    assert Pow2(20) == 0x10_0000;
  }

  /** The last two octets: one more dot, and no dot at the end. */
  lemma FeedLastTwo(low: uint32, c: byte, d: byte, shift: nat, p: nat, q: nat)
    requires p == Pow2(shift) && q == Pow2(shift + 8) && q == 0x100 * p && low < p && 0x100 * q <= WORD32
    ensures Merge(FeedAll(Acc(low, 0, shift), Digits(c) + "." + Digits(d))) == low + c * p + d * q
  {
    var next := FeedNext(low, c, shift, p, Digits(d));
    FeedDigits(Acc(next, 0, shift + 8), d);
    Place(next, d, shift + 8, q);
  }

  lemma FeedFirstTwo(a: byte, b: byte, s2: string, s3: string) returns (two: uint32)
    requires s2 == Digits(b) + "." + s3
    ensures two == a + b * 0x100
    ensures FeedAll(Acc(0, 0, 0), Digits(a) + "." + s2) == FeedAll(Acc(two, 0, 16), s3)
  {
    Powers();
    var one := FeedNext(0, a, 0, 1, s2);
    two := FeedNext(one, b, 8, 0x100, s3);
  }

  lemma ParseFour(a: byte, b: byte, c: byte, d: byte, s2: string, s3: string)
    requires s3 == Digits(c) + "." + Digits(d) && s2 == Digits(b) + "." + s3
    ensures ParseIp(Digits(a) + "." + s2) == a + b * 0x100 + c * 0x1_0000 + d * 0x100_0000
  {
    Powers();
    var two := FeedFirstTwo(a, b, s2, s3);
    FeedLastTwo(two, c, d, 16, 0x1_0000, 0x100_0000);
  }

  lemma OctetsSum(ip: uint32)
    ensures Octet(ip, 0) + Octet(ip, 1) * 0x100 + Octet(ip, 2) * 0x1_0000 + Octet(ip, 3) * 0x100_0000 == ip
  {
    var a, b, c := ip / 0x100, ip / 0x1_0000, ip / 0x100_0000;
    assert ip == a * 0x100 + Octet(ip, 0);
    assert a == b * 0x100 + Octet(ip, 1);
    assert b == c * 0x100 + Octet(ip, 2);
  }

  lemma Regroup(a: string, b: string, c: string, d: string)
    ensures a + "." + b + "." + c + "." + d == a + "." + (b + "." + (c + "." + d))
  {
  }

  /** Printing an address and parsing the text gives the address back, for all
      2^32 of them. */
  lemma ParsePrinted(ip: uint32)
    ensures ParseIp(IpToString(ip)) == ip
  {
    var a, b, c, d := Octet(ip, 0), Octet(ip, 1), Octet(ip, 2), Octet(ip, 3);
    Regroup(Digits(a), Digits(b), Digits(c), Digits(d));
    var s3 := Digits(c) + "." + Digits(d);
    ParseFour(a, b, c, d, Digits(b) + "." + s3, s3);
    OctetsSum(ip);
  }

  /** Hence no two addresses print alike. */
  lemma PrintedDistinct(ip: uint32, other: uint32)
    ensures IpToString(ip) == IpToString(other) ==> ip == other
  {
    ParsePrinted(ip);
    ParsePrinted(other);
  }

  lemma OctetsOf(a: byte, b: byte, c: byte, d: byte, ip: uint32)
    requires ip == a + b * 0x100 + c * 0x1_0000 + d * 0x100_0000
    ensures Octet(ip, 0) == a && Octet(ip, 1) == b && Octet(ip, 2) == c && Octet(ip, 3) == d
  {
    Digits32(a, b, c, d, ip);
  }

  /** An address prints as its four bytes on the wire, in that order. */
  lemma PrintsWireOrder(a: byte, b: byte, c: byte, d: byte, ip: uint32)
    requires ip == a + b * 0x100 + c * 0x1_0000 + d * 0x100_0000
    ensures IpToString(ip) == Digits(a) + "." + Digits(b) + "." + Digits(c) + "." + Digits(d)
  {
    OctetsOf(a, b, c, d, ip);
  }

  lemma PrintedNumbers()
    ensures Digits(192) == "192" && Digits(168) == "168" && Digits(1) == "1" && Digits(50) == "50"
  {
    assert Digits(19) == "1" + "9" && Digits(16) == "1" + "6";
  }

  /** The address of the usage text, on the wire and as text. */
  lemma PrintedExample(ip: uint32)
    requires ip == 192 + 168 * 0x100 + 1 * 0x1_0000 + 50 * 0x100_0000
    ensures IpToString(ip) == "192.168.1.50" && ParseIp("192.168.1.50") == ip
  {
    PrintsWireOrder(192, 168, 1, 50, ip);
    PrintedNumbers();
    assert "192" + "." + "168" + "." + "1" + "." + "50" == "192.168.1.50";
    ParsePrinted(ip);
  }

  lemma FeedOne(acc: Acc, c: char)
    ensures FeedAll(acc, [c]) == Feed(acc, c)
  {
    assert [c][1..] == [];
  }

  /** Whatever else stands in the text is passed over. */
  lemma ParseIgnores(a: string, c: char, b: string)
    requires c != '.' && !('0' <= c <= '9')
    ensures ParseIp(a + [c] + b) == ParseIp(a + b)
  {
    FeedSplit(Acc(0, 0, 0), a + [c], b);
    FeedSplit(Acc(0, 0, 0), a, [c]);
    FeedSplit(Acc(0, 0, 0), a, b);
    FeedOne(FeedAll(Acc(0, 0, 0), a), c);
  }

  /** A text without a dot is the number itself; from 2^31 on, where the C++ is undefined, cut to
      32 bits. */
  lemma ParseNumber(n: nat)
    ensures ParseIp(Digits(n)) == n % 0x1_0000_0000
  {
    FeedDigits(Acc(0, 0, 0), n);
    assert Pow2(0) == 1;
    OrZero(n % WORD32);
  }
}
