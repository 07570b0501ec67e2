/** Fixed-width integers in byte sequences, in both byte orders. */
module Bytes {
  import opened Types

  function U16(n: uint16): (b: seq<byte>)
    ensures |b| == 2
  {
    [n / 0x100, n % 0x100]
  }

  function U24(n: nat): (b: seq<byte>)
    requires n < 0x100_0000
    ensures |b| == 3
  {
    [n / 0x1_0000, n / 0x100 % 0x100, n % 0x100]
  }

  function U32(n: uint32): (b: seq<byte>)
    ensures |b| == 4
  {
    [n / 0x100_0000, n / 0x1_0000 % 0x100, n / 0x100 % 0x100, n % 0x100]
  }

  function ReadU16(p: seq<byte>, i: nat): uint16
    requires i + 2 <= |p|
  {
    (p[i] as int) * 0x100 + p[i + 1]
  }

  function ReadU24(p: seq<byte>, i: nat): (n: nat)
    requires i + 3 <= |p|
  {
    (p[i] as int) * 0x1_0000 + (p[i + 1] as int) * 0x100 + p[i + 2]
  }

  function ReadU32(p: seq<byte>, i: nat): uint32
    requires i + 4 <= |p|
  {
    (p[i] as int) * 0x100_0000 + (p[i + 1] as int) * 0x1_0000 + (p[i + 2] as int) * 0x100 + p[i + 3]
  }

  /** Little-endian layouts: what the host keeps in memory. */
  function L16(n: uint16): (b: seq<byte>)
    ensures |b| == 2
  {
    [n % 0x100, n / 0x100]
  }

  function L32(n: uint32): (b: seq<byte>)
    ensures |b| == 4
  {
    [n % 0x100, n / 0x100 % 0x100, n / 0x1_0000 % 0x100, n / 0x100_0000]
  }

  function ReadL16(p: seq<byte>, i: nat): uint16
    requires i + 2 <= |p|
  {
    (p[i] as int) + (p[i + 1] as int) * 0x100
  }

  function ReadL32(p: seq<byte>, i: nat): uint32
    requires i + 4 <= |p|
  {
    (p[i] as int) + (p[i + 1] as int) * 0x100 + (p[i + 2] as int) * 0x1_0000 + (p[i + 3] as int) * 0x100_0000
  }

  lemma SliceOfSlice(p: seq<byte>, a: nat, b: nat, c: nat, d: nat)
    requires a <= b <= |p| && c <= d <= b - a
    ensures p[a..b][c..d] == p[a + c..a + d]
  {
    var x, y := p[a..b][c..d], p[a + c..a + d];
    assert forall i :: 0 <= i < d - c ==> x[i] == p[a..b][c + i] == p[a + c + i] == y[i];
  }

  /** The bytes found at an offset. */
  predicate At(p: seq<byte>, i: nat, b: seq<byte>) {
    i + |b| <= |p| && p[i..i + |b|] == b
  }

  lemma AtJoin(p: seq<byte>, i: nat, a: seq<byte>, b: seq<byte>)
    ensures At(p, i, a + b) <==> At(p, i, a) && At(p, i + |a|, b)
  {
    if i + |a| + |b| <= |p| {
      var q := p[i..i + |a| + |b|];
      SliceOfSlice(p, i, i + |a| + |b|, 0, |a|);
      SliceOfSlice(p, i, i + |a| + |b|, |a|, |a| + |b|);
      assert q == q[..|a|] + q[|a|..];
      if q == a + b {
        assert q[..|a|] == a && q[|a|..] == b;
      }
    }
  }

  lemma AtByte(p: seq<byte>, i: nat, x: byte)
    ensures At(p, i, [x]) <==> i < |p| && p[i] == x
  {
    if i < |p| {
      assert p[i..i + 1] == [p[i]];
    }
  }

  lemma AtU16(p: seq<byte>, i: nat, n: uint16)
    ensures At(p, i, U16(n)) <==> i + 2 <= |p| && ReadU16(p, i) == n
  {
    if i + 2 <= |p| {
      assert p[i..i + 2] == [p[i], p[i + 1]];
    }
  }

  lemma AtU32(p: seq<byte>, i: nat, n: uint32)
    ensures At(p, i, U32(n)) <==> i + 4 <= |p| && ReadU32(p, i) == n
  {
    if i + 4 <= |p| {
      assert p[i..i + 4] == [p[i], p[i + 1], p[i + 2], p[i + 3]];
      Digits32(p[i + 3], p[i + 2], p[i + 1], p[i], n);
    }
  }

  lemma AtL32(p: seq<byte>, i: nat, n: uint32)
    ensures At(p, i, L32(n)) <==> i + 4 <= |p| && ReadL32(p, i) == n
  {
    if i + 4 <= |p| {
      assert p[i..i + 4] == [p[i], p[i + 1], p[i + 2], p[i + 3]];
      Digits32(p[i], p[i + 1], p[i + 2], p[i + 3], n);
    }
  }

  lemma AtL16(p: seq<byte>, i: nat, n: uint16)
    ensures At(p, i, L16(n)) <==> i + 2 <= |p| && ReadL16(p, i) == n
  {
    if i + 2 <= |p| {
      assert p[i..i + 2] == [p[i], p[i + 1]];
    }
  }

  /** A number is determined by its four base-256 digits. */
  lemma Digits32(a: int, b: int, c: int, d: int, n: int)
    requires 0 <= a < 0x100 && 0 <= b < 0x100 && 0 <= c < 0x100 && 0 <= d < 0x100
    ensures a + b * 0x100 + c * 0x1_0000 + d * 0x100_0000 == n <==>
      a == n % 0x100 && b == n / 0x100 % 0x100 && c == n / 0x1_0000 % 0x100 && d == n / 0x100_0000
  {
    Chunk(n, n / 0x100, n % 0x100);
    if a + b * 0x100 + c * 0x1_0000 + d * 0x100_0000 == n {
      var n1 := b + c * 0x100 + d * 0x1_0000;
      var n2 := c + d * 0x100;
      Chunk(n, n1, a);
      Chunk(n1, n2, b);
      Chunk(n2, d, c);
    }
  }

  lemma Chunk(n: int, high: int, low: int)
    requires n == high * 0x100 + low && 0 <= low < 0x100
    ensures n / 0x100 == high && n % 0x100 == low
    ensures n / 0x1_0000 == high / 0x100 && n / 0x100_0000 == high / 0x1_0000
  {
  }
}
