/** Capture files: the reader over a byte stream, the records it returns, and
    what becomes of the file that the engine writes back. */
module Pcap {
  import opened Types
  import opened Bytes

  const MAGIC_NATIVE: uint32 := 0xa1b2c3d4
  const MAGIC_SWAPPED: uint32 := 0xd4c3b2a1
  const GLOBAL_HEADER_LEN: nat := 24
  const PACKET_HEADER_LEN: nat := 16
  const MAX_PACKET: nat := 65535

  /** `thiszone` is signed in the source; its bits are kept as they are. */
  datatype GlobalHeader = GlobalHeader(
    magic: uint32, versionMajor: uint16, versionMinor: uint16, thiszone: uint32, sigfigs: uint32,
    snaplen: uint32, network: uint32)

  datatype PacketHeader = PacketHeader(tsSec: uint32, tsUsec: uint32, inclLen: uint32, origLen: uint32)

  datatype RawPacket = RawPacket(header: PacketHeader, data: seq<byte>)

  function Swap16(n: uint16): uint16 {
    n / 0x100 + (n % 0x100) * 0x100
  }

  function Swap32(n: uint32): uint32 {
    n / 0x100_0000 + (n / 0x1_0000 % 0x100) * 0x100 + (n / 0x100 % 0x100) * 0x1_0000 + (n % 0x100) * 0x100_0000
  }

  function MaybeSwap16(n: uint16, swap: bool): uint16 {
    if swap then Swap16(n) else n
  }

  function MaybeSwap32(n: uint32, swap: bool): uint32 {
    if swap then Swap32(n) else n
  }

  // ---------------------------------------------------------------- reader

  /** The struct as it lies in memory. */
  function RawGlobalHeader(b: seq<byte>): GlobalHeader
    requires |b| >= GLOBAL_HEADER_LEN
  {
    GlobalHeader(ReadL32(b, 0), ReadL16(b, 4), ReadL16(b, 6), ReadL32(b, 8), ReadL32(b, 12), ReadL32(b, 16),
        ReadL32(b, 20))
  }

  /** The header logic of `PcapReader::open`: swapped files have four fields
      swapped; the magic number itself and two more are left as they were. */
  function OpenHeader(b: seq<byte>): Option<(GlobalHeader, bool)> {
    if |b| < GLOBAL_HEADER_LEN then None
    else
      var h := RawGlobalHeader(b);
      if h.magic == MAGIC_NATIVE then Some((h, false))
      else if h.magic == MAGIC_SWAPPED then
        Some((h.(versionMajor := Swap16(h.versionMajor), versionMinor := Swap16(h.versionMinor),
                 snaplen := Swap32(h.snaplen), network := Swap32(h.network)), true))
      else None
  }

  function HeaderAt(b: seq<byte>, pos: nat, swap: bool): PacketHeader
    requires pos + PACKET_HEADER_LEN <= |b|
  {
    PacketHeader(MaybeSwap32(ReadL32(b, pos), swap), MaybeSwap32(ReadL32(b, pos + 4), swap),
                 MaybeSwap32(ReadL32(b, pos + 8), swap), MaybeSwap32(ReadL32(b, pos + 12), swap))
  }

  lemma HeaderOfSlice(b: seq<byte>, pos: nat, raw: seq<byte>, swap: bool)
    requires pos + PACKET_HEADER_LEN <= |b| && raw == b[pos..pos + PACKET_HEADER_LEN]
    ensures HeaderAt(raw, 0, swap) == HeaderAt(b, pos, swap)
  {
    ReadOfSlice(b, pos, raw, 0);
    ReadOfSlice(b, pos, raw, 4);
    ReadOfSlice(b, pos, raw, 8);
    ReadOfSlice(b, pos, raw, 12);
  }

  lemma ReadOfSlice(b: seq<byte>, pos: nat, raw: seq<byte>, i: nat)
    requires pos + PACKET_HEADER_LEN <= |b| && raw == b[pos..pos + PACKET_HEADER_LEN] && i + 4 <= PACKET_HEADER_LEN
    ensures ReadL32(raw, i) == ReadL32(b, pos + i)
  {
  }

  /** `readNextPacket` at a position: the packet and the position after it. */
  function NextPacket(b: seq<byte>, pos: nat, snaplen: uint32, swap: bool): (r: Option<(RawPacket, nat)>)
    ensures r.Some? ==> pos + PACKET_HEADER_LEN <= r.value.1 <= |b|
  {
    if pos + PACKET_HEADER_LEN > |b| then None
    else
      var h := HeaderAt(b, pos, swap);
      var data := pos + PACKET_HEADER_LEN;
      if h.inclLen > snaplen || h.inclLen > MAX_PACKET || data + h.inclLen > |b| then None
      else Some((RawPacket(h, b[data..data + h.inclLen]), data + h.inclLen))
  }

  /** The packets that the reader loop sees from a position on. */
  function PacketsFrom(b: seq<byte>, pos: nat, snaplen: uint32, swap: bool): seq<RawPacket>
    decreases |b| - pos
  {
    match NextPacket(b, pos, snaplen, swap)
    case None => []
    case Some((packet, next)) => [packet] + PacketsFrom(b, next, snaplen, swap)
  }

  /** `PcapReader` over a byte stream with a cursor and a good bit. */
  class PcapReader {
    var isOpen: bool
    var stream: seq<byte>
    var pos: nat
    var good: bool
    var header: GlobalHeader
    var needsByteSwap: bool

    constructor ()
      ensures !isOpen && !needsByteSwap
    {
      isOpen, good, needsByteSwap := false, false, false;
      stream, pos := [], 0;
      header := GlobalHeader(0, 0, 0, 0, 0, 0, 0);
    }

    ghost predicate Valid()
      reads this
    {
      pos <= |stream|
    }

    /** What is still to be read. */
    ghost function Remaining(): seq<RawPacket>
      reads this
    {
      if isOpen && good then PacketsFrom(stream, pos, header.snaplen, needsByteSwap) else []
    }

    method Close()
      modifies this
      ensures !isOpen && !needsByteSwap && header == old(header)
    {
      isOpen := false;
      needsByteSwap := false;
    }

    /** `file` is None when the file cannot be opened. */
    method Open(file: Option<seq<byte>>) returns (ok: bool)
      modifies this
      ensures ok <==> file.Some? && OpenHeader(file.value).Some?
      ensures ok == isOpen
      ensures ok ==> Valid() && good && stream == file.value && pos == GLOBAL_HEADER_LEN
      ensures ok ==> OpenHeader(file.value) == Some((header, needsByteSwap))
      ensures !ok ==> !needsByteSwap
    {
      Close();
      if file.None? { return false; }
      stream, pos, good, isOpen := file.value, 0, true, true;
      if |stream| < GLOBAL_HEADER_LEN {
        Close();
        return false;
      }
      header := RawGlobalHeader(stream);
      pos := GLOBAL_HEADER_LEN;
      if header.magic == MAGIC_NATIVE {
        needsByteSwap := false;
      } else if header.magic == MAGIC_SWAPPED {
        needsByteSwap := true;
        header := header.(versionMajor := MaybeSwap16(header.versionMajor, needsByteSwap));
        header := header.(versionMinor := MaybeSwap16(header.versionMinor, needsByteSwap));
        header := header.(snaplen := MaybeSwap32(header.snaplen, needsByteSwap));
        header := header.(network := MaybeSwap32(header.network, needsByteSwap));
      } else {
        Close();
        return false;
      }
      return true;
    }

    /** Reads `n` bytes; a short read takes what is there and clears the good bit. */
    method Read(n: nat) returns (bytes: seq<byte>)
      requires Valid()
      modifies this`pos, this`good
      ensures Valid()
      ensures good == (old(good) && old(pos) + n <= |stream|)
      ensures good ==> pos == old(pos) + n && bytes == stream[old(pos)..pos]
    {
      if !good { return []; }
      if pos + n <= |stream| {
        bytes := stream[pos..pos + n];
        pos := pos + n;
      } else {
        bytes := stream[pos..];
        pos := |stream|;
        good := false;
      }
    }

    method ReadNextPacket() returns (ok: bool, packet: RawPacket)
      requires Valid()
      modifies this`pos, this`good
      ensures Valid()
      ensures ok <==> old(isOpen && good) && NextPacket(stream, old(pos), header.snaplen, needsByteSwap).Some?
      ensures ok ==> good && NextPacket(stream, old(pos), header.snaplen, needsByteSwap) == Some((packet, pos))
      ensures ok ==> old(Remaining()) == [packet] + Remaining()
      ensures !ok ==> old(Remaining()) == []
    {
      packet := RawPacket(PacketHeader(0, 0, 0, 0), []);
      if !isOpen { return false, packet; }
      ghost var start := pos;
      var raw := Read(PACKET_HEADER_LEN);
      if !good { return false, packet; }
      var h := HeaderAt(raw, 0, needsByteSwap);
      HeaderOfSlice(stream, start, raw, needsByteSwap);
      packet := packet.(header := h);
      if h.inclLen > header.snaplen || h.inclLen > MAX_PACKET {
        return false, packet;
      }
      var data := Read(h.inclLen);
      if !good { return false, packet; }
      packet := packet.(data := data);
      return true, packet;
    }

    /** The reader thread's loop over the file. */
    method ReadAll() returns (packets: seq<RawPacket>)
      requires Valid()
      modifies this`pos, this`good
      ensures packets == old(Remaining())
    {
      ghost var all := Remaining();
      packets := [];
      while true
        invariant Valid()
        invariant all == packets + Remaining()
        decreases |stream| - pos
      {
        ghost var rest := Remaining();
        var ok, packet := ReadNextPacket();
        if !ok { break; }
        Regroup(packets, packet, Remaining(), rest);
        packets := packets + [packet];
      }
    }
  }

  lemma Regroup(front: seq<RawPacket>, packet: RawPacket, back: seq<RawPacket>, rest: seq<RawPacket>)
    requires rest == [packet] + back
    ensures front + rest == front + [packet] + back
  {
  }

  // ---------------------------------------------------------------- format

  predicate LegalPacket(r: RawPacket, snaplen: uint32) {
    r.header.inclLen == |r.data| && |r.data| <= snaplen && |r.data| <= 65535
  }

  predicate LegalPackets(rs: seq<RawPacket>, snaplen: uint32) {
    forall r :: r in rs ==> LegalPacket(r, snaplen)
  }

  /** A 32-bit field as the file holds it: least significant byte first in a
      native file, most significant first in a swapped one. */
  function Field(n: uint32, swap: bool): (b: seq<byte>)
    ensures |b| == 4
  {
    if swap then U32(n) else L32(n)
  }

  function EncodeHeader(h: PacketHeader, swap: bool): (b: seq<byte>)
    ensures |b| == PACKET_HEADER_LEN
  {
    Field(h.tsSec, swap) + Field(h.tsUsec, swap) + Field(h.inclLen, swap) + Field(h.origLen, swap)
  }

  function EncodePacket(r: RawPacket, swap: bool): (b: seq<byte>)
    ensures |b| == PACKET_HEADER_LEN + |r.data|
  {
    EncodeHeader(r.header, swap) + r.data
  }

  function EncodePackets(rs: seq<RawPacket>, swap: bool): seq<byte> {
    if rs == [] then [] else EncodePacket(rs[0], swap) + EncodePackets(rs[1..], swap)
  }

  lemma FieldIff(b: seq<byte>, i: nat, n: uint32, swap: bool)
    ensures At(b, i, Field(n, swap)) <==> i + 4 <= |b| && MaybeSwap32(ReadL32(b, i), swap) == n
  {
    if swap {
      AtU32(b, i, n);
      if i + 4 <= |b| {
        SwapReads(b, i);
      }
    } else {
      AtL32(b, i, n);
    }
  }

  lemma SwapReads(b: seq<byte>, i: nat)
    requires i + 4 <= |b|
    ensures Swap32(ReadL32(b, i)) == ReadU32(b, i)
  {
    Digits32(b[i], b[i + 1], b[i + 2], b[i + 3], ReadL32(b, i));
  }

  /** Swapping twice is the identity. */
  lemma SwapTwice(n: uint32)
    ensures Swap32(Swap32(n)) == n
  {
    var a, b, c, d := n % 0x100, n / 0x100 % 0x100, n / 0x1_0000 % 0x100, n / 0x100_0000;
    Digits32(a, b, c, d, n);
    Digits32(d, c, b, a, Swap32(n));
  }

  lemma HeaderIff(b: seq<byte>, pos: nat, h: PacketHeader, swap: bool)
    ensures At(b, pos, EncodeHeader(h, swap)) <==> pos + PACKET_HEADER_LEN <= |b| && HeaderAt(b, pos, swap) == h
  {
    var x := Field(h.tsSec, swap);
    var y := x + Field(h.tsUsec, swap);
    var z := y + Field(h.inclLen, swap);
    AtJoin(b, pos, x, Field(h.tsUsec, swap));
    AtJoin(b, pos, y, Field(h.inclLen, swap));
    AtJoin(b, pos, z, Field(h.origLen, swap));
    FieldIff(b, pos, h.tsSec, swap);
    FieldIff(b, pos + 4, h.tsUsec, swap);
    FieldIff(b, pos + 8, h.inclLen, swap);
    FieldIff(b, pos + 12, h.origLen, swap);
  }

  /** The reader finds a packet exactly where a complete legal record stands. */
  lemma NextPacketIff(b: seq<byte>, pos: nat, snaplen: uint32, swap: bool, r: RawPacket)
    ensures LegalPacket(r, snaplen) && At(b, pos, EncodePacket(r, swap)) <==>
      NextPacket(b, pos, snaplen, swap) == Some((r, pos + PACKET_HEADER_LEN + |r.data|))
  {
    AtJoin(b, pos, EncodeHeader(r.header, swap), r.data);
    HeaderIff(b, pos, r.header, swap);
  }

  ghost predicate NoPacketAt(b: seq<byte>, pos: nat, snaplen: uint32, swap: bool) {
    forall r: RawPacket :: LegalPacket(r, snaplen) ==> !At(b, pos, EncodePacket(r, swap))
  }

  lemma NoPacketIff(b: seq<byte>, pos: nat, snaplen: uint32, swap: bool)
    ensures NoPacketAt(b, pos, snaplen, swap) <==> NextPacket(b, pos, snaplen, swap) == None
  {
    match NextPacket(b, pos, snaplen, swap)
    case None =>
      forall r: RawPacket | LegalPacket(r, snaplen)
        ensures !At(b, pos, EncodePacket(r, swap))
      {
        NextPacketIff(b, pos, snaplen, swap, r);
      }
    case Some((r, next)) =>
      NextPacketIff(b, pos, snaplen, swap, r);
  }

  /** The records fill the stream from a position on, up to a place where no
      complete legal record stands. */
  ghost predicate FillsFrom(b: seq<byte>, pos: nat, rs: seq<RawPacket>, snaplen: uint32, swap: bool) {
    LegalPackets(rs, snaplen) && EndsWith(b, pos, EncodePackets(rs, swap), snaplen, swap)
  }

  /** The bytes stand there and no packet stands behind them. */
  ghost predicate EndsWith(b: seq<byte>, pos: nat, bytes: seq<byte>, snaplen: uint32, swap: bool) {
    At(b, pos, bytes) && NoPacketAt(b, pos + |bytes|, snaplen, swap)
  }

  lemma EndsJoin(b: seq<byte>, pos: nat, whole: seq<byte>, first: seq<byte>, others: seq<byte>, next: nat,
          snaplen: uint32, swap: bool)
    requires whole == first + others && next == pos + |first|
    ensures EndsWith(b, pos, whole, snaplen, swap) <==> At(b, pos, first) && EndsWith(b, next, others, snaplen, swap)
  {
    AtJoin(b, pos, first, others);
    assert pos + |whole| == next + |others|;
  }

  lemma EncodeFirst(rs: seq<RawPacket>, swap: bool)
    requires rs != []
    ensures EncodePackets(rs, swap) == EncodePacket(rs[0], swap) + EncodePackets(rs[1..], swap)
  {
  }

  lemma LegalFirst(rs: seq<RawPacket>, snaplen: uint32)
    requires rs != []
    ensures LegalPackets(rs, snaplen) <==> LegalPacket(rs[0], snaplen) && LegalPackets(rs[1..], snaplen)
  {
    assert rs == [rs[0]] + rs[1..];
  }

  lemma NothingRead(b: seq<byte>, pos: nat, snaplen: uint32, swap: bool)
    ensures PacketsFrom(b, pos, snaplen, swap) == [] <==> NextPacket(b, pos, snaplen, swap) == None
  {
  }

  lemma LongestStep(b: seq<byte>, pos: nat, rs: seq<RawPacket>, snaplen: uint32, swap: bool)
    requires rs != []
    requires var next := pos + PACKET_HEADER_LEN + |rs[0].data|;
      NextPacket(b, pos, snaplen, swap) == Some((rs[0], next)) ==>
        (PacketsFrom(b, next, snaplen, swap) == rs[1..] <==> FillsFrom(b, next, rs[1..], snaplen, swap))
    ensures PacketsFrom(b, pos, snaplen, swap) == rs <==> FillsFrom(b, pos, rs, snaplen, swap)
  {
    FillsMore(b, pos, rs, snaplen, swap);
    PacketsMore(b, pos, rs, snaplen, swap);
  }

  lemma FillsParts(b: seq<byte>, pos: nat, r: RawPacket, whole: seq<byte>, others: seq<byte>, snaplen: uint32,
          swap: bool)
    requires whole == EncodePacket(r, swap) + others
    ensures LegalPacket(r, snaplen) && EndsWith(b, pos, whole, snaplen, swap) <==>
      var next := pos + PACKET_HEADER_LEN + |r.data|;
      NextPacket(b, pos, snaplen, swap) == Some((r, next)) && EndsWith(b, next, others, snaplen, swap)
  {
    EndsJoin(b, pos, whole, EncodePacket(r, swap), others, pos + PACKET_HEADER_LEN + |r.data|, snaplen, swap);
    NextPacketIff(b, pos, snaplen, swap, r);
  }

  lemma FillsMore(b: seq<byte>, pos: nat, rs: seq<RawPacket>, snaplen: uint32, swap: bool)
    requires rs != []
    ensures FillsFrom(b, pos, rs, snaplen, swap) <==>
      var next := pos + PACKET_HEADER_LEN + |rs[0].data|;
      NextPacket(b, pos, snaplen, swap) == Some((rs[0], next)) && FillsFrom(b, next, rs[1..], snaplen, swap)
  {
    var whole, others := EncodePackets(rs, swap), EncodePackets(rs[1..], swap);
    EncodeFirst(rs, swap);
    FillsParts(b, pos, rs[0], whole, others, snaplen, swap);
    LegalFirst(rs, snaplen);
  }

  lemma PacketsMore(b: seq<byte>, pos: nat, rs: seq<RawPacket>, snaplen: uint32, swap: bool)
    requires rs != []
    ensures PacketsFrom(b, pos, snaplen, swap) == rs <==>
      var next := pos + PACKET_HEADER_LEN + |rs[0].data|;
      NextPacket(b, pos, snaplen, swap) == Some((rs[0], next)) && PacketsFrom(b, next, snaplen, swap) == rs[1..]
  {
    assert rs == [rs[0]] + rs[1..];
    PacketsStep(b, pos, rs[0], rs[1..], snaplen, swap);
  }

  lemma FillsNothing(b: seq<byte>, pos: nat, snaplen: uint32, swap: bool)
    requires pos <= |b|
    ensures FillsFrom(b, pos, [], snaplen, swap) <==> NextPacket(b, pos, snaplen, swap) == None
  {
    NoPacketIff(b, pos, snaplen, swap);
    assert At(b, pos, []);
  }

  /** On any stream the reader returns exactly the longest run of complete legal
      records: no record is lost, invented or reordered. */
  lemma {:induction false} PacketsAreLongestRun(b: seq<byte>, pos: nat, rs: seq<RawPacket>, snaplen: uint32, swap: bool)
    requires pos <= |b|
    ensures PacketsFrom(b, pos, snaplen, swap) == rs <==> FillsFrom(b, pos, rs, snaplen, swap)
    decreases |rs|
  {
    if rs == [] {
      FillsNothing(b, pos, snaplen, swap);
      NothingRead(b, pos, snaplen, swap);
    } else {
      var next := pos + PACKET_HEADER_LEN + |rs[0].data|;
      if NextPacket(b, pos, snaplen, swap) == Some((rs[0], next)) {
        PacketsAreLongestRun(b, next, rs[1..], snaplen, swap);
      }
      LongestStep(b, pos, rs, snaplen, swap);
    }
  }

  lemma PacketsStep(b: seq<byte>, pos: nat, r: RawPacket, rest: seq<RawPacket>, snaplen: uint32, swap: bool)
    ensures PacketsFrom(b, pos, snaplen, swap) == [r] + rest <==>
      var next := pos + PACKET_HEADER_LEN + |r.data|;
      NextPacket(b, pos, snaplen, swap) == Some((r, next)) && PacketsFrom(b, next, snaplen, swap) == rest
  {
    FirstPacket(b, pos, snaplen, swap, r);
    var packets := PacketsFrom(b, pos, snaplen, swap);
    if packets == [r] + rest {
      assert packets[0] == r && packets[1..] == rest;
    }
  }

  lemma FirstPacket(b: seq<byte>, pos: nat, snaplen: uint32, swap: bool, r: RawPacket)
    ensures PacketsFrom(b, pos, snaplen, swap) != [] && PacketsFrom(b, pos, snaplen, swap)[0] == r ==>
      && NextPacket(b, pos, snaplen, swap) == Some((r, pos + PACKET_HEADER_LEN + |r.data|))
      && PacketsFrom(b, pos, snaplen, swap)[1..] == PacketsFrom(b, pos + PACKET_HEADER_LEN + |r.data|, snaplen, swap)
  {
  }

  // ---------------------------------------------------------------- writer

  /** `writeOutputHeader`: the struct in memory, byte for byte. */
  function HeaderBytes(h: GlobalHeader): (b: seq<byte>)
    ensures |b| == GLOBAL_HEADER_LEN
  {
    L32(h.magic) + L16(h.versionMajor) + L16(h.versionMinor) + L32(h.thiszone) + L32(h.sigfigs) + L32(h.snaplen) +
        L32(h.network)
  }

  /** What `writeOutputPacket` keeps of a job. */
  datatype Written = Written(tsSec: uint32, tsUsec: uint32, data: seq<byte>)

  /** Both length fields are set to the captured length, cut to 32 bits. */
  function Record(w: Written): RawPacket {
    var n: uint32 := |w.data| % 0x1_0000_0000;
    RawPacket(PacketHeader(w.tsSec, w.tsUsec, n, n), w.data)
  }

  function Records(ws: seq<Written>): seq<RawPacket> {
    if ws == [] then [] else [Record(ws[0])] + Records(ws[1..])
  }

  /** Each record keeps the time and the bytes of its packet, and has its length twice. */
  lemma {:induction false} RecordsKeep(ws: seq<Written>)
    ensures |Records(ws)| == |ws|
    ensures forall k :: 0 <= k < |ws| ==> var r, n := Records(ws)[k], |ws[k].data|;
      && r.data == ws[k].data && r.header.tsSec == ws[k].tsSec && r.header.tsUsec == ws[k].tsUsec
      && (n < 0x1_0000_0000 ==> r.header.inclLen == n && r.header.origLen == n)
  {
    if ws == [] {
    } else {
      RecordsKeep(ws[1..]);
    }
  }

  /** The output file after a header and some packets. */
  function OutputFile(h: GlobalHeader, ws: seq<Written>): seq<byte> {
    HeaderBytes(h) + EncodePackets(Records(ws), false)
  }

  /** Packets that the reader can have delivered under this header. */
  predicate FromReader(ws: seq<Written>, snaplen: uint32) {
    forall w :: w in ws ==> 1 <= |w.data| <= 65535 && |w.data| <= snaplen
  }

  lemma HeaderReadBack(h: GlobalHeader, b: seq<byte>)
    requires |b| >= GLOBAL_HEADER_LEN && b[..GLOBAL_HEADER_LEN] == HeaderBytes(h)
    ensures RawGlobalHeader(b) == h
  {
    var x := HeaderBytes(h);
    assert forall i :: 0 <= i < 24 ==> b[i] == x[i];
    assert At(x, 0, L32(h.magic)) && At(x, 4, L16(h.versionMajor)) && At(x, 6, L16(h.versionMinor)) &&
        At(x, 8, L32(h.thiszone))
        && At(x, 12, L32(h.sigfigs)) && At(x, 16, L32(h.snaplen)) && At(x, 20, L32(h.network));
    AtL32(x, 0, h.magic);
    AtL16(x, 4, h.versionMajor);
    AtL16(x, 6, h.versionMinor);
    AtL32(x, 8, h.thiszone);
    AtL32(x, 12, h.sigfigs);
    AtL32(x, 16, h.snaplen);
    AtL32(x, 20, h.network);
  }

  lemma {:induction false} RecordsAreLegal(ws: seq<Written>, snaplen: uint32)
    requires FromReader(ws, snaplen)
    ensures LegalPackets(Records(ws), snaplen) && |Records(ws)| == |ws|
  {
    if ws == [] {
    } else {
      assert ws[0] in ws;
      RecordsAreLegal(ws[1..], snaplen);
    }
  }

  /** Reading legal records back from behind any 24 bytes, to the end. */
  lemma ReadBack(front: seq<byte>, rs: seq<RawPacket>, snaplen: uint32, swap: bool)
    requires |front| == GLOBAL_HEADER_LEN && LegalPackets(rs, snaplen)
    ensures PacketsFrom(front + EncodePackets(rs, swap), GLOBAL_HEADER_LEN, snaplen, swap) == rs
  {
    var b := front + EncodePackets(rs, swap);
    assert At(b, GLOBAL_HEADER_LEN, EncodePackets(rs, swap));
    NoPacketIff(b, |b|, snaplen, swap);
    PacketsAreLongestRun(b, GLOBAL_HEADER_LEN, rs, snaplen, swap);
  }

  /** A file written under a native header reads back packet for packet. */
  lemma NativeRoundTrip(h: GlobalHeader, ws: seq<Written>)
    requires h.magic == MAGIC_NATIVE && FromReader(ws, h.snaplen)
    ensures OpenHeader(OutputFile(h, ws)) == Some((h, false))
    ensures PacketsFrom(OutputFile(h, ws), GLOBAL_HEADER_LEN, h.snaplen, false) == Records(ws)
  {
    HeaderReadBack(h, OutputFile(h, ws));
    RecordsAreLegal(ws, h.snaplen);
    ReadBack(HeaderBytes(h), Records(ws), h.snaplen, false);
  }

  lemma SwappedLengthTooBig(n: uint32)
    requires 1 <= n <= MAX_PACKET
    ensures Swap32(n) > MAX_PACKET
  {
  }

  /** Under a swapped header the first written packet already looks too long. */
  lemma FirstRecordAt(h: GlobalHeader, ws: seq<Written>)
    requires ws != []
    ensures var b, header := OutputFile(h, ws), Record(ws[0]).header;
      GLOBAL_HEADER_LEN + PACKET_HEADER_LEN <= |b| && HeaderAt(b, GLOBAL_HEADER_LEN, false) == header
  {
    var b := OutputFile(h, ws);
    var r := Record(ws[0]);
    AtJoin(b, 24, EncodePacket(r, false), EncodePackets(Records(ws)[1..], false));
    assert At(b, 24, EncodePackets(Records(ws), false));
    AtJoin(b, 24, EncodeHeader(r.header, false), r.data);
    HeaderIff(b, 24, r.header, false);
  }

  lemma SwappedReadsNothing(h: GlobalHeader, ws: seq<Written>, snaplen: uint32)
    requires ws != [] && FromReader(ws, h.snaplen)
    ensures PacketsFrom(OutputFile(h, ws), GLOBAL_HEADER_LEN, snaplen, true) == []
  {
    assert ws[0] in ws;
    FirstRecordAt(h, ws);
    SwappedLengthTooBig(Record(ws[0]).header.inclLen);
  }

  /** The file the engine writes for an input it has opened: reading it again
      gives the written packets exactly when the input was in native byte order,
      or nothing was written. A swapped input leaves its swapped magic number in
      the output while everything behind it is written in native order. */
  lemma OutputReadableIff(input: seq<byte>, ws: seq<Written>)
    requires OpenHeader(input).Some? && FromReader(ws, OpenHeader(input).value.0.snaplen)
    ensures OpenHeader(OutputFile(OpenHeader(input).value.0, ws)).Some?
    ensures var output := OutputFile(OpenHeader(input).value.0, ws);
      var (h, swap) := OpenHeader(output).value;
      PacketsFrom(output, GLOBAL_HEADER_LEN, h.snaplen, swap) == Records(ws) <==>
        RawGlobalHeader(input).magic == MAGIC_NATIVE || ws == []
  {
    var h := OpenHeader(input).value.0;
    var output := OutputFile(h, ws);
    HeaderReadBack(h, output);
    if h.magic == MAGIC_NATIVE {
      NativeRoundTrip(h, ws);
    } else {
      var again := OpenHeader(output).value.0;
      if ws == [] {
        ReadBack(HeaderBytes(h), [], again.snaplen, true);
      } else {
        SwappedReadsNothing(h, ws, again.snaplen);
      }
    }
  }

  // ---------------------------------------------------------------- byte orders

  /** The header of a capture that was written on a host of the other byte order: the same
      fields, most significant byte first. */
  function BigEndianHeader(h: GlobalHeader): (b: seq<byte>)
    ensures |b| == 24
  {
    U32(h.magic) + U16(h.versionMajor) + U16(h.versionMinor) + U32(h.thiszone) + U32(h.sigfigs) + U32(h.snaplen) +
        U32(h.network)
  }

  /** The number that four bytes are when they are read the other way round. */
  predicate Mirrored(n: uint32, m: uint32) {
    L32(n) == U32(m)
  }

  lemma MirroredIff(n: uint32, m: uint32)
    ensures Mirrored(n, m) <==> n == Swap32(m)
    ensures Mirrored(n, m) <==> m == Swap32(n)
  {
    SwapBytes(m);
    SwapBytes(n);
    SwapTwice(n);
    SwapTwice(m);
  }

  lemma SwapBytes(n: uint32)
    ensures L32(Swap32(n)) == U32(n)
  {
    var a, b, c, d := n % 0x100, n / 0x100 % 0x100, n / 0x1_0000 % 0x100, n / 0x100_0000;
    Digits32(d, c, b, a, Swap32(n));
  }

  /** The bytes at a header's offsets are its fields, most significant byte first. */
  lemma BigEndianIff(h: GlobalHeader, b: seq<byte>)
    ensures BigEndianHeader(h) <= b <==>
      && |b| >= 24 && ReadU32(b, 0) == h.magic && ReadU16(b, 4) == h.versionMajor && ReadU16(b, 6) == h.versionMinor
      && ReadU32(b, 8) == h.thiszone && ReadU32(b, 12) == h.sigfigs && ReadU32(b, 16) == h.snaplen
      && ReadU32(b, 20) == h.network
  {
    var b1 := U32(h.magic);
    var b2 := b1 + U16(h.versionMajor);
    var b3 := b2 + U16(h.versionMinor);
    var b4 := b3 + U32(h.thiszone);
    var b5 := b4 + U32(h.sigfigs);
    var b6 := b5 + U32(h.snaplen);
    AtJoin(b, 0, b1, U16(h.versionMajor));
    AtJoin(b, 0, b2, U16(h.versionMinor));
    AtJoin(b, 0, b3, U32(h.thiszone));
    AtJoin(b, 0, b4, U32(h.sigfigs));
    AtJoin(b, 0, b5, U32(h.snaplen));
    AtJoin(b, 0, b6, U32(h.network));
    AtU32(b, 0, h.magic);
    AtU16(b, 4, h.versionMajor);
    AtU16(b, 6, h.versionMinor);
    AtU32(b, 8, h.thiszone);
    AtU32(b, 12, h.sigfigs);
    AtU32(b, 16, h.snaplen);
    AtU32(b, 20, h.network);
    PrefixIsAt(BigEndianHeader(h), b);
  }

  lemma PrefixIsAt(a: seq<byte>, b: seq<byte>)
    ensures a <= b <==> At(b, 0, a)
  {
  }

  lemma NativeIff(h: GlobalHeader, b: seq<byte>)
    ensures HeaderBytes(h) <= b <==> |b| >= 24 && RawGlobalHeader(b) == h
  {
    if HeaderBytes(h) <= b {
      HeaderReadBack(h, b);
    }
    if |b| >= 24 && RawGlobalHeader(b) == h {
      RawIsThere(b);
    }
  }

  lemma RawIsThere(b: seq<byte>)
    requires |b| >= 24
    ensures HeaderBytes(RawGlobalHeader(b)) == b[..24]
  {
    LittleAt(b, 0);
    LittleAt(b, 8);
    LittleAt(b, 12);
    LittleAt(b, 16);
    LittleAt(b, 20);
    assert L16(ReadL16(b, 4)) == [b[4], b[5]] && L16(ReadL16(b, 6)) == [b[6], b[7]];
  }

  lemma LittleAt(b: seq<byte>, i: nat)
    requires i + 4 <= |b|
    ensures L32(ReadL32(b, i)) == [b[i], b[i + 1], b[i + 2], b[i + 3]]
  {
    Digits32(b[i], b[i + 1], b[i + 2], b[i + 3], ReadL32(b, i));
  }

  lemma ReadsMirror(b: seq<byte>, i: nat)
    requires i + 4 <= |b|
    ensures Mirrored(ReadL32(b, i), ReadU32(b, i))
  {
    LittleAt(b, i);
    AtU32(b, i, ReadU32(b, i));
    assert b[i..i + 4] == [b[i], b[i + 1], b[i + 2], b[i + 3]];
  }

  /** What has become of a header that was read from a file of the other byte order: versions,
      snaplen and link type as they were meant, and the magic number, time zone and accuracy as
      they lie in the file. */
  predicate OpenedAs(h: GlobalHeader, got: GlobalHeader) {
    && got.versionMajor == h.versionMajor && got.versionMinor == h.versionMinor
    && got.snaplen == h.snaplen && got.network == h.network
    && got.magic == 0xd4c3b2a1 && Mirrored(got.thiszone, h.thiszone) && Mirrored(got.sigfigs, h.sigfigs)
  }

  lemma MagicBytes()
    ensures U32(0xa1b2c3d4) == [0xa1, 0xb2, 0xc3, 0xd4] == L32(0xd4c3b2a1)
    ensures L32(0xa1b2c3d4) == [0xd4, 0xc3, 0xb2, 0xa1]
  {
  }

  /** Files that start with 0xa1b2c3d4, least significant byte first, are opened with just the
      header they hold. */
  lemma OpensNativeIff(b: seq<byte>, h: GlobalHeader)
    ensures OpenHeader(b) == Some((h, false)) <==> h.magic == 0xa1b2c3d4 && HeaderBytes(h) <= b
  {
    NativeIff(h, b);
  }

  lemma ShortMeant(b: seq<byte>, i: nat)
    requires i + 2 <= |b|
    ensures Swap16(ReadL16(b, i)) == ReadU16(b, i)
  {
  }

  /** A field that is left as it lies. */
  lemma LeftAsItLies(b: seq<byte>, i: nat, n: uint32, m: uint32)
    requires i + 4 <= |b| && Mirrored(n, m)
    ensures ReadL32(b, i) == n <==> ReadU32(b, i) == m
  {
    SwapReads(b, i);
    MirroredIff(n, m);
    SwapTwice(ReadL32(b, i));
  }

  /** What opening makes of a file's bytes. */
  lemma SwappedFields(b: seq<byte>, got: GlobalHeader)
    requires |b| >= 24
    ensures OpenHeader(b) == Some((got, true)) <==>
      && ReadL32(b, 0) == 0xd4c3b2a1 == got.magic
      && ReadU16(b, 4) == got.versionMajor && ReadU16(b, 6) == got.versionMinor
      && ReadL32(b, 8) == got.thiszone && ReadL32(b, 12) == got.sigfigs
      && ReadU32(b, 16) == got.snaplen && ReadU32(b, 20) == got.network
  {
    ShortMeant(b, 4);
    ShortMeant(b, 6);
    SwapReads(b, 16);
    SwapReads(b, 20);
  }

  /** Files that start with it most significant byte first: one is opened with a header if and
      only if the header that it holds in that byte order is opened as that one. */
  lemma OpensSwappedIff(b: seq<byte>, h: GlobalHeader, got: GlobalHeader)
    requires h.magic == 0xa1b2c3d4 && OpenedAs(h, got)
    ensures OpenHeader(b) == Some((got, true)) <==> BigEndianHeader(h) <= b
  {
    BigEndianIff(h, b);
    if |b| >= 24 {
      MagicBytes();
      SwappedFields(b, got);
      LeftAsItLies(b, 0, 0xd4c3b2a1, 0xa1b2c3d4);
      LeftAsItLies(b, 8, got.thiszone, h.thiszone);
      LeftAsItLies(b, 12, got.sigfigs, h.sigfigs);
    }
  }

  function MeantBy(got: GlobalHeader): GlobalHeader {
    got.(magic := 0xa1b2c3d4, thiszone := Swap32(got.thiszone), sigfigs := Swap32(got.sigfigs))
  }

  /** So every file is refused or opened in one of these two ways: it is refused if it is shorter
      than a header or starts with anything else. */
  lemma OpensIff(b: seq<byte>, got: GlobalHeader)
    ensures OpenHeader(b) == None <==>
      |b| < 24 || (b[..4] != [0xd4, 0xc3, 0xb2, 0xa1] && b[..4] != [0xa1, 0xb2, 0xc3, 0xd4])
    ensures OpenHeader(b) == Some((got, true)) <==>
      exists h: GlobalHeader :: h.magic == 0xa1b2c3d4 && OpenedAs(h, got) && BigEndianHeader(h) <= b
  {
    var h := MeantBy(got);
    MagicBytes();
    if |b| >= 24 {
      LittleAt(b, 0);
      assert b[..4] == L32(ReadL32(b, 0));
      AtL32(b, 0, 0xa1b2c3d4);
      AtL32(b, 0, 0xd4c3b2a1);
    }
    MirroredIff(got.thiszone, h.thiszone);
    MirroredIff(got.sigfigs, h.sigfigs);
    if OpenHeader(b) == Some((got, true)) {
      assert OpenedAs(h, got);
      OpensSwappedIff(b, h, got);
    }
    forall meant: GlobalHeader | meant.magic == 0xa1b2c3d4 && OpenedAs(meant, got) && BigEndianHeader(meant) <= b
      ensures OpenHeader(b) == Some((got, true))
    {
      OpensSwappedIff(b, meant, got);
    }
  }

  /** The records of such a capture, every field most significant byte first. */
  function BigEndianRecords(rs: seq<RawPacket>): seq<byte> {
    if rs == [] then []
    else
      var h := rs[0].header;
      U32(h.tsSec) + U32(h.tsUsec) + U32(h.inclLen) + U32(h.origLen) + rs[0].data + BigEndianRecords(rs[1..])
  }

  lemma {:induction false} RecordsAreSwapped(rs: seq<RawPacket>)
    ensures BigEndianRecords(rs) == EncodePackets(rs, true)
  {
    if rs == [] {
    } else {
      RecordsAreSwapped(rs[1..]);
    }
  }

  /** A capture of the other byte order is read back as it was written: records of at most
      min(snaplen, 65535) bytes behind its header, with all their fields, in order. */
  lemma SwappedRoundTrip(h: GlobalHeader, rs: seq<RawPacket>)
    requires h.magic == 0xa1b2c3d4
    requires LegalPackets(rs, h.snaplen)
    ensures var b := BigEndianHeader(h) + BigEndianRecords(rs);
      && OpenHeader(b).Some? && OpenHeader(b).value.1 && OpenedAs(h, OpenHeader(b).value.0)
      && PacketsFrom(b, 24, h.snaplen, true) == rs
  {
    var b := BigEndianHeader(h) + BigEndianRecords(rs);
    var got := h.(magic := 0xd4c3b2a1, thiszone := Swap32(h.thiszone), sigfigs := Swap32(h.sigfigs));
    MirroredIff(got.thiszone, h.thiszone);
    MirroredIff(got.sigfigs, h.sigfigs);
    OpensSwappedIff(b, h, got);
    RecordsAreSwapped(rs);
    ReadBack(BigEndianHeader(h), rs, h.snaplen, true);
  }

  // ---------------------------------------------------------------- generator

  const GENERATED_HEADER := GlobalHeader(MAGIC_NATIVE, 2, 4, 0, 0, 65535, 1)

  /** `PCAPWriter`: a file and a clock that ticks once a packet. The microseconds
      are a parameter. */
  class PcapWriter {
    var contents: seq<byte>
    var timestamp: nat
    ghost var written: seq<Written>

    ghost predicate Valid()
      reads this
    {
      contents == OutputFile(GENERATED_HEADER, written)
    }

    constructor ()
      ensures Valid() && written == [] && timestamp == 1700000000
    {
      contents := HeaderBytes(GENERATED_HEADER);
      timestamp := 1700000000;
      written := [];
    }

    /** Packing fails, and nothing is written, when the clock or the length
        does not fit 32 bits; the clock ticks all the same. */
    method WritePacket(data: seq<byte>, tsUsec: uint32) returns (ok: bool)
      requires Valid()
      modifies this
      ensures Valid()
      ensures ok <==> old(timestamp) < 0x1_0000_0000 && |data| < 0x1_0000_0000
      ensures written == if ok then old(written) + [Written(old(timestamp), tsUsec, data)] else old(written)
      ensures timestamp == old(timestamp) + 1
    {
      var tsSec := timestamp;
      timestamp := timestamp + 1;
      if tsSec >= 0x1_0000_0000 || |data| >= 0x1_0000_0000 { return false; }
      var packetHeader := L32(tsSec) + L32(tsUsec) + L32(|data|) + L32(|data|);
      contents := contents + packetHeader;
      contents := contents + data;
      OutputAppend(GENERATED_HEADER, written, Written(tsSec, tsUsec, data), packetHeader);
      written := written + [Written(tsSec, tsUsec, data)];
      return true;
    }
  }

  /** The 24 bytes in front of every generated file. */
  lemma GeneratedHeaderBytes()
    ensures HeaderBytes(GENERATED_HEADER) ==
      [0xd4, 0xc3, 0xb2, 0xa1, 2, 0, 4, 0] + [0, 0, 0, 0, 0, 0, 0, 0] + [0xff, 0xff, 0, 0, 1, 0, 0, 0]
  {
    assert L32(MAGIC_NATIVE) == [0xd4, 0xc3, 0xb2, 0xa1] && L32(65535) == [0xff, 0xff, 0, 0];
  }

  lemma {:induction false} RecordsAppend(ws: seq<Written>, w: Written)
    ensures Records(ws + [w]) == Records(ws) + [Record(w)]
  {
    if ws == [] {
      assert ws + [w] == [w];
    } else {
      assert (ws + [w])[1..] == ws[1..] + [w];
      RecordsAppend(ws[1..], w);
    }
  }

  lemma {:induction false} EncodeAppend(rs: seq<RawPacket>, r: RawPacket)
    ensures EncodePackets(rs + [r], false) == EncodePackets(rs, false) + EncodePacket(r, false)
  {
    if rs == [] {
      assert rs + [r] == [r];
    } else {
      assert (rs + [r])[1..] == rs[1..] + [r];
      EncodeAppend(rs[1..], r);
    }
  }

  lemma RecordBytes(w: Written)
    requires |w.data| < 0x1_0000_0000
    ensures EncodePacket(Record(w), false) == L32(w.tsSec) + L32(w.tsUsec) + L32(|w.data|) + L32(|w.data|) + w.data
  {
    var n: uint32 := |w.data|;
    assert Record(w).header == PacketHeader(w.tsSec, w.tsUsec, n, n);
    assert EncodeHeader(PacketHeader(w.tsSec, w.tsUsec, n, n), false) == L32(w.tsSec) + L32(w.tsUsec) + L32(n) + L32(n);
  }

  lemma OutputAppend(h: GlobalHeader, ws: seq<Written>, w: Written, packetHeader: seq<byte>)
    requires |w.data| < 0x1_0000_0000
    requires packetHeader == L32(w.tsSec) + L32(w.tsUsec) + L32(|w.data|) + L32(|w.data|)
    ensures OutputFile(h, ws + [w]) == OutputFile(h, ws) + packetHeader + w.data
  {
    RecordsAppend(ws, w);
    EncodeAppend(Records(ws), Record(w));
    RecordBytes(w);
  }

  /** What the generator writes, the reader gives back. */
  lemma GeneratedFileReadsBack(ws: seq<Written>)
    requires FromReader(ws, 65535)
    ensures OpenHeader(OutputFile(GENERATED_HEADER, ws)) == Some((GENERATED_HEADER, false))
    ensures PacketsFrom(OutputFile(GENERATED_HEADER, ws), GLOBAL_HEADER_LEN, 65535, false) == Records(ws)
  {
    NativeRoundTrip(GENERATED_HEADER, ws);
  }
}
