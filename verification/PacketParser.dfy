/** Ethernet, IPv4, TCP and UDP: the layered parser, the frames it accepts, and
    the packet job that the reader makes of an accepted frame. */
module PacketParser {
  import opened Types
  import opened Bytes
  import IpText

  const IPV4: uint16 := 0x0800
  const ETH_HEADER_LEN: nat := 14
  const MIN_IP_HEADER_LEN: nat := 20
  const MIN_TCP_HEADER_LEN: nat := 20
  const UDP_HEADER_LEN: nat := 8

  /** `ParsedPacket`. Addresses are kept as text, as the source does. */
  datatype Parsed = Parsed(
    etherType: uint16, hasIp: bool, ipVersion: byte, srcIp: string, destIp: string, protocol: byte, ttl: byte,
    hasTcp: bool, hasUdp: bool, srcPort: uint16, destPort: uint16, tcpFlags: byte,
    seqNumber: uint32, ackNumber: uint32, payload: seq<byte>)

  const EMPTY := Parsed(0, false, 0, "", "", 0, 0, false, false, 0, 0, 0, 0, 0, [])

  // ---------------------------------------------------------------- parser

  /** Each layer takes what is parsed so far and an offset, and moves both on. */
  function ParseEthernet(data: seq<byte>): Option<(Parsed, nat)> {
    if |data| < ETH_HEADER_LEN then None
    else Some((EMPTY.(etherType := ReadU16(data, 12)), ETH_HEADER_LEN))
  }

  function ParseIPv4(data: seq<byte>, parsed: Parsed, offset: nat): (r: Option<(Parsed, nat)>)
    ensures r.Some? ==> offset + MIN_IP_HEADER_LEN <= r.value.1 <= |data|
  {
    if |data| < offset + MIN_IP_HEADER_LEN then None
    else
      var version: byte := data[offset] / 16;
      var headerLen: nat := (data[offset] % 16) as int * 4;
      if version != 4 || headerLen < MIN_IP_HEADER_LEN || |data| < offset + headerLen then None
      else
        Some((parsed.(ipVersion := version, ttl := data[offset + 8], protocol := data[offset + 9],
                      srcIp := IpText.IpToString(ReadL32(data, offset + 12)),
                      destIp := IpText.IpToString(ReadL32(data, offset + 16)),
                      hasIp := true),
              offset + headerLen))
  }

  function ParseTcp(data: seq<byte>, parsed: Parsed, offset: nat): (r: Option<(Parsed, nat)>)
    ensures r.Some? ==> offset + MIN_TCP_HEADER_LEN <= r.value.1 <= |data|
  {
    if |data| < offset + MIN_TCP_HEADER_LEN then None
    else
      var headerLen: nat := (data[offset + 12] / 16) as int * 4;
      if headerLen < MIN_TCP_HEADER_LEN || |data| < offset + headerLen then None
      else
        Some((parsed.(srcPort := ReadU16(data, offset), destPort := ReadU16(data, offset + 2),
                      seqNumber := ReadU32(data, offset + 4), ackNumber := ReadU32(data, offset + 8),
                      tcpFlags := data[offset + 13], hasTcp := true),
              offset + headerLen))
  }

  function ParseUdp(data: seq<byte>, parsed: Parsed, offset: nat): (r: Option<(Parsed, nat)>)
    ensures r.Some? ==> r.value.1 == offset + UDP_HEADER_LEN <= |data|
  {
    if |data| < offset + UDP_HEADER_LEN then None
    else
      Some((parsed.(srcPort := ReadU16(data, offset), destPort := ReadU16(data, offset + 2), hasUdp := true),
            offset + UDP_HEADER_LEN))
  }

  function ParseTransport(data: seq<byte>, parsed: Parsed, offset: nat): Option<(Parsed, nat)> {
    if parsed.protocol == TCP then ParseTcp(data, parsed, offset)
    else if parsed.protocol == UDP then ParseUdp(data, parsed, offset)
    else Some((parsed, offset))
  }

  function ParseNetwork(data: seq<byte>, parsed: Parsed, offset: nat): Option<(Parsed, nat)> {
    if parsed.etherType != IPV4 then Some((parsed, offset))
    else match ParseIPv4(data, parsed, offset)
      case None => None
      case Some((next, at)) => ParseTransport(data, next, at)
  }

  /** `PacketParser::parse` as a function of the frame. */
  function Parse(data: seq<byte>): Option<Parsed> {
    match ParseEthernet(data)
    case None => None
    case Some((parsed, offset)) =>
      match ParseNetwork(data, parsed, offset)
      case None => None
      case Some((done, end)) => Some(done.(payload := if end < |data| then data[end..] else []))
  }

  /** The layers as they run: each writes the record and moves the offset on, and
      every read is in bounds. */
  method RunEthernet(data: seq<byte>, before: Parsed) returns (ok: bool, parsed: Parsed, offset: nat)
    requires before == EMPTY
    ensures ok <==> ParseEthernet(data).Some?
    ensures ok ==> ParseEthernet(data) == Some((parsed, offset))
  {
    parsed, offset := before, 0;
    if |data| < ETH_HEADER_LEN { return false, parsed, offset; }
    parsed := parsed.(etherType := ReadU16(data, 12));
    offset := ETH_HEADER_LEN;
    ok := true;
  }

  method RunIPv4(data: seq<byte>, before: Parsed, start: nat) returns (ok: bool, parsed: Parsed, offset: nat)
    ensures ok <==> ParseIPv4(data, before, start).Some?
    ensures ok ==> ParseIPv4(data, before, start) == Some((parsed, offset))
  {
    parsed, offset := before, start;
    if |data| < offset + MIN_IP_HEADER_LEN { return false, parsed, offset; }
    parsed := parsed.(ipVersion := data[offset] / 16);
    var ihl: byte := data[offset] % 16;
    if parsed.ipVersion != 4 { return false, parsed, offset; }
    var headerLen: nat := ihl as int * 4;
    if headerLen < MIN_IP_HEADER_LEN || |data| < offset + headerLen { return false, parsed, offset; }
    parsed := parsed.(ttl := data[offset + 8]);
    parsed := parsed.(protocol := data[offset + 9]);
    parsed := parsed.(srcIp := IpText.IpToString(ReadL32(data, offset + 12)));
    parsed := parsed.(destIp := IpText.IpToString(ReadL32(data, offset + 16)));
    parsed := parsed.(hasIp := true);
    offset := offset + headerLen;
    ok := true;
  }

  method RunTcp(data: seq<byte>, before: Parsed, start: nat) returns (ok: bool, parsed: Parsed, offset: nat)
    ensures ok <==> ParseTcp(data, before, start).Some?
    ensures ok ==> ParseTcp(data, before, start) == Some((parsed, offset))
  {
    parsed, offset := before, start;
    if |data| < offset + MIN_TCP_HEADER_LEN { return false, parsed, offset; }
    parsed := parsed.(srcPort := ReadU16(data, offset));
    parsed := parsed.(destPort := ReadU16(data, offset + 2));
    parsed := parsed.(seqNumber := ReadU32(data, offset + 4));
    parsed := parsed.(ackNumber := ReadU32(data, offset + 8));
    var headerLen: nat := (data[offset + 12] / 16) as int * 4;
    parsed := parsed.(tcpFlags := data[offset + 13]);
    if headerLen < MIN_TCP_HEADER_LEN || |data| < offset + headerLen { return false, parsed, offset; }
    parsed := parsed.(hasTcp := true);
    offset := offset + headerLen;
    ok := true;
  }

  method RunUdp(data: seq<byte>, before: Parsed, start: nat) returns (ok: bool, parsed: Parsed, offset: nat)
    ensures ok <==> ParseUdp(data, before, start).Some?
    ensures ok ==> ParseUdp(data, before, start) == Some((parsed, offset))
  {
    parsed, offset := before, start;
    if |data| < offset + UDP_HEADER_LEN { return false, parsed, offset; }
    parsed := parsed.(srcPort := ReadU16(data, offset));
    parsed := parsed.(destPort := ReadU16(data, offset + 2));
    parsed := parsed.(hasUdp := true);
    offset := offset + UDP_HEADER_LEN;
    ok := true;
  }

  /** `PacketParser::parse` as it runs. */
  method ParsePacket(data: seq<byte>) returns (ok: bool, parsed: Parsed)
    ensures ok <==> Parse(data).Some?
    ensures ok ==> parsed == Parse(data).value
  {
    parsed := EMPTY;
    var offset;
    ok, parsed, offset := RunEthernet(data, parsed);
    if !ok { return; }

    if parsed.etherType == IPV4 {
      ok, parsed, offset := RunIPv4(data, parsed, offset);
      if !ok { return; }
      if parsed.protocol == TCP {
        ok, parsed, offset := RunTcp(data, parsed, offset);
        if !ok { return; }
      } else if parsed.protocol == UDP {
        ok, parsed, offset := RunUdp(data, parsed, offset);
        if !ok { return; }
      }
    }

    if offset < |data| {
      parsed := parsed.(payload := data[offset..]);
    } else {
      parsed := parsed.(payload := []);
    }
    ok := true;
  }

  // ---------------------------------------------------------------- reader

  /** What the reader goes on with: IPv4 carrying TCP or UDP. */
  predicate Accepted(data: seq<byte>, parsed: Parsed) {
    Parse(data) == Some(parsed) && parsed.hasIp && (parsed.hasTcp || parsed.hasUdp)
  }

  /** Where an accepted frame's transport header starts. */
  function TransportAt(data: seq<byte>): nat
    requires |data| > 14
  {
    14 + (data[14] % 16) as int * 4
  }

  lemma AcceptedIp(data: seq<byte>, parsed: Parsed)
    requires Accepted(data, parsed)
    ensures |data| >= 34 && 34 <= TransportAt(data) <= |data| && data[14] / 16 == 4 && ReadU16(data, 12) == IPV4
    ensures parsed.protocol == data[23]
    ensures parsed.srcIp == IpText.IpToString(ReadL32(data, 26))
    ensures parsed.destIp == IpText.IpToString(ReadL32(data, 30))
    ensures var start := EMPTY.(etherType := IPV4);
      && ParseIPv4(data, start, 14).Some?
      && ParseTransport(data, ParseIPv4(data, start, 14).value.0, TransportAt(data)).Some?
      && ParseIPv4(data, start, 14).value.1 == TransportAt(data)
  {
    var (start, offset) := ParseEthernet(data).value;
    assert start.etherType == IPV4;
  }

  /** The transport fields and the payload of an accepted frame. */
  lemma AcceptedTransport(data: seq<byte>, parsed: Parsed)
    requires Accepted(data, parsed)
    ensures |data| >= 34 && 34 <= TransportAt(data) <= |data|
    ensures parsed.hasTcp == (data[23] == TCP) && parsed.hasUdp == (data[23] == UDP)
    ensures var t := TransportAt(data);
      && (parsed.hasTcp ==>
            && t + 20 <= |data| && t + 20 <= t + (data[t + 12] / 16) as int * 4 <= |data|
            && parsed.payload == data[t + (data[t + 12] / 16) as int * 4..] && parsed.tcpFlags == data[t + 13])
      && (parsed.hasUdp ==> t + 8 <= |data| && parsed.payload == data[t + 8..] && parsed.tcpFlags == 0)
      && t + 4 <= |data| && parsed.srcPort == ReadU16(data, t) && parsed.destPort == ReadU16(data, t + 2)
  {
    AcceptedIp(data, parsed);
  }

  /** The one read of `createPacketJob` that the parser has to have made safe. */
  predicate Readable(data: seq<byte>, parsed: Parsed) {
    |data| > 14 && parsed.hasTcp && |data| > TransportAt(data) ==> |data| > TransportAt(data) + 12
  }

  /** `createPacketJob`: the addresses come back from their text, the offsets are
      computed a second time. */
  function CreateJob(data: seq<byte>, tsSec: uint32, tsUsec: uint32, parsed: Parsed, packetId: uint32): PacketJob
    requires Readable(data, parsed)
  {
    var tuple := FiveTuple(IpText.ParseIp(parsed.srcIp), IpText.ParseIp(parsed.destIp), parsed.srcPort,
        parsed.destPort, parsed.protocol);
    var (transport, payload) := JobOffsets(data, parsed);
    var length: nat := if |data| > 14 && payload < |data| then |data| - payload else 0;
    PacketJob(packetId, tuple, data, transport, payload, length, parsed.tcpFlags, tsSec, tsUsec)
  }

  function JobOffsets(data: seq<byte>, parsed: Parsed): (nat, nat)
    requires Readable(data, parsed)
  {
    if |data| > 14 then
      var transport := TransportAt(data);
      if parsed.hasTcp && |data| > transport then (transport, transport + (data[transport + 12] / 16) as int * 4)
      else if parsed.hasUdp then (transport, transport + 8)
      else (transport, 0)
    else (0, 0)
  }

  /** `createPacketJob` as it runs, with both addresses parsed digit by digit. */
  method BuildJob(data: seq<byte>, tsSec: uint32, tsUsec: uint32, parsed: Parsed,
          packetId: uint32) returns (job: PacketJob)
    requires Readable(data, parsed)
    ensures job == CreateJob(data, tsSec, tsUsec, parsed, packetId)
  {
    var srcIp := IpText.ParseIpLoop(parsed.srcIp);
    var dstIp := IpText.ParseIpLoop(parsed.destIp);
    var tuple := FiveTuple(srcIp, dstIp, parsed.srcPort, parsed.destPort, parsed.protocol);
    job := PacketJob(packetId, tuple, data, 0, 0, 0, parsed.tcpFlags, tsSec, tsUsec);
    if |data| > 14 {
      var ipHeaderLen: nat := (data[14] % 16) as int * 4;
      job := job.(transportOffset := 14 + ipHeaderLen);
      if parsed.hasTcp && |data| > job.transportOffset {
        var tcpHeaderLen: nat := (data[job.transportOffset + 12] / 16) as int * 4;
        job := job.(payloadOffset := job.transportOffset + tcpHeaderLen);
      } else if parsed.hasUdp {
        job := job.(payloadOffset := job.transportOffset + 8);
      }
      if job.payloadOffset < |data| {
        job := job.(payloadLength := |data| - job.payloadOffset);
      }
    }
  }

  /** The reader's treatment of one captured frame: skipped, or turned into a job. */
  function JobOf(data: seq<byte>, tsSec: uint32, tsUsec: uint32, packetId: uint32): Option<PacketJob> {
    match Parse(data)
    case None => None
    case Some(parsed) =>
      if parsed.hasIp && (parsed.hasTcp || parsed.hasUdp) then
        AcceptedTransport(data, parsed);
        Some(CreateJob(data, tsSec, tsUsec, parsed, packetId))
      else None
  }

  /** For every accepted frame the offset computed the second time is the one the
      parser stopped at, so both see the same payload, and the flow key holds the
      addresses on the wire although they travelled as text. */
  lemma OffsetsAgree(data: seq<byte>, tsSec: uint32, tsUsec: uint32, parsed: Parsed, packetId: uint32)
    requires Accepted(data, parsed)
    ensures Readable(data, parsed)
    ensures var job := CreateJob(data, tsSec, tsUsec, parsed, packetId);
      && job.Payload() == parsed.payload && job.payloadLength == |parsed.payload|
      && job.payloadOffset + job.payloadLength == |data|
  {
    AcceptedTransport(data, parsed);
  }

  lemma TupleOnTheWire(data: seq<byte>, tsSec: uint32, tsUsec: uint32, parsed: Parsed, packetId: uint32)
    requires Accepted(data, parsed)
    ensures Readable(data, parsed) && |data| >= 34
    ensures CreateJob(data, tsSec, tsUsec, parsed, packetId).tuple ==
      FiveTuple(ReadL32(data, 26), ReadL32(data, 30), parsed.srcPort, parsed.destPort, data[23])
  {
    AcceptedTransport(data, parsed);
    AcceptedIp(data, parsed);
    IpText.ParsePrinted(ReadL32(data, 26));
    IpText.ParsePrinted(ReadL32(data, 30));
  }

  // ---------------------------------------------------------------- grammar

  datatype Transport =
    | TcpSegment(tcpSrc: uint16, tcpDst: uint16, seqNumber: uint32, ackNumber: uint32, reserved: byte, flags: byte,
                 windowChecksumUrgent: seq<byte>, tcpOptions: seq<byte>)
    | UdpDatagram(udpSrc: uint16, udpDst: uint16, lengthChecksum: seq<byte>)

  /** An IPv4 frame. Fields the parser does not look at are kept as raw bytes;
      addresses are the numbers the host sees. */
  datatype Frame = Frame(
    macs: seq<byte>, serviceLengthIdFlags: seq<byte>, ttl: byte, checksum: seq<byte>,
    srcIp: uint32, dstIp: uint32, ipOptions: seq<byte>, transport: Transport, payload: seq<byte>)

  predicate LegalOptions(options: seq<byte>) {
    |options| % 4 == 0 && |options| <= 40
  }

  predicate LegalTransport(t: Transport) {
    match t
    case TcpSegment(_, _, _, _, reserved, _, rest, options) => reserved < 16 && |rest| == 6 && LegalOptions(options)
    case UdpDatagram(_, _, rest) => |rest| == 4
  }

  predicate LegalFrame(f: Frame) {
    && |f.macs| == 12 && |f.serviceLengthIdFlags| == 7 && |f.checksum| == 2
    && LegalOptions(f.ipOptions) && LegalTransport(f.transport)
  }

  function ProtocolOf(t: Transport): byte {
    if t.TcpSegment? then TCP else UDP
  }

  function EthernetHeader(f: Frame): seq<byte> {
    f.macs + U16(IPV4)
  }

  function IpHeader(f: Frame): seq<byte>
    requires LegalFrame(f)
  {
    [0x45 + |f.ipOptions| / 4] + f.serviceLengthIdFlags + [f.ttl] + [ProtocolOf(f.transport)] + f.checksum +
    L32(f.srcIp) + L32(f.dstIp) + f.ipOptions
  }

  function TransportHeader(t: Transport): (b: seq<byte>)
    requires LegalTransport(t)
    ensures |b| == if t.TcpSegment? then 20 + |t.tcpOptions| else 8
  {
    match t
    case TcpSegment(src, dst, s, a, reserved, flags, rest, options) =>
      U16(src) + U16(dst) + U32(s) + U32(a) + [(5 + |options| / 4) * 16 + reserved] + [flags] + rest + options
    case UdpDatagram(src, dst, rest) => U16(src) + U16(dst) + rest
  }

  function EncodeFrame(f: Frame): seq<byte>
    requires LegalFrame(f)
  {
    EthernetHeader(f) + IpHeader(f) + TransportHeader(f.transport) + f.payload
  }

  function TupleOf(f: Frame): FiveTuple {
    match f.transport
    case TcpSegment(src, dst, _, _, _, _, _, _) => FiveTuple(f.srcIp, f.dstIp, src, dst, TCP)
    case UdpDatagram(src, dst, _) => FiveTuple(f.srcIp, f.dstIp, src, dst, UDP)
  }

  function FlagsOf(f: Frame): byte {
    if f.transport.TcpSegment? then f.transport.flags else 0
  }

  lemma IpHeaderIff(f: Frame, p: seq<byte>, i: nat)
    requires LegalFrame(f)
    ensures At(p, i, IpHeader(f)) <==>
      && i + 20 + |f.ipOptions| <= |p|
      && p[i] == 0x45 + |f.ipOptions| / 4 && p[i + 1..i + 8] == f.serviceLengthIdFlags && p[i + 8] == f.ttl
      && p[i + 9] == ProtocolOf(f.transport) && p[i + 10..i + 12] == f.checksum
      && ReadL32(p, i + 12) == f.srcIp && ReadL32(p, i + 16) == f.dstIp
      && p[i + 20..i + 20 + |f.ipOptions|] == f.ipOptions
  {
    var a := [(0x45 + |f.ipOptions| / 4) as byte];
    var b := a + f.serviceLengthIdFlags;
    var c := b + [f.ttl];
    var d := c + [ProtocolOf(f.transport)];
    var e := d + f.checksum;
    var g := e + L32(f.srcIp);
    var h := g + L32(f.dstIp);
    AtByte(p, i, a[0]);
    AtJoin(p, i, a, f.serviceLengthIdFlags);
    AtJoin(p, i, b, [f.ttl]);
    AtByte(p, i + 8, f.ttl);
    AtJoin(p, i, c, [ProtocolOf(f.transport)]);
    AtByte(p, i + 9, ProtocolOf(f.transport));
    AtJoin(p, i, d, f.checksum);
    AtJoin(p, i, e, L32(f.srcIp));
    AtL32(p, i + 12, f.srcIp);
    AtJoin(p, i, g, L32(f.dstIp));
    AtL32(p, i + 16, f.dstIp);
    AtJoin(p, i, h, f.ipOptions);
    assert IpHeader(f) == h + f.ipOptions;
  }

  lemma TcpHeaderIff(t: Transport, p: seq<byte>, i: nat)
    requires t.TcpSegment? && LegalTransport(t)
    ensures At(p, i, TransportHeader(t)) <==>
      && i + 20 + |t.tcpOptions| <= |p|
      && ReadU16(p, i) == t.tcpSrc && ReadU16(p, i + 2) == t.tcpDst && ReadU32(p, i + 4) == t.seqNumber
      && ReadU32(p, i + 8) == t.ackNumber && p[i + 12] == (5 + |t.tcpOptions| / 4) * 16 + t.reserved
      && p[i + 13] == t.flags
      && p[i + 14..i + 20] == t.windowChecksumUrgent && p[i + 20..i + 20 + |t.tcpOptions|] == t.tcpOptions
  {
    var a := U16(t.tcpSrc);
    var b := a + U16(t.tcpDst);
    var c := b + U32(t.seqNumber);
    var d := c + U32(t.ackNumber);
    var x: byte := (5 + |t.tcpOptions| / 4) * 16 + t.reserved;
    var e := d + [x];
    var g := e + [t.flags];
    var h := g + t.windowChecksumUrgent;
    AtU16(p, i, t.tcpSrc);
    AtJoin(p, i, a, U16(t.tcpDst));
    AtU16(p, i + 2, t.tcpDst);
    AtJoin(p, i, b, U32(t.seqNumber));
    AtU32(p, i + 4, t.seqNumber);
    AtJoin(p, i, c, U32(t.ackNumber));
    AtU32(p, i + 8, t.ackNumber);
    AtJoin(p, i, d, [x]);
    AtByte(p, i + 12, x);
    AtJoin(p, i, e, [t.flags]);
    AtByte(p, i + 13, t.flags);
    AtJoin(p, i, g, t.windowChecksumUrgent);
    AtJoin(p, i, h, t.tcpOptions);
    assert TransportHeader(t) == h + t.tcpOptions;
  }

  lemma UdpHeaderIff(t: Transport, p: seq<byte>, i: nat)
    requires t.UdpDatagram? && LegalTransport(t)
    ensures At(p, i, TransportHeader(t)) <==>
      i + 8 <= |p| && ReadU16(p, i) == t.udpSrc && ReadU16(p, i + 2) == t.udpDst && p[i + 4..i + 8] == t.lengthChecksum
  {
    var a := U16(t.udpSrc);
    var b := a + U16(t.udpDst);
    AtU16(p, i, t.udpSrc);
    AtJoin(p, i, a, U16(t.udpDst));
    AtU16(p, i + 2, t.udpDst);
    AtJoin(p, i, b, t.lengthChecksum);
    assert TransportHeader(t) == b + t.lengthChecksum;
  }

  lemma FrameIff(f: Frame, p: seq<byte>)
    requires LegalFrame(f)
    ensures p == EncodeFrame(f) <==>
      var n := 34 + |f.ipOptions|;
      var m := n + |TransportHeader(f.transport)|;
      && |p| >= 14 && p[..12] == f.macs && ReadU16(p, 12) == IPV4 && At(p, 14, IpHeader(f))
      && At(p, n, TransportHeader(f.transport)) && m <= |p| && p[m..] == f.payload
  {
    var eth, ip, tr := EthernetHeader(f), IpHeader(f), TransportHeader(f.transport);
    var m := 34 + |f.ipOptions| + |tr|;
    AtJoin(p, 0, f.macs, U16(IPV4));
    AtU16(p, 12, IPV4);
    AtJoin(p, 0, eth, ip);
    AtJoin(p, 0, eth + ip, tr);
    AtJoin(p, 0, eth + ip + tr, f.payload);
    if m <= |p| {
      assert p == p[..m] + p[m..];
      assert p == EncodeFrame(f) <==> p[..m] == eth + ip + tr && p[m..] == f.payload by {
        if p == EncodeFrame(f) {
          assert p[..m] == eth + ip + tr && p[m..] == f.payload;
        }
      }
    }
  }

  lemma TcpParses(f: Frame, p: seq<byte>, parsed: Parsed)
    requires LegalFrame(f) && f.transport.TcpSegment?
    requires At(p, 34 + |f.ipOptions|, TransportHeader(f.transport))
    ensures var n := 34 + |f.ipOptions|;
      ParseTcp(p, parsed, n) == Some((
        parsed.(srcPort := f.transport.tcpSrc, destPort := f.transport.tcpDst, seqNumber := f.transport.seqNumber,
                ackNumber := f.transport.ackNumber, tcpFlags := f.transport.flags, hasTcp := true),
        n + |TransportHeader(f.transport)|))
  {
    TcpHeaderIff(f.transport, p, 34 + |f.ipOptions|);
  }

  lemma IpParses(f: Frame, p: seq<byte>, parsed: Parsed)
    requires LegalFrame(f) && At(p, 14, IpHeader(f))
    ensures ParseIPv4(p, parsed, 14) == Some((
      parsed.(ipVersion := 4, ttl := f.ttl, protocol := ProtocolOf(f.transport),
              srcIp := IpText.IpToString(f.srcIp), destIp := IpText.IpToString(f.dstIp), hasIp := true),
      34 + |f.ipOptions|))
  {
    IpHeaderIff(f, p, 14);
  }

  /** The parser reads the fields of any legal frame back. */
  lemma ParseEncoded(f: Frame, p: seq<byte>) returns (parsed: Parsed)
    requires LegalFrame(f) && p == EncodeFrame(f)
    ensures Accepted(p, parsed) && parsed.payload == f.payload && parsed.tcpFlags == FlagsOf(f)
    ensures parsed.hasTcp == f.transport.TcpSegment? && parsed.hasUdp == f.transport.UdpDatagram?
    ensures FiveTuple(f.srcIp, f.dstIp, parsed.srcPort, parsed.destPort, parsed.protocol) == TupleOf(f)
    ensures parsed.srcIp == IpText.IpToString(f.srcIp) && parsed.destIp == IpText.IpToString(f.dstIp)
  {
    FrameIff(f, p);
    var start := EMPTY.(etherType := IPV4);
    IpParses(f, p, start);
    var n := 34 + |f.ipOptions|;
    var (ip, at) := ParseIPv4(p, start, 14).value;
    if f.transport.TcpSegment? {
      TcpParses(f, p, ip);
    } else {
      UdpHeaderIff(f.transport, p, n);
    }
    var (done, end) := ParseTransport(p, ip, n).value;
    parsed := done.(payload := if end < |p| then p[end..] else []);
  }

  /** Building a frame, parsing it and making a job of it is the identity on the
      flow key, the TCP flags and the payload: for any addresses and ports, any
      legal header lengths, and any payload. */
  lemma JobOfEncoded(f: Frame, tsSec: uint32, tsUsec: uint32, packetId: uint32)
    requires LegalFrame(f)
    ensures var r := JobOf(EncodeFrame(f), tsSec, tsUsec, packetId);
      && r.Some? && r.value.tuple == TupleOf(f) && r.value.Payload() == f.payload
      && r.value.payloadLength == |f.payload| && r.value.tcpFlags == FlagsOf(f) && r.value.data == EncodeFrame(f)
      && r.value.packetId == packetId && r.value.tsSec == tsSec && r.value.tsUsec == tsUsec
      && r.value.transportOffset == 34 + |f.ipOptions|
      && r.value.payloadOffset == 34 + |f.ipOptions| + |TransportHeader(f.transport)|
  {
    var p := EncodeFrame(f);
    var parsed := ParseEncoded(f, p);
    OffsetsAgree(p, tsSec, tsUsec, parsed, packetId);
    IpText.ParsePrinted(f.srcIp);
    IpText.ParsePrinted(f.dstIp);
  }

  /** There is room for the transport header that is to be read. */
  predicate TransportFits(p: seq<byte>, tcp: bool) {
    && |p| >= 34 && 34 <= TransportAt(p) <= |p|
    && var t := TransportAt(p);
       if tcp then t + 20 <= |p| && t + 20 <= t + (p[t + 12] / 16) as int * 4 <= |p| else t + 8 <= |p|
  }

  function TransportOf(p: seq<byte>, tcp: bool): Transport
    requires TransportFits(p, tcp)
  {
    var t := TransportAt(p);
    if tcp then
      TcpSegment(ReadU16(p, t), ReadU16(p, t + 2), ReadU32(p, t + 4), ReadU32(p, t + 8), p[t + 12] % 16, p[t + 13],
                 p[t + 14..t + 20], p[t + 20..t + (p[t + 12] / 16) as int * 4])
    else UdpDatagram(ReadU16(p, t), ReadU16(p, t + 2), p[t + 4..t + 8])
  }

  /** The frame an accepted capture is the encoding of. */
  function FrameOf(p: seq<byte>, parsed: Parsed): Frame
    requires Accepted(p, parsed)
  {
    AcceptedTransport(p, parsed);
    var t := TransportAt(p);
    Frame(p[..12], p[15..22], p[22], p[24..26], ReadL32(p, 26), ReadL32(p, 30), p[34..t],
        TransportOf(p, parsed.hasTcp), parsed.payload)
  }

  lemma TransportOfIsLegal(p: seq<byte>, tcp: bool)
    requires TransportFits(p, tcp)
    ensures LegalTransport(TransportOf(p, tcp)) && TransportOf(p, tcp).TcpSegment? == tcp
  {
  }

  lemma FrameOfIsLegal(p: seq<byte>, parsed: Parsed)
    requires Accepted(p, parsed)
    ensures LegalFrame(FrameOf(p, parsed))
    ensures FrameOf(p, parsed).transport.TcpSegment? == parsed.hasTcp
  {
    AcceptedIp(p, parsed);
    AcceptedTransport(p, parsed);
    TransportOfIsLegal(p, parsed.hasTcp);
  }

  lemma TransportIsThere(p: seq<byte>, tcp: bool)
    requires TransportFits(p, tcp)
    ensures LegalTransport(TransportOf(p, tcp)) && At(p, TransportAt(p), TransportHeader(TransportOf(p, tcp)))
  {
    TransportOfIsLegal(p, tcp);
    if tcp {
      TcpHeaderIff(TransportOf(p, tcp), p, TransportAt(p));
    } else {
      UdpHeaderIff(TransportOf(p, tcp), p, TransportAt(p));
    }
  }

  lemma FrameOfEncodes(p: seq<byte>, parsed: Parsed)
    requires Accepted(p, parsed)
    ensures LegalFrame(FrameOf(p, parsed)) && p == EncodeFrame(FrameOf(p, parsed))
  {
    var f, t := FrameOf(p, parsed), TransportAt(p);
    FrameOfIsLegal(p, parsed);
    AcceptedIp(p, parsed);
    AcceptedTransport(p, parsed);
    IpHeaderIff(f, p, 14);
    TransportIsThere(p, parsed.hasTcp);
    FrameIff(f, p);
  }

  /** The reader makes a job of a capture exactly when it is the encoding of a
      legal frame: IPv4 with a header of 20 to 60 bytes that carries a complete
      TCP or UDP header. */
  lemma JobIffFrame(p: seq<byte>, tsSec: uint32, tsUsec: uint32, packetId: uint32)
    ensures JobOf(p, tsSec, tsUsec, packetId).Some? <==> exists f: Frame :: LegalFrame(f) && p == EncodeFrame(f)
  {
    if JobOf(p, tsSec, tsUsec, packetId).Some? {
      FrameOfEncodes(p, Parse(p).value);
    }
    if exists f: Frame :: LegalFrame(f) && p == EncodeFrame(f) {
      var f: Frame :| LegalFrame(f) && p == EncodeFrame(f);
      JobOfEncoded(f, tsSec, tsUsec, packetId);
    }
  }

  /** A job, once made, holds at least the smallest headers. */
  lemma JobDataLength(p: seq<byte>, tsSec: uint32, tsUsec: uint32, packetId: uint32)
    ensures JobOf(p, tsSec, tsUsec, packetId).Some? ==> |p| >= 42
  {
    if JobOf(p, tsSec, tsUsec, packetId).Some? {
      AcceptedTransport(p, Parse(p).value);
    }
  }

  // ---------------------------------------------------------------- generator

  /** The IPv4 header of `create_ip_header`; packing fails when the total length
      does not fit 16 bits. The identification is a parameter. */
  function CreateIpHeader(srcIp: uint32, dstIp: uint32, protocol: byte, ident: uint16,
          payloadLen: nat): Option<seq<byte>> {
    if 20 + payloadLen >= 0x1_0000 then None
    else Some([0x45, 0] + U16(20 + payloadLen) + U16(ident) + U16(0x4000) + [64, protocol] + U16(0) + L32(srcIp) +
        L32(dstIp))
  }

  function CreateTcpHeader(srcPort: uint16, dstPort: uint16, s: uint32, a: uint32, flags: byte): seq<byte> {
    U16(srcPort) + U16(dstPort) + U32(s) + U32(a) + [0x50, flags] + U16(65535) + U16(0) + U16(0)
  }

  function CreateUdpHeader(srcPort: uint16, dstPort: uint16, payloadLen: nat): Option<seq<byte>> {
    if 8 + payloadLen >= 0x1_0000 then None
    else Some(U16(srcPort) + U16(dstPort) + U16(8 + payloadLen) + U16(0))
  }

  lemma GeneratedIpHeader(f: Frame, ident: uint16, payloadLen: nat)
    requires LegalFrame(f) && f.ipOptions == [] && f.ttl == 64 && f.checksum == U16(0) && payloadLen < 0xffec
    requires f.serviceLengthIdFlags == [0] + U16(20 + payloadLen) + U16(ident) + U16(0x4000)
    ensures CreateIpHeader(f.srcIp, f.dstIp, ProtocolOf(f.transport), ident, payloadLen) == Some(IpHeader(f))
  {
    var head := CreateIpHeader(f.srcIp, f.dstIp, ProtocolOf(f.transport), ident, payloadLen).value;
    assert head == IpHeader(f);
  }

  /** A generated TCP packet becomes a job with the flow it was generated for. */
  lemma GeneratedTcpPacket(macs: seq<byte>, t: FiveTuple, ident: uint16, s: uint32, a: uint32, flags: byte,
          payload: seq<byte>)
    requires |macs| == 12 && t.protocol == 6 && 20 + |payload| < 0xffec
    ensures var p := macs + [8, 0] + CreateIpHeader(t.srcIp, t.dstIp, 6, ident, 20 + |payload|).value +
        CreateTcpHeader(t.srcPort, t.dstPort, s, a, flags) + payload;
      && JobOf(p, 0, 0, 0).Some? && JobOf(p, 0, 0, 0).value.tuple == t && JobOf(p, 0, 0, 0).value.Payload() == payload
      && JobOf(p, 0, 0, 0).value.tcpFlags == flags
  {
    var tr := TcpSegment(t.srcPort, t.dstPort, s, a, 0, flags, U16(65535) + U16(0) + U16(0), []);
    var f := Frame(macs, [0] + U16(40 + |payload|) + U16(ident) + U16(0x4000), 64, U16(0), t.srcIp, t.dstIp, [], tr,
        payload);
    assert LegalFrame(f);
    GeneratedIpHeader(f, ident, 20 + |payload|);
    assert U16(IPV4) == [8, 0];
    assert CreateTcpHeader(t.srcPort, t.dstPort, s, a, flags) == TransportHeader(tr);
    JobOfEncoded(f, 0, 0, 0);
  }

  /** A generated UDP packet becomes a job with the flow it was generated for. */
  lemma GeneratedUdpPacket(macs: seq<byte>, t: FiveTuple, ident: uint16, payload: seq<byte>)
    requires |macs| == 12 && t.protocol == 17 && 8 + |payload| < 0xffec
    ensures var p := macs + [8, 0] + CreateIpHeader(t.srcIp, t.dstIp, 17, ident, 8 + |payload|).value +
        CreateUdpHeader(t.srcPort, t.dstPort, |payload|).value + payload;
      && JobOf(p, 0, 0, 0).Some? && JobOf(p, 0, 0, 0).value.tuple == t && JobOf(p, 0, 0, 0).value.Payload() == payload
  {
    var tr := UdpDatagram(t.srcPort, t.dstPort, U16(8 + |payload|) + U16(0));
    var f := Frame(macs, [0] + U16(28 + |payload|) + U16(ident) + U16(0x4000), 64, U16(0), t.srcIp, t.dstIp, [], tr,
        payload);
    assert LegalFrame(f);
    GeneratedIpHeader(f, ident, 8 + |payload|);
    assert U16(IPV4) == [8, 0];
    assert CreateUdpHeader(t.srcPort, t.dstPort, |payload|).value == TransportHeader(tr);
    JobOfEncoded(f, 0, 0, 0);
  }
}
