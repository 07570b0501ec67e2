/** The values that travel through the engine: machine integers, flow keys,
    connection records and packet jobs. */
module Types {
  type byte = x: int | 0 <= x < 0x100
  type uint16 = x: int | 0 <= x < 0x1_0000
  type uint32 = x: int | 0 <= x < 0x1_0000_0000
  type uint64 = x: int | 0 <= x < 0x1_0000_0000_0000_0000

  datatype Option<+T> = None | Some(value: T)

  const TCP: byte := 6
  const UDP: byte := 17

  const FIN: byte := 0x01
  const SYN: byte := 0x02
  const RST: byte := 0x04
  const ACK: byte := 0x10

  /** `flags & mask` for a mask with a single bit set. */
  predicate HasFlag(flags: byte, mask: byte)
    requires mask > 0
  {
    (flags / mask) % 2 == 1
  }

  /** The key of a flow. It is directional: a packet and its reply have
      different keys unless both endpoints coincide. */
  datatype FiveTuple = FiveTuple(srcIp: uint32, dstIp: uint32, srcPort: uint16, dstPort: uint16, protocol: byte) {
    function Reverse(): FiveTuple {
      FiveTuple(dstIp, srcIp, dstPort, srcPort, protocol)
    }
  }

  datatype AppType =
    | Unknown | Http | Https | Dns | Tls | Quic | Google | Facebook | YouTube | Twitter
    | Instagram | Netflix | Amazon | Microsoft | Apple | WhatsApp | Telegram | TikTok
    | Spotify | Zoom | Discord | GitHub | Cloudflare

  datatype ConnectionState = New | Established | Classified | Blocked | Closed

  datatype PacketAction = Forward | Drop

  /** One packet on its way from the reader to the writer. The three offsets are
      those that `createPacketJob` computes. */
  datatype PacketJob = PacketJob(
    packetId: uint32, tuple: FiveTuple, data: seq<byte>,
    transportOffset: nat, payloadOffset: nat, payloadLength: nat,
    tcpFlags: byte, tsSec: uint32, tsUsec: uint32)
  {
    /** The bytes a payload inspector may look at. */
    function Payload(): seq<byte> {
      if payloadOffset <= payloadOffset + payloadLength <= |data|
      then data[payloadOffset..payloadOffset + payloadLength] else []
    }
  }

  /** Payload bytes seen as text, one character a byte. */
  function Text(b: seq<byte>): (s: string)
    ensures |s| == |b|
    ensures forall i :: 0 <= i < |b| ==> s[i] as int == b[i]
  {
    seq(|b|, i requires 0 <= i < |b| => b[i] as char)
  }

  /** Text as bytes, for characters below 256. */
  function TextBytes(s: string): (b: seq<byte>)
    requires forall i :: 0 <= i < |s| ==> s[i] as int < 0x100
    ensures |b| == |s|
    ensures forall i :: 0 <= i < |s| ==> b[i] == s[i] as int
  {
    seq(|s|, i requires 0 <= i < |s| => s[i] as int)
  }
}
