/** Reading the server name out of a TLS ClientHello: the offset-driven decoder,
    a grammar for what it accepts, which is more than the standard has, the proof that they
    agree, and the messages of the standard. */
module TlsClientHello {
  import opened Types
  import opened Bytes

  const CONTENT_TYPE_HANDSHAKE: byte := 0x16
  const HANDSHAKE_CLIENT_HELLO: byte := 0x01
  const EXTENSION_SNI: uint16 := 0x0000
  const SNI_TYPE_HOSTNAME: byte := 0x00

  // ---------------------------------------------------------------- decoder

  predicate IsTlsClientHello(p: seq<byte>) {
    && |p| >= 9
    && p[0] == CONTENT_TYPE_HANDSHAKE
    && 0x0300 <= ReadU16(p, 1) <= 0x0304
    && ReadU16(p, 3) <= |p| - 5
    && p[5] == HANDSHAKE_CLIENT_HELLO
  }

  /** The host name in the body of a server_name extension. */
  function HostName(body: seq<byte>): Option<seq<byte>> {
    if |body| < 5 || ReadU16(body, 0) < 3 || body[2] != SNI_TYPE_HOSTNAME || ReadU16(body, 3) > |body| - 5
    then None
    else Some(body[5..5 + ReadU16(body, 3)])
  }

  /** Walks the extensions between two offsets up to the first server_name. */
  function Scan(p: seq<byte>, offset: nat, end: nat): Option<seq<byte>>
    requires end <= |p|
    decreases end - offset
  {
    if offset + 4 > end then None
    else
      var data, size := offset + 4, ReadU16(p, offset + 2);
      if data + size > end then None
      else if ReadU16(p, offset) == EXTENSION_SNI then HostName(p[data..data + size])
      else Scan(p, data + size, end)
  }

  /** Where the extensions of an accepted ClientHello start and end. */
  function ExtensionBlock(p: seq<byte>): (r: Option<(nat, nat)>)
    requires IsTlsClientHello(p)
    ensures r.Some? ==> r.value.0 <= r.value.1 <= |p|
  {
    if 43 >= |p| then None
    else
      var ciphers := 44 + p[43] as int;
      if ciphers + 2 > |p| then None
      else
        var compression := ciphers + 2 + ReadU16(p, ciphers);
        if compression >= |p| then None
        else
          var extensions := compression + 1 + p[compression] as int;
          if extensions + 2 > |p| then None
          else
            var start := extensions + 2;
            var end := start + ReadU16(p, extensions);
            Some((start, if end > |p| then |p| else end))
  }

  /** `SNIExtractor::extract` as a function of the payload. */
  function ServerName(p: seq<byte>): Option<seq<byte>> {
    if !IsTlsClientHello(p) then None
    else match ExtensionBlock(p)
      case None => None
      case Some((start, end)) => Scan(p, start, end)
  }

  /** The extension body read in place. */
  lemma HostNameAt(p: seq<byte>, at: nat, size: nat)
    requires at + size <= |p|
    ensures HostName(p[at..at + size]) ==
      if size < 5 || ReadU16(p, at) < 3 || p[at + 2] != SNI_TYPE_HOSTNAME || ReadU16(p, at + 3) > size - 5
      then None
      else Some(p[at + 5..at + 5 + ReadU16(p, at + 3)])
  {
    if size >= 5 && ReadU16(p, at + 3) <= size - 5 {
      var n: int := ReadU16(p, at + 3);
      SliceOfSlice(p, at, at + size, 5, 5 + n);
    }
  }

  /** The extension loop of `SNIExtractor::extract`. */
  method FindServerName(p: seq<byte>, start: nat, end: nat) returns (name: Option<seq<byte>>)
    requires start <= end <= |p|
    ensures name == Scan(p, start, end)
  {
    var offset := start;
    while offset + 4 <= end
      invariant 0 <= offset <= end
      invariant Scan(p, start, end) == Scan(p, offset, end)
      decreases end - offset
    {
      var extensionType, extensionLength := ReadU16(p, offset), ReadU16(p, offset + 2);
      offset := offset + 4;
      if offset + extensionLength > end { return None; }

      if extensionType == EXTENSION_SNI {
        HostNameAt(p, offset, extensionLength);
        if extensionLength < 5 { return None; }
        if ReadU16(p, offset) < 3 { return None; }
        var sniType, sniLength := p[offset + 2], ReadU16(p, offset + 3);
        if sniType != SNI_TYPE_HOSTNAME { return None; }
        if sniLength > extensionLength - 5 { return None; }
        return Some(p[offset + 5..offset + 5 + sniLength]);
      }
      offset := offset + extensionLength;
    }
    return None;
  }

  /** `SNIExtractor::extract` as it runs: one offset moving over the payload.
      Every read is in bounds and the loop ends. */
  method Extract(p: seq<byte>) returns (name: Option<seq<byte>>)
    ensures name == ServerName(p)
  {
    if !IsTlsClientHello(p) { return None; }
    var offset := 5;
    var handshakeLength := ReadU24(p, offset + 1);
    offset := offset + 4 + 2 + 32;

    if offset >= |p| { return None; }
    var sessionIdLength := p[offset];
    offset := offset + 1 + sessionIdLength;

    if offset + 2 > |p| { return None; }
    var cipherSuitesLength := ReadU16(p, offset);
    offset := offset + 2 + cipherSuitesLength;

    if offset >= |p| { return None; }
    var compressionMethodsLength := p[offset];
    offset := offset + 1 + compressionMethodsLength;

    if offset + 2 > |p| { return None; }
    var extensionsLength := ReadU16(p, offset);
    offset := offset + 2;

    var end := offset + extensionsLength;
    if end > |p| { end := |p|; }
    assert ExtensionBlock(p) == Some((offset, end));

    name := FindServerName(p, offset, end);
  }

  // ---------------------------------------------------------------- grammar

  datatype Extension = Extension(kind: uint16, body: seq<byte>)

  predicate LegalExtension(e: Extension) {
    |e.body| < 0x1_0000
  }

  predicate LegalExtensions(es: seq<Extension>) {
    forall e :: e in es ==> LegalExtension(e)
  }

  function EncodeExtension(e: Extension): (b: seq<byte>)
    requires LegalExtension(e)
    ensures |b| == 4 + |e.body|
  {
    U16(e.kind) + U16(|e.body|) + e.body
  }

  function EncodeExtensions(es: seq<Extension>): seq<byte>
    requires LegalExtensions(es)
  {
    if es == [] then [] else EncodeExtension(es[0]) + EncodeExtensions(es[1..])
  }

  /** Everything of a ClientHello record in front of its extensions. The lengths
      of the record, of the handshake message and of the extension block are
      carried as written, since the decoder does not require them to be true. */
  datatype Hello = Hello(
    recordVersion: uint16, recordLength: uint16, handshakeLength: nat, clientVersion: uint16,
    random: seq<byte>, sessionId: seq<byte>, cipherSuites: seq<byte>, compression: seq<byte>,
    extensionsLength: uint16)

  predicate LegalHello(h: Hello) {
    && h.handshakeLength < 0x100_0000
    && |h.random| == 32
    && |h.sessionId| < 0x100
    && |h.cipherSuites| < 0x1_0000
    && |h.compression| < 0x100
  }

  function RecordHeader(h: Hello): (b: seq<byte>)
    ensures |b| == 6
  {
    [CONTENT_TYPE_HANDSHAKE] + U16(h.recordVersion) + U16(h.recordLength) + [HANDSHAKE_CLIENT_HELLO]
  }

  function Preamble(h: Hello): (b: seq<byte>)
    requires LegalHello(h)
    ensures |b| == 43
  {
    RecordHeader(h) + U24(h.handshakeLength) + U16(h.clientVersion) + h.random
  }

  function UpToSessionId(h: Hello): seq<byte>
    requires LegalHello(h)
  {
    Preamble(h) + [|h.sessionId|] + h.sessionId
  }

  function UpToCiphers(h: Hello): seq<byte>
    requires LegalHello(h)
  {
    UpToSessionId(h) + U16(|h.cipherSuites|) + h.cipherSuites
  }

  function UpToCompression(h: Hello): seq<byte>
    requires LegalHello(h)
  {
    UpToCiphers(h) + [|h.compression|] + h.compression
  }

  function EncodeHello(h: Hello): seq<byte>
    requires LegalHello(h)
  {
    UpToCompression(h) + U16(h.extensionsLength)
  }

  /** A server_name body with one host_name entry: the list length, the entry
      type, the name with its length, and bytes the decoder does not look at. */
  function NameBody(listLength: uint16, name: seq<byte>, padding: seq<byte>): seq<byte>
    requires |name| < 0x1_0000
  {
    U16(listLength) + [SNI_TYPE_HOSTNAME] + U16(|name|) + name + padding
  }

  /** One way to read a payload as a ClientHello whose first server_name
      extension carries a name. */
  datatype Reading = Reading(
    hello: Hello, before: seq<Extension>, listLength: uint16, name: seq<byte>, padding: seq<byte>,
    tail: seq<byte>, trailing: seq<byte>)

  predicate LegalReading(r: Reading) {
    && LegalHello(r.hello)
    && LegalExtensions(r.before)
    && (forall e :: e in r.before ==> e.kind != EXTENSION_SNI)
    && |r.name| < 0x1_0000
    && 5 + |r.name| + |r.padding| < 0x1_0000
    && r.listLength >= 3
    && 0x0300 <= r.hello.recordVersion <= 0x0304
  }

  function NameExtension(r: Reading): (e: Extension)
    requires LegalReading(r)
    ensures LegalExtension(e)
  {
    Extension(EXTENSION_SNI, NameBody(r.listLength, r.name, r.padding))
  }

  function Block(r: Reading): seq<byte>
    requires LegalReading(r)
  {
    EncodeExtensions(r.before) + EncodeExtension(NameExtension(r)) + r.tail
  }

  /** The payload is the encoding of the reading. The extension block is as long
      as it says, or runs to the end of the payload and says more. */
  predicate Describes(r: Reading, p: seq<byte>) {
    && LegalReading(r)
    && p == EncodeHello(r.hello) + Block(r) + r.trailing
    && (|Block(r)| == r.hello.extensionsLength || (r.trailing == [] && |Block(r)| <= r.hello.extensionsLength))
    && r.hello.recordLength <= |p| - 5
  }

  ghost predicate CarriesName(p: seq<byte>, name: seq<byte>) {
    exists r: Reading :: Describes(r, p) && r.name == name
  }

  // ---------------------------------------------------------------- agreement

  lemma PrefixExtend(x: seq<byte>, y: seq<byte>, p: seq<byte>)
    ensures x + y <= p <==> x <= p && |x| + |y| <= |p| && p[|x|..|x| + |y|] == y
  {
    if x + y <= p {
      assert x == (x + y)[..|x|] == p[..|x|];
      assert y == (x + y)[|x|..];
    }
  }

  lemma PrefixSplit(x: seq<byte>, y: seq<byte>, p: seq<byte>)
    ensures p == x + y <==> x <= p && p[|x|..] == y
  {
    if x <= p {
      assert p == p[..|x|] + p[|x|..];
    }
  }

  lemma SliceU16(p: seq<byte>, i: nat, n: uint16)
    requires i + 2 <= |p|
    ensures p[i..i + 2] == U16(n) <==> ReadU16(p, i) == n
  {
    assert p[i..i + 2] == [p[i], p[i + 1]];
  }

  /** The payload starts with the encoding of a hello exactly when its bytes at
      the decoder's offsets are the fields of the hello. */
  lemma PreambleIff(h: Hello, p: seq<byte>)
    requires LegalHello(h)
    ensures Preamble(h) <= p <==>
      && |p| >= 43 && p[0] == CONTENT_TYPE_HANDSHAKE && ReadU16(p, 1) == h.recordVersion
      && ReadU16(p, 3) == h.recordLength && p[5] == HANDSHAKE_CLIENT_HELLO && ReadU24(p, 6) == h.handshakeLength
      && ReadU16(p, 9) == h.clientVersion && p[11..43] == h.random
  {
    AfterRecordHeader(RecordHeader(h), h.handshakeLength, h.clientVersion, h.random, p);
    if |p| >= 43 {
      RecordHeaderIff(h, p);
    }
  }

  lemma AfterRecordHeader(x: seq<byte>, handshakeLength: nat, clientVersion: uint16, random: seq<byte>, p: seq<byte>)
    requires |x| == 6 && |random| == 32 && handshakeLength < 0x100_0000
    ensures x + U24(handshakeLength) + U16(clientVersion) + random <= p <==>
      && x <= p && |p| >= 43 && ReadU24(p, 6) == handshakeLength
      && ReadU16(p, 9) == clientVersion && p[11..43] == random
  {
    var y := x + U24(handshakeLength);
    PrefixExtend(x, U24(handshakeLength), p);
    PrefixExtend(y, U16(clientVersion), p);
    PrefixExtend(y + U16(clientVersion), random, p);
    if |p| >= 43 {
      SliceU16(p, 9, clientVersion);
      SliceU24(p, 6, handshakeLength);
    }
  }

  lemma SliceU24(p: seq<byte>, i: nat, n: nat)
    requires i + 3 <= |p| && n < 0x100_0000
    ensures p[i..i + 3] == U24(n) <==> ReadU24(p, i) == n
  {
    var a, b, c := p[i] as int, p[i + 1] as int, p[i + 2] as int;
    assert p[i..i + 3] == [p[i], p[i + 1], p[i + 2]];
    Digits24(a, b, c, n);
  }

  lemma Digits24(a: int, b: int, c: int, n: int)
    requires 0 <= a < 0x100 && 0 <= b < 0x100 && 0 <= c < 0x100
    ensures a * 0x1_0000 + b * 0x100 + c == n <==> a == n / 0x1_0000 && b == n / 0x100 % 0x100 && c == n % 0x100
  {
  }

  lemma RecordHeaderIff(h: Hello, p: seq<byte>)
    requires |p| >= 6
    ensures RecordHeader(h) <= p <==>
      && p[0] == CONTENT_TYPE_HANDSHAKE && ReadU16(p, 1) == h.recordVersion
      && ReadU16(p, 3) == h.recordLength && p[5] == HANDSHAKE_CLIENT_HELLO
  {
    var a := [CONTENT_TYPE_HANDSHAKE];
    var b := a + U16(h.recordVersion);
    var c := b + U16(h.recordLength);
    PrefixExtend(a, U16(h.recordVersion), p);
    PrefixExtend(b, U16(h.recordLength), p);
    PrefixExtend(c, [HANDSHAKE_CLIENT_HELLO], p);
    SliceU16(p, 1, h.recordVersion);
    SliceU16(p, 3, h.recordLength);
    assert p[5..6] == [p[5]];
  }

  /** One length byte and as many bytes. */
  lemma ShortField(x: seq<byte>, field: seq<byte>, p: seq<byte>)
    requires |field| < 0x100
    ensures x + [|field|] + field <= p <==>
      && x <= p && |p| > |x| && p[|x|] == |field| && |p| >= |x| + 1 + |field|
      && p[|x| + 1..|x| + 1 + |field|] == field
  {
    PrefixExtend(x, [|field|], p);
    PrefixExtend(x + [|field|], field, p);
    if |p| > |x| {
      assert p[|x|..|x| + 1] == [p[|x|]];
    }
  }

  /** Two length bytes and as many bytes. */
  lemma LongField(x: seq<byte>, field: seq<byte>, p: seq<byte>)
    requires |field| < 0x1_0000
    ensures x + U16(|field|) + field <= p <==>
      && x <= p && |p| >= |x| + 2 && ReadU16(p, |x|) == |field| && |p| >= |x| + 2 + |field|
      && p[|x| + 2..|x| + 2 + |field|] == field
  {
    PrefixExtend(x, U16(|field|), p);
    PrefixExtend(x + U16(|field|), field, p);
    if |p| >= |x| + 2 {
      SliceU16(p, |x|, |field|);
    }
  }

  lemma HelloIff(h: Hello, p: seq<byte>)
    requires LegalHello(h)
    ensures EncodeHello(h) <= p <==>
      && Preamble(h) <= p
      && |p| > 43 && p[43] == |h.sessionId| && |p| >= 44 + |h.sessionId| + 2 && p[44..44 + |h.sessionId|] == h.sessionId
      && var i := 44 + |h.sessionId|;
      && ReadU16(p, i) == |h.cipherSuites| && |p| > i + 2 + |h.cipherSuites|
      && p[i + 2..i + 2 + |h.cipherSuites|] == h.cipherSuites
      && var j := i + 2 + |h.cipherSuites|;
      && p[j] == |h.compression| && |p| >= j + 1 + |h.compression| + 2
      && p[j + 1..j + 1 + |h.compression|] == h.compression
      && ReadU16(p, j + 1 + |h.compression|) == h.extensionsLength
  {
    ShortField(Preamble(h), h.sessionId, p);
    LongField(UpToSessionId(h), h.cipherSuites, p);
    ShortField(UpToCiphers(h), h.compression, p);
    var k := |UpToCompression(h)|;
    PrefixExtend(UpToCompression(h), U16(h.extensionsLength), p);
    if |p| >= k + 2 {
      SliceU16(p, k, h.extensionsLength);
    }
  }

  lemma BlockSplit(p: seq<byte>, offset: nat, end: nat, e: Extension, rest: seq<byte>)
    requires offset <= end <= |p| && LegalExtension(e)
    ensures p[offset..end] == EncodeExtension(e) + rest <==>
      && offset + 4 + |e.body| <= end
      && ReadU16(p, offset) == e.kind && ReadU16(p, offset + 2) == |e.body|
      && p[offset + 4..offset + 4 + |e.body|] == e.body
      && p[offset + 4 + |e.body|..end] == rest
  {
    var b := p[offset..end];
    var kind, n := U16(e.kind), 4 + |e.body|;
    LongField(kind, e.body, b);
    PrefixSplit(EncodeExtension(e), rest, b);
    if n <= |b| {
      SliceU16(b, 0, e.kind);
      assert kind <= b <==> b[0..2] == kind;
      SliceOfSlice(p, offset, end, 4, n);
      SliceOfSlice(p, offset, end, n, end - offset);
    }
  }

  /** A body yields a name exactly when it is a host_name entry for it. */
  lemma HostNameIff(body: seq<byte>, listLength: uint16, name: seq<byte>, padding: seq<byte>)
    requires |name| < 0x1_0000 && listLength >= 3
    ensures body == NameBody(listLength, name, padding) ==> HostName(body) == Some(name)
  {
    if body == NameBody(listLength, name, padding) {
      assert body[..2] == U16(listLength) && body[3..5] == U16(|name|);
      assert body[5..5 + |name|] == name;
    }
  }

  lemma HostNameReads(body: seq<byte>) returns (listLength: uint16, padding: seq<byte>)
    requires HostName(body).Some?
    ensures listLength >= 3 && |HostName(body).value| < 0x1_0000
    ensures body == NameBody(listLength, HostName(body).value, padding)
  {
    listLength := ReadU16(body, 0);
    var n := ReadU16(body, 3);
    padding := body[5 + n..];
    SliceU16(body, 0, listLength);
    SliceU16(body, 3, n);
    assert body == body[0..2] + [body[2]] + body[3..5] + body[5..5 + n] + body[5 + n..];
  }

  lemma NoExtension(last: seq<byte>, tail: seq<byte>)
    ensures EncodeExtensions([]) + last + tail == last + tail
  {
  }

  lemma FirstExtension(es: seq<Extension>, last: seq<byte>, tail: seq<byte>)
    requires LegalExtensions(es) && es != []
    ensures EncodeExtensions(es) + last + tail == EncodeExtension(es[0]) + (EncodeExtensions(es[1..]) + last + tail)
  {
    Regroup(EncodeExtension(es[0]), EncodeExtensions(es[1..]), last, tail);
  }

  lemma Regroup(a: seq<byte>, b: seq<byte>, c: seq<byte>, d: seq<byte>)
    ensures a + b + c + d == a + (b + c + d)
  {
  }

  lemma ScanStep(p: seq<byte>, offset: nat, end: nat, e: Extension, rest: seq<byte>)
    requires offset <= end <= |p| && LegalExtension(e)
    requires p[offset..end] == EncodeExtension(e) + rest
    ensures offset + 4 + |e.body| <= end && p[offset + 4 + |e.body|..end] == rest
    ensures Scan(p, offset, end) == if e.kind == EXTENSION_SNI then HostName(e.body)
      else Scan(p, offset + 4 + |e.body|, end)
  {
    BlockSplit(p, offset, end, e, rest);
  }

  /** Scanning an encoded block finds the name behind any other extensions. */
  lemma {:induction false} ScanFinds(last: Extension, before: seq<Extension>, tail: seq<byte>, p: seq<byte>,
          offset: nat, end: nat)
    requires LegalExtension(last) && last.kind == EXTENSION_SNI
    requires LegalExtensions(before) && (forall e :: e in before ==> e.kind != EXTENSION_SNI)
    requires offset <= end <= |p|
    requires p[offset..end] == EncodeExtensions(before) + EncodeExtension(last) + tail
    ensures Scan(p, offset, end) == HostName(last.body)
    decreases |before|
  {
    if before == [] {
      NoExtension(EncodeExtension(last), tail);
      ScanStep(p, offset, end, last, tail);
    } else {
      var e := before[0];
      var rest := EncodeExtensions(before[1..]) + EncodeExtension(last) + tail;
      FirstExtension(before, EncodeExtension(last), tail);
      ScanStep(p, offset, end, e, rest);
      ScanFinds(last, before[1..], tail, p, offset + 4 + |e.body|, end);
    }
  }

  /** What a successful scan has walked over. */
  lemma {:induction false} ScanReads(p: seq<byte>, offset: nat, end: nat)
      returns (before: seq<Extension>, body: seq<byte>, tail: seq<byte>)
    requires offset <= end <= |p| && Scan(p, offset, end).Some?
    ensures LegalExtensions(before) && forall e :: e in before ==> e.kind != EXTENSION_SNI
    ensures |body| < 0x1_0000 && HostName(body) == Scan(p, offset, end)
    ensures p[offset..end] == EncodeExtensions(before) + EncodeExtension(Extension(EXTENSION_SNI, body)) + tail
    decreases end - offset
  {
    var e, next := ExtensionAt(p, offset, end);
    ScanStep(p, offset, end, e, p[next..end]);
    if e.kind == EXTENSION_SNI {
      before, body, tail := [], e.body, p[next..end];
      NoExtension(EncodeExtension(e), tail);
    } else {
      var more;
      more, body, tail := ScanReads(p, next, end);
      before := [e] + more;
      assert before[0] == e && before[1..] == more;
      FirstExtension(before, EncodeExtension(Extension(EXTENSION_SNI, body)), tail);
    }
  }

  lemma ExtensionAt(p: seq<byte>, offset: nat, end: nat) returns (e: Extension, next: nat)
    requires offset <= end <= |p| && Scan(p, offset, end).Some?
    ensures LegalExtension(e) && next == offset + 4 + |e.body| <= end
    ensures p[offset..end] == EncodeExtension(e) + p[next..end]
  {
    var size: int := ReadU16(p, offset + 2);
    next := offset + 4 + size;
    e := Extension(ReadU16(p, offset), p[offset + 4..next]);
    BlockSplit(p, offset, end, e, p[next..end]);
  }

  /** The decoder finds the extension block behind an encoded hello. */
  lemma BlockFound(h: Hello, block: seq<byte>, trailing: seq<byte>, p: seq<byte>)
    requires LegalHello(h) && p == EncodeHello(h) + block + trailing
    requires 0x0300 <= h.recordVersion <= 0x0304 && h.recordLength <= |p| - 5
    requires |block| == h.extensionsLength || (trailing == [] && |block| <= h.extensionsLength)
    ensures IsTlsClientHello(p)
    ensures var start := |EncodeHello(h)|;
      ExtensionBlock(p) == Some((start, start + |block|)) && p[start..start + |block|] == block
  {
    assert EncodeHello(h) <= p by {
      assert p == EncodeHello(h) + (block + trailing);
    }
    HelloIff(h, p);
    PreambleIff(h, p);
  }

  lemma ScanOfBlock(r: Reading, p: seq<byte>, offset: nat, end: nat)
    requires LegalReading(r) && offset <= end <= |p| && p[offset..end] == Block(r)
    ensures Scan(p, offset, end) == Some(r.name)
  {
    ScanFinds(NameExtension(r), r.before, r.tail, p, offset, end);
    HostNameIff(NameExtension(r).body, r.listLength, r.name, r.padding);
  }

  /** The encoder's bytes decode to the name that was put in, whatever the
      session id, cipher suites, compression methods, other extensions,
      padding and trailing bytes. */
  lemma DecodeEncoded(r: Reading, p: seq<byte>)
    requires Describes(r, p)
    ensures ServerName(p) == Some(r.name)
  {
    var start := |EncodeHello(r.hello)|;
    var end := start + |Block(r)|;
    BlockFound(r.hello, Block(r), r.trailing, p);
    ScanOfBlock(r, p, start, end);
  }

  function HelloAt(p: seq<byte>): (h: Hello)
    requires IsTlsClientHello(p) && ExtensionBlock(p).Some?
    ensures LegalHello(h)
  {
    var ciphers := 44 + p[43] as int;
    var compression := ciphers + 2 + ReadU16(p, ciphers);
    var extensions := compression + 1 + p[compression] as int;
    Hello(ReadU16(p, 1), ReadU16(p, 3), ReadU24(p, 6), ReadU16(p, 9), p[11..43], p[44..ciphers],
          p[ciphers + 2..compression], p[compression + 1..extensions], ReadU16(p, extensions))
  }

  lemma HelloReads(p: seq<byte>)
    requires IsTlsClientHello(p) && ExtensionBlock(p).Some?
    ensures EncodeHello(HelloAt(p)) <= p && |EncodeHello(HelloAt(p))| == ExtensionBlock(p).value.0
  {
    HelloIff(HelloAt(p), p);
    PreambleIff(HelloAt(p), p);
  }

  lemma Assemble(p: seq<byte>, h: Hello, end: nat, body: seq<byte>, r: Reading)
    requires LegalHello(h) && EncodeHello(h) <= p && |EncodeHello(h)| <= end <= |p|
    requires 0x0300 <= h.recordVersion <= 0x0304 && h.recordLength <= |p| - 5
    requires end == if |EncodeHello(h)| + h.extensionsLength > |p| then |p| else |EncodeHello(h)| + h.extensionsLength
    requires r.hello == h && r.trailing == p[end..] && LegalReading(r)
    requires body == NameBody(r.listLength, r.name, r.padding)
    requires p[|EncodeHello(h)|..end] ==
      EncodeExtensions(r.before) + EncodeExtension(Extension(EXTENSION_SNI, body)) + r.tail
    ensures Describes(r, p)
  {
    var start := |EncodeHello(h)|;
    assert NameExtension(r) == Extension(EXTENSION_SNI, body);
    assert p[start..end] == Block(r);
    assert p[..start] == EncodeHello(h);
    assert p == p[..start] + p[start..end] + p[end..];
  }

  lemma ReadingOf(p: seq<byte>) returns (r: Reading)
    requires ServerName(p).Some?
    ensures Describes(r, p) && Some(r.name) == ServerName(p)
  {
    var (start, end) := ExtensionBlock(p).value;
    var before, body, tail := ScanReads(p, start, end);
    var listLength, padding := HostNameReads(body);
    HelloReads(p);
    var h := HelloAt(p);
    r := Reading(h, before, listLength, HostName(body).value, padding, tail, p[end..]);
    assert |body| == 5 + |r.name| + |padding|;
    assert LegalReading(r);
    Assemble(p, h, end, body, r);
  }

  /** The decoder returns a name exactly when the payload is a ClientHello, read
      by the grammar, whose first server_name extension carries that name. The grammar
      does not ask for true lengths of record, message, extension block or name list. */
  lemma ServerNameIffGrammar(p: seq<byte>, name: seq<byte>)
    ensures ServerName(p) == Some(name) <==> CarriesName(p, name)
  {
    if CarriesName(p, name) {
      var r: Reading :| Describes(r, p) && r.name == name;
      DecodeEncoded(r, p);
    }
    if ServerName(p) == Some(name) {
      var r := ReadingOf(p);
      assert Describes(r, p) && r.name == name;
    }
  }

  // ---------------------------------------------------------------- messages of the standard

  /** The names of a server_name extension: a host name and whatever other names follow. */
  datatype ServerNames = ServerNames(host: seq<byte>, others: seq<byte>)

  /** A ClientHello with its fields only: the lengths follow from them. */
  datatype ClientHello = ClientHello(
    recordVersion: uint16, clientVersion: uint16, random: seq<byte>, sessionId: seq<byte>, cipherSuites: seq<byte>,
    compression: seq<byte>, before: seq<Extension>, server: Option<ServerNames>, after: seq<Extension>)

  predicate NoServerName(es: seq<Extension>) {
    forall e :: e in es ==> e.kind != EXTENSION_SNI
  }

  /** The server_name extension as section 3 of RFC 6066 has it: all its lengths are true. */
  predicate LegalNames(names: ServerNames) {
    0 < |names.host| && 5 + |names.host| + |names.others| < 0x1_0000
  }

  function NamesExtension(names: ServerNames): (e: Extension)
    requires LegalNames(names)
    ensures LegalExtension(e) && e.kind == EXTENSION_SNI
  {
    Extension(EXTENSION_SNI, NameBody(3 + |names.host| + |names.others|, names.host, names.others))
  }

  predicate LegalParts(m: ClientHello) {
    && LegalExtensions(m.before) && LegalExtensions(m.after) && NoServerName(m.before) && NoServerName(m.after)
    && (m.server.Some? ==> LegalNames(m.server.value))
  }

  function Extensions(m: ClientHello): (es: seq<Extension>)
    requires LegalParts(m)
    ensures LegalExtensions(es)
  {
    m.before + (if m.server.Some? then [NamesExtension(m.server.value)] else []) + m.after
  }

  function HelloOf(m: ClientHello, handshakeLength: nat, recordLength: uint16, extensionsLength: uint16): Hello {
    Hello(m.recordVersion, recordLength, handshakeLength, m.clientVersion, m.random, m.sessionId, m.cipherSuites,
          m.compression, extensionsLength)
  }

  /** The length of the handshake message behind its header. */
  function BodyLength(m: ClientHello): nat
    requires LegalParts(m)
  {
    40 + |m.sessionId| + |m.cipherSuites| + |m.compression| + |EncodeExtensions(Extensions(m))|
  }

  /** A message that fits one record, with the bounds of sections 6.2.1, 7.4 and 7.4.1.2 of
      RFC 5246, at most one server_name extension, and a record version that the decoder
      knows. */
  predicate Conforms(m: ClientHello) {
    && 0x0300 <= m.recordVersion <= 0x0304 && |m.random| == 32 && |m.sessionId| <= 32
    && 2 <= |m.cipherSuites| < 0xffff && |m.cipherSuites| % 2 == 0 && 1 <= |m.compression| < 0x100
    && LegalParts(m) && 4 + BodyLength(m) <= 0x4000
  }

  /** Its record, with true lengths throughout. */
  function EncodeRecord(m: ClientHello): seq<byte>
    requires Conforms(m)
  {
    var extensions := EncodeExtensions(Extensions(m));
    EncodeHello(HelloOf(m, BodyLength(m), 4 + BodyLength(m), |extensions|)) + extensions
  }

  /** The lengths of the record and of the handshake message are those of what follows. */
  lemma RecordLengths(m: ClientHello)
    requires Conforms(m)
    ensures |EncodeRecord(m)| == 9 + BodyLength(m)
    ensures ReadU16(EncodeRecord(m), 3) == |EncodeRecord(m)| - 5 && ReadU24(EncodeRecord(m), 6) == |EncodeRecord(m)| - 9
  {
    var h := HelloOf(m, BodyLength(m), 4 + BodyLength(m), |EncodeExtensions(Extensions(m))|);
    HelloIff(h, EncodeRecord(m));
    PreambleIff(h, EncodeRecord(m));
  }

  lemma {:induction false} ScanOfNone(es: seq<Extension>, p: seq<byte>, offset: nat, end: nat)
    requires LegalExtensions(es) && NoServerName(es) && offset <= end <= |p| && p[offset..end] == EncodeExtensions(es)
    ensures Scan(p, offset, end) == None
    decreases |es|
  {
    if es == [] {
      assert |p[offset..end]| == 0;
    } else {
      ScanStep(p, offset, end, es[0], EncodeExtensions(es[1..]));
      ScanOfNone(es[1..], p, offset + 4 + |es[0].body|, end);
    }
  }

  lemma {:induction false} EncodeJoin(a: seq<Extension>, b: seq<Extension>)
    requires LegalExtensions(a) && LegalExtensions(b)
    ensures EncodeExtensions(a + b) == EncodeExtensions(a) + EncodeExtensions(b)
    decreases |a|
  {
    if a == [] {
      assert a + b == b;
    } else {
      EncodeJoin(a[1..], b);
      assert (a + b)[0] == a[0] && (a + b)[1..] == a[1..] + b;
    }
  }

  lemma EncodeOne(e: Extension)
    requires LegalExtension(e)
    ensures EncodeExtensions([e]) == EncodeExtension(e)
  {
    assert [e][1..] == [];
  }

  lemma ScanOfExtensions(m: ClientHello, p: seq<byte>, offset: nat, end: nat)
    requires LegalParts(m) && offset <= end <= |p| && p[offset..end] == EncodeExtensions(Extensions(m))
    ensures Scan(p, offset, end) == if m.server.Some? then Some(m.server.value.host) else None
  {
    if m.server.Some? {
      var last, names := NamesExtension(m.server.value), m.server.value;
      EncodeOne(last);
      EncodeJoin(m.before, [last]);
      EncodeJoin(m.before + [last], m.after);
      ScanFinds(last, m.before, EncodeExtensions(m.after), p, offset, end);
      HostNameIff(last.body, 3 + |names.host| + |names.others|, names.host, names.others);
    } else {
      assert Extensions(m) == m.before + m.after;
      ScanOfNone(m.before + m.after, p, offset, end);
    }
  }

  /** Every ClientHello of the standard in one record is decoded right, whatever follows the
      record: to its host name, or to nothing if it has no server_name. */
  lemma ConformingDecodes(m: ClientHello, rest: seq<byte>)
    requires Conforms(m)
    ensures ServerName(EncodeRecord(m) + rest) == if m.server.Some? then Some(m.server.value.host) else None
  {
    var extensions := EncodeExtensions(Extensions(m));
    var h := HelloOf(m, BodyLength(m), 4 + BodyLength(m), |extensions|);
    var p, start := EncodeRecord(m) + rest, |EncodeHello(h)|;
    RecordLengths(m);
    BlockFound(h, extensions, rest, p);
    ScanOfExtensions(m, p, start, start + |extensions|);
  }

  // ---------------------------------------------------------------- generator

  const SUPPORTED_VERSIONS := Extension(0x002b, [2, 0x03, 0x04])

  function GeneratedExtensions(sni: seq<byte>): (b: seq<byte>)
    requires |sni| <= 0xffff - 65
    ensures |b| == |sni| + 16
  {
    var entry := [0] + U16(|sni|) + sni;
    var list := U16(|entry|) + entry;
    var sniExtension := U16(0x0000) + U16(|list|) + list;
    var supportedVersions := U16(0x002b) + U16(3) + [2] + U16(0x0304);
    sniExtension + supportedVersions
  }

  /** `create_tls_client_hello`: the random bytes are a parameter. Packing fails
      when a length does not fit its field. */
  function CreateClientHello(sni: seq<byte>, random: seq<byte>): Option<seq<byte>>
    requires |random| == 32
  {
    if |sni| > 0xffff - 65 then None
    else
      var extensions := GeneratedExtensions(sni);
      var body := U16(0x0303) + random + [0] + U16(4) + U16(0x1301) + U16(0x1302) + [1, 0] + U16(|extensions|) +
          extensions;
      var handshake := [0x01] + U24(|body|) + body;
      Some([0x16] + U16(0x0301) + U16(|handshake|) + handshake)
  }

  /** The generator's messages decode to the name they were made for. */
  lemma GeneratedHelloDecodes(sni: seq<byte>, random: seq<byte>)
    requires |random| == 32
    ensures CreateClientHello(sni, random).Some? <==> |sni| <= 0xffff - 65
    ensures CreateClientHello(sni, random).Some? ==> ServerName(CreateClientHello(sni, random).value) == Some(sni)
  {
    if |sni| <= 0xffff - 65 {
      var p := CreateClientHello(sni, random).value;
      var n: int := |sni|;
      var h := Hello(0x0301, n + 65, n + 61, 0x0303, random, [], U16(0x1301) + U16(0x1302), [0], n + 16);
      var r := Reading(h, [], n + 3, sni, [], EncodeExtension(SUPPORTED_VERSIONS), []);
      assert |Block(r)| == n + 16;
      GeneratedIsEncoded(sni, random, r);
      assert Describes(r, p);
      DecodeEncoded(r, p);
    }
  }

  /** The fixed part of a generated handshake body. */
  function GeneratedFront(random: seq<byte>, extensionsLength: uint16): (b: seq<byte>)
    requires |random| == 32
    ensures |b| == 45
  {
    U16(0x0303) + random + [0] + U16(4) + U16(0x1301) + U16(0x1302) + [1, 0] + U16(extensionsLength)
  }

  lemma GeneratedHelloShape(h: Hello)
    requires LegalHello(h) && h.clientVersion == 0x0303 && h.sessionId == []
    requires h.cipherSuites == U16(0x1301) + U16(0x1302) && h.compression == [0]
    ensures EncodeHello(h) == RecordHeader(h) + U24(h.handshakeLength) + GeneratedFront(h.random, h.extensionsLength)
  {
    var a := RecordHeader(h) + U24(h.handshakeLength);
    var b := U16(0x0303) + h.random;
    assert Preamble(h) == a + b;
    assert UpToSessionId(h) == a + (b + [0]);
    assert UpToCiphers(h) == a + (b + [0] + U16(4) + U16(0x1301) + U16(0x1302));
    assert UpToCompression(h) == a + (b + [0] + U16(4) + U16(0x1301) + U16(0x1302) + [1, 0]);
  }

  lemma GeneratedBlock(sni: seq<byte>, r: Reading)
    requires |sni| <= 0xffff - 65
    requires LegalReading(r) && r.before == [] && r.listLength == |sni| + 3 && r.name == sni && r.padding == []
    requires r.tail == EncodeExtension(SUPPORTED_VERSIONS)
    ensures Block(r) == GeneratedExtensions(sni)
  {
    var list := NameBody(|sni| + 3, sni, []);
    var entry := [0] + U16(|sni|) + sni;
    assert list == U16(|entry|) + entry;
    assert r.tail == U16(0x002b) + U16(3) + [2] + U16(0x0304);
    assert EncodeExtension(NameExtension(r)) == U16(0x0000) + U16(|list|) + list;
    assert Block(r) == EncodeExtension(NameExtension(r)) + r.tail;
  }

  lemma RecordParts(a: seq<byte>, b: seq<byte>, c: seq<byte>, front: seq<byte>, extensions: seq<byte>)
    ensures a + (b + c + (front + extensions)) == a + b + c + front + extensions + []
  {
  }

  lemma GeneratedIsEncoded(sni: seq<byte>, random: seq<byte>, r: Reading)
    requires |random| == 32 && |sni| <= 0xffff - 65
    requires r == Reading(
      Hello(0x0301, |sni| + 65, |sni| + 61, 0x0303, random, [], U16(0x1301) + U16(0x1302), [0], |sni| + 16),
      [], |sni| + 3, sni, [], EncodeExtension(SUPPORTED_VERSIONS), [])
    ensures CreateClientHello(sni, random) == Some(EncodeHello(r.hello) + Block(r) + r.trailing)
    ensures |Block(r)| == |sni| + 16
  {
    GeneratedBlock(sni, r);
    GeneratedHelloShape(r.hello);
    var start := [0x16] + U16(0x0301) + U16(|sni| + 65);
    assert start + [0x01] == RecordHeader(r.hello);
    RecordParts(start, [0x01], U24(|sni| + 61), GeneratedFront(random, |sni| + 16), GeneratedExtensions(sni));
  }
}
