/** Reading the queried name out of a DNS message: the decoder, what it returns
    on any buffer, and the exact names that survive encoding and decoding. */
module DnsQuery {
  import opened Types
  import opened Bytes

  const DOT: byte := 46

  // ---------------------------------------------------------------- decoder

  predicate IsDnsQuery(p: seq<byte>) {
    && |p| >= 12
    && !HasFlag(p[2], 0x80)
    && ReadU16(p, 4) > 0
  }

  /** The complete labels found from an offset on, up to the first byte that is
      no length of a complete part. */
  function LabelsAt(p: seq<byte>, offset: nat): seq<seq<byte>>
    decreases |p| - offset
  {
    if offset >= |p| then []
    else
      var n: int := p[offset];
      if n == 0 || n > 63 || offset + 1 + n > |p| then []
      else [p[offset + 1..offset + 1 + n]] + LabelsAt(p, offset + 1 + n)
  }

  /** Labels with dots between them. */
  function Join(labels: seq<seq<byte>>): seq<byte> {
    if labels == [] then []
    else if |labels| == 1 then labels[0]
    else labels[0] + [DOT] + Join(labels[1..])
  }

  /** `DNSExtractor::extractQuery` as a function of the payload. */
  function QueryName(p: seq<byte>): Option<seq<byte>> {
    if !IsDnsQuery(p) then None
    else
      var labels := LabelsAt(p, 12);
      if labels == [] then None else Some(Join(labels))
  }

  predicate LegalLabel(part: seq<byte>) {
    1 <= |part| <= 63
  }

  predicate LegalLabels(labels: seq<seq<byte>>) {
    forall part :: part in labels ==> LegalLabel(part)
  }

  lemma {:induction false} JoinLast(labels: seq<seq<byte>>, last: seq<byte>)
    ensures Join(labels + [last]) == if labels == [] then last else Join(labels) + [DOT] + last
  {
    if labels == [] {
      assert labels + [last] == [last];
    } else {
      assert (labels + [last])[1..] == labels[1..] + [last];
      JoinLast(labels[1..], last);
      if |labels| > 1 {
        assert labels[0] + [DOT] + (Join(labels[1..]) + [DOT] + last) ==
            labels[0] + [DOT] + Join(labels[1..]) + [DOT] + last;
      }
    }
  }

  lemma {:induction false} JoinEmpty(labels: seq<seq<byte>>)
    requires LegalLabels(labels)
    ensures Join(labels) == [] <==> labels == []
  {
    if |labels| == 1 {
      assert LegalLabel(labels[0]);
    }
  }

  /** One more complete label at the offset. */
  lemma Collected(p: seq<byte>, offset: nat, done: seq<seq<byte>>, part: seq<byte>)
    requires offset + 1 + |part| <= |p| && LegalLabel(part) && p[offset] == |part|
    requires part == p[offset + 1..offset + 1 + |part|]
    ensures done + LabelsAt(p, offset) == done + [part] + LabelsAt(p, offset + 1 + |part|)
  {
    assert LabelsAt(p, offset) == [part] + LabelsAt(p, offset + 1 + |part|);
  }

  /** What the loop body does to the name. */
  lemma NameGrows(done: seq<seq<byte>>, part: seq<byte>)
    requires LegalLabels(done) && LegalLabel(part)
    ensures LegalLabels(done + [part])
    ensures Join(done + [part]) == (if Join(done) == [] then Join(done) else Join(done) + [DOT]) + part
  {
    JoinEmpty(done);
    JoinLast(done, part);
    assert [] + part == part;
  }

  /** `DNSExtractor::extractQuery` as it runs: an offset moving over the buffer
      and a name growing label by label. */
  method ExtractQuery(p: seq<byte>) returns (name: Option<seq<byte>>)
    ensures name == QueryName(p)
  {
    if !IsDnsQuery(p) { return None; }
    var offset := 12;
    var domain: seq<byte> := [];
    ghost var done: seq<seq<byte>> := [];
    while offset < |p|
      invariant 12 <= offset <= |p|
      invariant LegalLabels(done) && domain == Join(done)
      invariant LabelsAt(p, 12) == done + LabelsAt(p, offset)
      decreases |p| - offset
    {
      var labelLength: int := p[offset];
      if labelLength == 0 || labelLength > 63 { break; }
      if offset + 1 + labelLength > |p| { break; }
      offset := offset + 1;
      var part := p[offset..offset + labelLength];
      Collected(p, offset - 1, done, part);
      NameGrows(done, part);
      if domain != [] { domain := domain + [DOT]; }
      domain := domain + part;
      done := done + [part];
      offset := offset + labelLength;
    }
    assert LabelsAt(p, offset) == [];
    assert LabelsAt(p, 12) == done;
    JoinEmpty(done);
    return if domain == [] then None else Some(domain);
  }

  // ---------------------------------------------------------------- grammar

  /** Labels as RFC 1035 section 3.1 writes them: a length byte in front of each. */
  function EncodeLabels(labels: seq<seq<byte>>): seq<byte>
    requires forall part :: part in labels ==> |part| < 0x100
  {
    if labels == [] then [] else [|labels[0]|] + labels[0] + EncodeLabels(labels[1..])
  }

  /** The question of the message starts with these labels, all complete. */
  predicate StartsWithRun(p: seq<byte>, offset: nat, labels: seq<seq<byte>>) {
    LegalLabels(labels) && offset <= |p| && EncodeLabels(labels) <= p[offset..]
  }

  predicate HoldsLabel(p: seq<byte>, offset: nat, part: seq<byte>) {
    offset + 1 + |part| <= |p| && p[offset] == |part| && p[offset + 1..offset + 1 + |part|] == part
  }

  lemma OneLabel(p: seq<byte>, offset: nat, part: seq<byte>, rest: seq<byte>)
    requires LegalLabel(part) && offset <= |p|
    ensures [|part|] + part + rest <= p[offset..] <==>
      HoldsLabel(p, offset, part) && rest <= p[offset + 1 + |part|..]
  {
    var q := p[offset..];
    var n := 1 + |part|;
    if n <= |q| {
      assert q[..n] == [p[offset]] + p[offset + 1..offset + n];
      assert q == q[..n] + p[offset + n..];
      var head := [|part|] + part;
      if head + rest <= q {
        assert (head + rest)[..n] == head == q[..n];
        assert head[0] == q[0] && head[1..] == q[..n][1..] == p[offset + 1..offset + n];
        assert (head + rest)[n..] == rest;
      }
    }
  }

  lemma RunStep(p: seq<byte>, offset: nat, part: seq<byte>, rest: seq<seq<byte>>)
    requires offset <= |p| && LegalLabel(part) && LegalLabels(rest)
    requires HoldsLabel(p, offset, part) ==>
      (EncodeLabels(rest) <= p[offset + 1 + |part|..] <==> rest <= LabelsAt(p, offset + 1 + |part|))
    ensures [|part|] + part + EncodeLabels(rest) <= p[offset..] <==> [part] + rest <= LabelsAt(p, offset)
  {
    OneLabel(p, offset, part, EncodeLabels(rest));
    FirstDecoded(p, offset, part);
    PrefixByParts(part, rest, LabelsAt(p, offset));
  }

  lemma {:induction false} LegalRunIffPrefix(p: seq<byte>, offset: nat, labels: seq<seq<byte>>)
    requires offset <= |p| && LegalLabels(labels)
    ensures EncodeLabels(labels) <= p[offset..] <==> labels <= LabelsAt(p, offset)
    decreases |labels|
  {
    if labels == [] {
    } else {
      var part, rest := labels[0], labels[1..];
      FirstLabel(labels);
      if HoldsLabel(p, offset, part) {
        LegalRunIffPrefix(p, offset + 1 + |part|, rest);
      }
      RunStep(p, offset, part, rest);
    }
  }

  lemma FirstLabel(labels: seq<seq<byte>>)
    requires labels != [] && LegalLabels(labels)
    ensures labels == [labels[0]] + labels[1..]
    ensures LegalLabel(labels[0]) && LegalLabels(labels[1..])
    ensures EncodeLabels(labels) == [|labels[0]|] + labels[0] + EncodeLabels(labels[1..])
  {
  }

  /** A run starts the question exactly when it starts the labels the decoder
      collects. */
  lemma RunIffPrefix(p: seq<byte>, offset: nat, labels: seq<seq<byte>>)
    requires offset <= |p|
    ensures StartsWithRun(p, offset, labels) <==> labels <= LabelsAt(p, offset)
  {
    DecodedLabelsAreLegal(p, offset);
    PrefixIsLegal(labels, LabelsAt(p, offset));
    if LegalLabels(labels) {
      LegalRunIffPrefix(p, offset, labels);
    }
  }

  lemma PrefixIsLegal(labels: seq<seq<byte>>, whole: seq<seq<byte>>)
    ensures labels <= whole && LegalLabels(whole) ==> LegalLabels(labels)
  {
    if labels <= whole {
      assert forall l :: l in labels ==> l in whole;
    }
  }

  lemma PrefixByParts(part: seq<byte>, rest: seq<seq<byte>>, whole: seq<seq<byte>>)
    ensures [part] + rest <= whole <==> whole != [] && whole[0] == part && rest <= whole[1..]
  {
    if whole != [] {
      assert whole == [whole[0]] + whole[1..];
      if [part] + rest <= whole {
        assert rest == ([part] + rest)[1..] <= whole[1..];
      }
    }
  }

  lemma FirstDecoded(p: seq<byte>, offset: nat, part: seq<byte>)
    requires LegalLabel(part)
    ensures HoldsLabel(p, offset, part) <==> LabelsAt(p, offset) != [] && LabelsAt(p, offset)[0] == part
    ensures HoldsLabel(p, offset, part) ==> LabelsAt(p, offset)[1..] == LabelsAt(p, offset + 1 + |part|)
  {
  }

  lemma {:induction false} DecodedLabelsAreLegal(p: seq<byte>, offset: nat)
    ensures LegalLabels(LabelsAt(p, offset))
    decreases |p| - offset
  {
    if offset >= |p| {
    } else {
      var n: int := p[offset];
      if n != 0 && n <= 63 && offset + 1 + n <= |p| {
        DecodedLabelsAreLegal(p, offset + 1 + n);
      }
    }
  }

  ghost predicate LongestRun(p: seq<byte>, labels: seq<seq<byte>>) {
    && StartsWithRun(p, 12, labels)
    && forall other :: StartsWithRun(p, 12, other) ==> |other| <= |labels|
  }

  /** A header as section 4.1.1 of RFC 1035 has it, without the response bit and with a question. */
  predicate AsksSomething(p: seq<byte>) {
    |p| >= 12 && p[2] < 0x80 && (p[4] != 0 || p[5] != 0)
  }

  lemma QueryIff(p: seq<byte>)
    ensures IsDnsQuery(p) <==> AsksSomething(p)
  {
  }

  lemma LongestRunIff(p: seq<byte>)
    requires |p| >= 12
    ensures forall labels :: LongestRun(p, labels) <==> labels == LabelsAt(p, 12)
  {
    var found := LabelsAt(p, 12);
    RunIffPrefix(p, 12, found);
    forall other | StartsWithRun(p, 12, other)
      ensures |other| <= |found|
    {
      RunIffPrefix(p, 12, other);
    }
    assert LongestRun(p, found);
    forall labels | LongestRun(p, labels)
      ensures labels == found
    {
      RunIffPrefix(p, 12, labels);
      assert |found| <= |labels|;
      assert labels == found[..|labels|];
    }
  }

  /** On every buffer that starts with the header of a query, and only there, the decoder returns
      the dotted form of the longest run of complete labels in the question. */
  lemma QueryNameIsLongestRun(p: seq<byte>, name: seq<byte>)
    ensures QueryName(p) == Some(name) <==>
      AsksSomething(p) && exists labels :: labels != [] && LongestRun(p, labels) && name == Join(labels)
  {
    QueryIff(p);
    if |p| >= 12 {
      LongestRunIff(p);
      assert LongestRun(p, LabelsAt(p, 12));
    }
  }

  // ---------------------------------------------------------------- generator

  /** Python's `split('.')`: always at least one part, possibly empty ones. */
  function Split(domain: seq<byte>): (parts: seq<seq<byte>>)
    ensures |parts| >= 1
  {
    if domain == [] then [[]]
    else
      var rest := Split(domain[1..]);
      if domain[0] == DOT then [[]] + rest
      else [[domain[0]] + rest[0]] + rest[1..]
  }

  lemma JoinFirst(first: seq<byte>, rest: seq<seq<byte>>)
    ensures Join([first] + rest) == if rest == [] then first else first + [DOT] + Join(rest)
  {
    assert ([first] + rest)[1..] == rest;
  }

  lemma JoinLonger(b: byte, first: seq<byte>, rest: seq<seq<byte>>)
    ensures Join([[b] + first] + rest) == [b] + Join([first] + rest)
  {
    JoinFirst(first, rest);
    JoinFirst([b] + first, rest);
    if rest != [] {
      assert ([b] + first) + [DOT] + Join(rest) == [b] + (first + [DOT] + Join(rest));
    }
  }

  lemma {:induction false} JoinOfSplit(domain: seq<byte>)
    ensures Join(Split(domain)) == domain
  {
    if domain == [] {
    } else {
      JoinOfSplit(domain[1..]);
      var rest := Split(domain[1..]);
      assert domain == [domain[0]] + domain[1..];
      if domain[0] == DOT {
        JoinFirst([], rest);
      } else {
        assert rest == [rest[0]] + rest[1..];
        JoinLonger(domain[0], rest[0], rest[1..]);
      }
    }
  }

  lemma {:induction false} SplitOfLabel(part: seq<byte>, more: seq<byte>)
    requires DOT !in part
    ensures Split(part) == [part]
    ensures Split(part + [DOT] + more) == [part] + Split(more)
  {
    var whole := part + [DOT] + more;
    if part == [] {
      assert whole[1..] == more && whole[0] == DOT;
    } else {
      assert whole[1..] == part[1..] + [DOT] + more;
      SplitOfLabel(part[1..], more);
      assert part == [part[0]] + part[1..];
    }
  }

  lemma {:induction false} SplitOfJoin(labels: seq<seq<byte>>)
    requires labels != [] && forall part :: part in labels ==> 46 !in part
    ensures Split(Join(labels)) == labels
  {
    SplitOfLabel(labels[0], Join(labels[1..]));
    if |labels| > 1 {
      SplitOfJoin(labels[1..]);
      assert labels == [labels[0]] + labels[1..];
    } else {
      assert labels == [labels[0]];
    }
  }

  /** Identifier, flags of a standard query, and the four counts. */
  function QueryHeader(txid: uint16): (b: seq<byte>)
    ensures |b| == 12 && b[2] == 1 && b[4] == 0 && b[5] == 1
  {
    U16(txid) + U16(0x0100) + (U16(1) + U16(0) + U16(0) + U16(0))
  }

  /** `create_dns_query`; the transaction id is a parameter. Packing a label
      length above 255 fails. */
  function CreateDnsQuery(txid: uint16, domain: seq<byte>): Option<seq<byte>> {
    if exists part :: part in Split(domain) && |part| >= 0x100 then None
    else Some(QueryHeader(txid) +
              EncodeLabels(Split(domain)) + [0] + U16(1) + U16(1))
  }

  /** The labels in front of the first one that is empty or too long. */
  function LegalPrefix(labels: seq<seq<byte>>): seq<seq<byte>> {
    if labels == [] || !LegalLabel(labels[0]) then [] else [labels[0]] + LegalPrefix(labels[1..])
  }

  lemma LabelAhead(p: seq<byte>, offset: nat, part: seq<byte>, after: seq<byte>)
    requires offset <= |p| && |part| < 0x100 && p[offset..] == [|part|] + part + after
    ensures offset + 1 + |part| <= |p| && p[offset] == |part|
    ensures p[offset + 1..offset + 1 + |part|] == part && p[offset + 1 + |part|..] == after
  {
    var q, n := p[offset..], 1 + |part|;
    assert p[offset] == q[0];
    assert p[offset + 1..offset + n] == q[1..n] == part;
    assert p[offset + n..] == q[n..] == after;
  }

  lemma EncodedFirst(labels: seq<seq<byte>>, rest: seq<byte>)
    requires labels != [] && forall part :: part in labels ==> |part| < 0x100
    ensures EncodeLabels(labels) + [0] + rest == [|labels[0]|] + labels[0] + (EncodeLabels(labels[1..]) + [0] + rest)
  {
    var head, more := [|labels[0]| as byte] + labels[0], EncodeLabels(labels[1..]);
    assert EncodeLabels(labels) == head + more;
    assert head + more + [0] + rest == head + (more + [0] + rest);
  }

  lemma LabelDecodes(p: seq<byte>, offset: nat, part: seq<byte>)
    requires HoldsLabel(p, offset, part)
    ensures LabelsAt(p, offset) == if LegalLabel(part) then [part] + LabelsAt(p, offset + 1 + |part|) else []
  {
  }

  lemma {:induction false} DecodeEncodedLabels(p: seq<byte>, offset: nat, labels: seq<seq<byte>>, rest: seq<byte>)
    requires offset <= |p| && forall part :: part in labels ==> |part| < 0x100
    requires p[offset..] == EncodeLabels(labels) + [0] + rest
    ensures LabelsAt(p, offset) == LegalPrefix(labels)
    decreases |labels|
  {
    if labels == [] {
      assert p[offset] == p[offset..][0] == 0;
    } else {
      var part := labels[0];
      var after := EncodeLabels(labels[1..]) + [0] + rest;
      EncodedFirst(labels, rest);
      LabelAhead(p, offset, part, after);
      LabelDecodes(p, offset, part);
      if LegalLabel(part) {
        DecodeEncodedLabels(p, offset + 1 + |part|, labels[1..], rest);
      }
    }
  }

  lemma {:induction false} ShorterJoin(labels: seq<seq<byte>>)
    ensures LegalPrefix(labels) == labels <==> LegalLabels(labels)
    ensures LegalPrefix(labels) != [] && LegalPrefix(labels) != labels ==> |Join(LegalPrefix(labels))| < |Join(labels)|
  {
    if labels == [] || !LegalLabel(labels[0]) {
    } else {
      var rest := labels[1..];
      ShorterJoin(rest);
      assert labels == [labels[0]] + rest;
      assert LegalPrefix(labels)[1..] == LegalPrefix(rest);
    }
  }

  lemma QueryOfGenerated(txid: uint16, domain: seq<byte>)
    requires CreateDnsQuery(txid, domain).Some?
    ensures QueryName(CreateDnsQuery(txid, domain).value) ==
      var labels := LegalPrefix(Split(domain)); if labels == [] then None else Some(Join(labels))
  {
    var parts := Split(domain);
    var p := CreateDnsQuery(txid, domain).value;
    GeneratedLayout(QueryHeader(txid), EncodeLabels(parts), p);
    DecodeEncodedLabels(p, 12, parts, U16(1) + U16(1));
  }

  lemma GeneratedLayout(header: seq<byte>, labels: seq<byte>, p: seq<byte>)
    requires |header| == 12 && header[2] == 1 && header[4] == 0 && header[5] == 1
    requires p == header + labels + [0] + U16(1) + U16(1)
    ensures IsDnsQuery(p) && p[12..] == labels + [0] + (U16(1) + U16(1))
  {
    assert p == header + (labels + [0] + (U16(1) + U16(1)));
  }

  /** A generated query decodes to the domain it was made for exactly when every
      label of the domain has between 1 and 63 bytes. */
  lemma GeneratedQueryDecodesIff(txid: uint16, domain: seq<byte>)
    ensures CreateDnsQuery(txid, domain).None? <==> exists part :: part in Split(domain) && |part| >= 0x100
    ensures CreateDnsQuery(txid, domain).Some? ==>
      (QueryName(CreateDnsQuery(txid, domain).value) == Some(domain) <==> LegalLabels(Split(domain)))
  {
    if CreateDnsQuery(txid, domain).Some? {
      QueryOfGenerated(txid, domain);
      ShorterJoin(Split(domain));
      JoinOfSplit(domain);
    }
  }

  /** In particular every list of dot-free labels of legal length comes back. */
  lemma LabelsSurvive(txid: uint16, labels: seq<seq<byte>>)
    requires labels != [] && LegalLabels(labels) && forall part :: part in labels ==> 46 !in part
    ensures CreateDnsQuery(txid, Join(labels)).Some?
    ensures QueryName(CreateDnsQuery(txid, Join(labels)).value) == Some(Join(labels))
  {
    SplitOfJoin(labels);
    GeneratedQueryDecodesIff(txid, Join(labels));
  }

  /** The shape of a query for a single label. */
  lemma OneLabelQuery(txid: uint16, name: seq<byte>)
    requires LegalLabel(name) && DOT !in name
    ensures CreateDnsQuery(txid, name).Some?
    ensures |CreateDnsQuery(txid, name).value| == |name| + 18
    ensures CreateDnsQuery(txid, name).value[0] == txid / 0x100
    ensures QueryName(CreateDnsQuery(txid, name).value) == Some(name)
  {
    SplitOfLabel(name, []);
    LabelsSurvive(txid, [name]);
    assert Join([name]) == name;
    assert EncodeLabels([name]) == [|name|] + name + EncodeLabels([]);
    assert QueryHeader(txid)[0] == txid / 0x100;
  }
}
