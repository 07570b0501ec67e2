/** Reading the Host header out of an unencrypted HTTP request. */
module HttpHost {
  import opened Types
  import opened Bytes
  import AppSignatures

  const COLON: byte := 58
  const CR: byte := 13
  const LF: byte := 10
  const SPACE: byte := 32
  const TAB: byte := 9

  const METHODS: seq<seq<byte>> := [
    TextBytes("GET "), TextBytes("POST"), TextBytes("PUT "), TextBytes("HEAD"),
    TextBytes("DELE"), TextBytes("PATC"), TextBytes("OPTI")]

  predicate IsHttpRequest(p: seq<byte>) {
    |p| >= 4 && p[..4] in METHODS
  }

  lemma MethodsAreLetters(m: seq<byte>)
    ensures m in METHODS ==> |m| == 4 && m[0] >= 65
  {
  }

  /** A payload that starts with a zero byte holds no request. */
  lemma ZeroIsNoRequest(p: seq<byte>)
    requires p != [] && p[0] == 0
    ensures Host(p) == None
  {
    if |p| >= 4 {
      assert p[..4][0] == p[0];
      MethodsAreLetters(p[..4]);
    }
  }

  predicate Blank(c: byte) {
    c == SPACE || c == TAB
  }

  predicate EndsLine(c: byte) {
    c == CR || c == LF
  }

  /** The header name and its colon, in any mix of cases. */
  predicate HeaderAt(p: seq<byte>, i: nat) {
    && i + 6 < |p|
    && (p[i] == 72 || p[i] == 104)
    && (p[i + 1] == 111 || p[i + 1] == 79)
    && (p[i + 2] == 115 || p[i + 2] == 83)
    && (p[i + 3] == 116 || p[i + 3] == 84)
    && p[i + 4] == COLON
  }

  function SkipBlanks(p: seq<byte>, i: nat): (j: nat)
    requires i <= |p|
    ensures i <= j <= |p|
    ensures forall k :: i <= k < j ==> Blank(p[k])
    ensures j < |p| ==> !Blank(p[j])
    decreases |p| - i
  {
    if i < |p| && Blank(p[i]) then SkipBlanks(p, i + 1) else i
  }

  function LineEnd(p: seq<byte>, i: nat): (j: nat)
    requires i <= |p|
    ensures i <= j <= |p|
    ensures forall k :: i <= k < j ==> !EndsLine(p[k])
    ensures j < |p| ==> EndsLine(p[j])
    decreases |p| - i
  {
    if i < |p| && !EndsLine(p[i]) then LineEnd(p, i + 1) else i
  }

  /** The value up to the port, if there is one. */
  function BeforeColon(value: seq<byte>): (host: seq<byte>)
    ensures COLON !in host
    ensures host <= value
    ensures host == value <==> COLON !in value
  {
    if value == [] || value[0] == COLON then []
    else
      assert value == [value[0]] + value[1..];
      [value[0]] + BeforeColon(value[1..])
  }

  /** The value of the header at an offset; empty when the line has none. */
  function ValueAt(p: seq<byte>, i: nat): seq<byte>
    requires HeaderAt(p, i)
  {
    var start := SkipBlanks(p, i + 5);
    p[start..LineEnd(p, start)]
  }

  function HostFrom(p: seq<byte>, i: nat): Option<seq<byte>>
    decreases |p| - i
  {
    if i + 6 >= |p| then None
    else if HeaderAt(p, i) && ValueAt(p, i) != [] then Some(BeforeColon(ValueAt(p, i)))
    else HostFrom(p, i + 1)
  }

  /** `HTTPHostExtractor::extract` as a function of the payload. */
  function Host(p: seq<byte>): Option<seq<byte>> {
    if IsHttpRequest(p) then HostFrom(p, 0) else None
  }

  /** `HTTPHostExtractor::extract` as it runs. */
  method Extract(p: seq<byte>) returns (host: Option<seq<byte>>)
    ensures host == Host(p)
  {
    if !IsHttpRequest(p) { return None; }
    var i := 0;
    while i + 6 < |p|
      invariant Host(p) == HostFrom(p, i)
    {
      if HeaderAt(p, i) {
        var start := i + 5;
        while start < |p| && Blank(p[start])
          invariant i + 5 <= start <= |p|
          invariant SkipBlanks(p, i + 5) == SkipBlanks(p, start)
        {
          start := start + 1;
        }
        var end := start;
        while end < |p| && !EndsLine(p[end])
          invariant start <= end <= |p|
          invariant LineEnd(p, start) == LineEnd(p, end)
        {
          end := end + 1;
        }
        assert ValueAt(p, i) == p[start..end];
        if end > start {
          return Some(BeforeColon(p[start..end]));
        }
      }
      i := i + 1;
    }
    return None;
  }

  /** The first offset from `i` on where a Host line has a value. */
  predicate FirstValueAt(p: seq<byte>, i: nat, k: nat) {
    && i <= k && HeaderAt(p, k) && ValueAt(p, k) != []
    && forall j :: i <= j < k && HeaderAt(p, j) ==> ValueAt(p, j) == []
  }

  lemma FirstValueLater(p: seq<byte>, i: nat, k: nat)
    requires FirstValueAt(p, i + 1, k) && !(HeaderAt(p, i) && ValueAt(p, i) != [])
    ensures FirstValueAt(p, i, k)
  {
  }

  lemma NoValueLater(p: seq<byte>, i: nat)
    requires forall k :: i + 1 <= k && HeaderAt(p, k) ==> ValueAt(p, k) == []
    requires !(HeaderAt(p, i) && ValueAt(p, i) != [])
    ensures forall k :: i <= k && HeaderAt(p, k) ==> ValueAt(p, k) == []
  {
  }

  /** The first Host line that has a value decides. */
  lemma {:induction false} HostFromIsFirst(p: seq<byte>, i: nat)
    ensures HostFrom(p, i).None? ==> forall k :: i <= k && HeaderAt(p, k) ==> ValueAt(p, k) == []
    ensures HostFrom(p, i).Some? ==>
      exists k :: FirstValueAt(p, i, k) && HostFrom(p, i) == Some(BeforeColon(ValueAt(p, k)))
    decreases |p| - i
  {
    if i + 6 >= |p| {
    } else {
      if HeaderAt(p, i) && ValueAt(p, i) != [] {
        assert FirstValueAt(p, i, i);
      } else {
        HostFromIsFirst(p, i + 1);
        if HostFrom(p, i).Some? {
          var k :| FirstValueAt(p, i + 1, k) && HostFrom(p, i + 1) == Some(BeforeColon(ValueAt(p, k)));
          FirstValueLater(p, i, k);
        } else {
          NoValueLater(p, i);
        }
      }
    }
  }

  /** What every extracted host looks like. */
  lemma HostShape(p: seq<byte>)
    requires Host(p).Some?
    ensures var host := Host(p).value;
      && (forall c :: c in host ==> c != COLON && !EndsLine(c))
      && (host != [] ==> !Blank(host[0]))
  {
    HostFromIsFirst(p, 0);
    var k: nat :| FirstValueAt(p, 0, k) && HostFrom(p, 0) == Some(BeforeColon(ValueAt(p, k)));
    ValueShape(p, k);
    var value := ValueAt(p, k);
    assert forall c :: c in BeforeColon(value) ==> c in value;
  }

  lemma ValueShape(p: seq<byte>, i: nat)
    requires HeaderAt(p, i)
    ensures forall c :: c in ValueAt(p, i) ==> !EndsLine(c)
    ensures ValueAt(p, i) != [] ==> !Blank(ValueAt(p, i)[0])
  {
    var start := SkipBlanks(p, i + 5);
    var value := p[start..LineEnd(p, start)];
    assert forall j :: 0 <= j < |value| ==> value[j] == p[start + j];
  }

  // ---------------------------------------------------------------- grammar

  /** A request starts with one of these. */
  predicate StartsWithMethod(p: seq<byte>) {
    |p| >= 4 && Text(p[..4]) in ["GET ", "POST", "PUT ", "HEAD", "DELE", "PATC", "OPTI"]
  }

  lemma SameText(a: seq<byte>, b: string)
    requires forall i :: 0 <= i < |b| ==> b[i] as int < 0x100
    ensures Text(a) == b <==> a == TextBytes(b)
  {
    if Text(a) == b {
      assert forall i :: 0 <= i < |a| ==> a[i] == TextBytes(b)[i];
    }
    if a == TextBytes(b) {
      assert forall i :: 0 <= i < |b| ==> Text(a)[i] == b[i];
    }
  }

  lemma RequestIff(p: seq<byte>)
    ensures IsHttpRequest(p) <==> StartsWithMethod(p)
  {
    if |p| >= 4 {
      SameText(p[..4], "GET ");
      SameText(p[..4], "POST");
      SameText(p[..4], "PUT ");
      SameText(p[..4], "HEAD");
      SameText(p[..4], "DELE");
      SameText(p[..4], "PATC");
      SameText(p[..4], "OPTI");
    }
  }

  /** A Host line: the header's name in any mix of cases, blanks, the host, a port if there is
      one, and all that comes behind the line. The decoder does not ask for a line break in front
      of the name. */
  datatype HostLine = HostLine(name: seq<byte>, blanks: seq<byte>, host: seq<byte>, port: seq<byte>, rest: seq<byte>)

  predicate IsName(name: seq<byte>) {
    AppSignatures.SameIgnoringCase(Text(name), "host:")
  }

  /** The value is not empty, starts behind the blanks and stays on its line; the host ends at the
      first colon. */
  predicate LegalValue(host: seq<byte>, port: seq<byte>) {
    var value := host + port;
    && value != [] && value[0] != 32 && value[0] != 9 && (forall c :: c in value ==> c != 13 && c != 10)
    && 58 !in host && (port == [] || port[0] == 58)
  }

  /** At least two bytes follow the name. */
  predicate LegalLine(l: HostLine) {
    && IsName(l.name) && (forall c :: c in l.blanks ==> c == 32 || c == 9) && LegalValue(l.host, l.port)
    && (l.rest == [] || l.rest[0] == 13 || l.rest[0] == 10)
    && |l.blanks| + |l.host| + |l.port| + |l.rest| >= 2
  }

  /** The payload goes on with the line at an offset. */
  predicate LineAt(p: seq<byte>, i: nat, l: HostLine) {
    LegalLine(l) && i <= |p| && p[i..] == l.name + l.blanks + (l.host + l.port) + l.rest
  }

  ghost predicate HasLine(p: seq<byte>, i: nat) {
    exists l: HostLine :: LineAt(p, i, l)
  }

  lemma NameIff(p: seq<byte>, i: nat)
    requires i + 5 <= |p|
    ensures IsName(p[i..i + 5]) <==>
      && (p[i] == 72 || p[i] == 104) && (p[i + 1] == 111 || p[i + 1] == 79) && (p[i + 2] == 115 || p[i + 2] == 83)
      && (p[i + 3] == 116 || p[i + 3] == 84) && p[i + 4] == 58
  {
    var name, text := Text(p[i..i + 5]), "host:";
    assert text[0] == 'h' && text[1] == 'o' && text[2] == 's' && text[3] == 't' && text[4] == ':';
    assert forall j :: 0 <= j < 5 ==> name[j] as int == p[i + j];
    assert |text| == |name| == 5;
  }

  lemma {:induction false} BeforeColonIs(host: seq<byte>, port: seq<byte>)
    requires COLON !in host && (port == [] || port[0] == COLON)
    ensures BeforeColon(host + port) == host
  {
    if host == [] {
      assert host + port == port;
    } else {
      assert (host + port)[1..] == host[1..] + port;
      BeforeColonIs(host[1..], port);
    }
  }

  /** The line that stands where the decoder finds a value. */
  function LineOf(p: seq<byte>, i: nat): HostLine
    requires HeaderAt(p, i)
  {
    var start := SkipBlanks(p, i + 5);
    var end := LineEnd(p, start);
    var host := BeforeColon(ValueAt(p, i));
    HostLine(p[i..i + 5], p[i + 5..start], host, ValueAt(p, i)[|host|..], p[end..])
  }

  lemma {:induction false} ColonNext(value: seq<byte>)
    ensures var host := BeforeColon(value); host == value || value[|host|] == COLON
  {
    if value == [] || value[0] == COLON {
    } else {
      ColonNext(value[1..]);
      assert value[1..][|BeforeColon(value[1..])|..] == value[1 + |BeforeColon(value[1..])|..];
    }
  }

  lemma ValueParts(value: seq<byte>)
    ensures var host := BeforeColon(value);
      && host + value[|host|..] == value && 58 !in host
      && (value[|host|..] == [] || value[|host|..][0] == 58)
  {
    ColonNext(value);
  }

  lemma ValueIsLegal(p: seq<byte>, i: nat)
    requires HeaderAt(p, i) && ValueAt(p, i) != []
    ensures var l := LineOf(p, i); LegalValue(l.host, l.port) && l.host + l.port == ValueAt(p, i)
  {
    ValueShape(p, i);
    ValueParts(ValueAt(p, i));
  }

  lemma CutInFour(p: seq<byte>, i: nat, a: nat, b: nat, c: nat)
    requires i <= a <= b <= c <= |p|
    ensures p[i..] == p[i..a] + p[a..b] + p[b..c] + p[c..]
  {
  }

  lemma LineIsThere(p: seq<byte>, i: nat)
    requires HeaderAt(p, i) && ValueAt(p, i) != []
    ensures LineAt(p, i, LineOf(p, i))
  {
    var l := LineOf(p, i);
    var start := SkipBlanks(p, i + 5);
    var end := LineEnd(p, start);
    NameIff(p, i);
    ValueIsLegal(p, i);
    BlanksAre(p, i + 5, start);
    CutInFour(p, i, i + 5, start, end);
  }

  lemma BlanksAre(p: seq<byte>, i: nat, j: nat)
    requires i <= j <= |p| && forall k :: i <= k < j ==> Blank(p[k])
    ensures forall c :: c in p[i..j] ==> c == 32 || c == 9
  {
    assert forall k :: 0 <= k < j - i ==> p[i..j][k] == p[i + k];
  }

  lemma SkipBlanksIs(p: seq<byte>, i: nat, j: nat)
    requires i <= j < |p| && !Blank(p[j]) && forall k :: i <= k < j ==> Blank(p[k])
    ensures SkipBlanks(p, i) == j
  {
  }

  lemma LineEndIs(p: seq<byte>, i: nat, j: nat)
    requires i <= j <= |p| && (j < |p| ==> EndsLine(p[j])) && forall k :: i <= k < j ==> !EndsLine(p[k])
    ensures LineEnd(p, i) == j
  {
  }

  lemma PartsAt(p: seq<byte>, i: nat, a: seq<byte>, b: seq<byte>, c: seq<byte>, d: seq<byte>)
    requires i <= |p| && p[i..] == a + b + c + d
    ensures var j := i + |a|;
      && |p| == j + |b| + |c| + |d| && p[i..j] == a && p[j..j + |b|] == b
      && p[j + |b|..j + |b| + |c|] == c && p[j + |b| + |c|..] == d
  {
    var q := p[i..];
    var j := |a|;
    assert q[..j] == a && q[j..j + |b|] == b && q[j + |b|..j + |b| + |c|] == c && q[j + |b| + |c|..] == d;
  }

  lemma StretchHolds(p: seq<byte>, i: nat, j: nat, part: seq<byte>)
    requires i <= j <= |p| && p[i..j] == part
    ensures forall k :: i <= k < j ==> p[k] in part
    ensures i < j ==> p[i] == part[0]
  {
    forall k | i <= k < j
      ensures p[k] in part
    {
      assert p[k] == part[k - i];
    }
  }

  lemma LineIsRead(p: seq<byte>, i: nat, l: HostLine)
    requires LineAt(p, i, l)
    ensures HeaderAt(p, i) && ValueAt(p, i) == l.host + l.port && BeforeColon(ValueAt(p, i)) == l.host
  {
    var value := l.host + l.port;
    var start := i + 5 + |l.blanks|;
    var end := start + |value|;
    PartsAt(p, i, l.name, l.blanks, value, l.rest);
    NameIff(p, i);
    StretchHolds(p, i + 5, start, l.blanks);
    StretchHolds(p, start, end, value);
    StretchHolds(p, end, |p|, l.rest);
    SkipBlanksIs(p, i + 5, start);
    LineEndIs(p, start, end);
    BeforeColonIs(l.host, l.port);
  }

  /** The first Host line of the payload is at an offset and names this host. */
  ghost predicate FirstLine(p: seq<byte>, i: nat, host: seq<byte>) {
    (exists l: HostLine :: LineAt(p, i, l) && l.host == host) && forall j :: 0 <= j < i ==> !HasLine(p, j)
  }

  lemma LineIff(p: seq<byte>, i: nat)
    ensures HasLine(p, i) <==> HeaderAt(p, i) && ValueAt(p, i) != []
  {
    if l: HostLine :| LineAt(p, i, l) {
      LineIsRead(p, i, l);
    }
    if HeaderAt(p, i) && ValueAt(p, i) != [] {
      LineIsThere(p, i);
    }
  }

  lemma FirstLineIff(p: seq<byte>, i: nat, host: seq<byte>)
    ensures FirstLine(p, i, host) <==> FirstValueAt(p, 0, i) && BeforeColon(ValueAt(p, i)) == host
  {
    forall j: nat
      ensures HasLine(p, j) <==> HeaderAt(p, j) && ValueAt(p, j) != []
    {
      LineIff(p, j);
    }
    if l: HostLine :| LineAt(p, i, l) && l.host == host {
      LineIsRead(p, i, l);
    }
    if FirstValueAt(p, 0, i) {
      LineIsThere(p, i);
    }
  }

  lemma OneFirstValue(p: seq<byte>, i: nat, k: nat)
    requires FirstValueAt(p, 0, i) && FirstValueAt(p, 0, k)
    ensures i == k
  {
  }

  /** The decoder returns a host exactly when the payload starts with a method and its first Host
      line names that host. */
  lemma HostIffGrammar(p: seq<byte>, host: seq<byte>)
    ensures Host(p) == Some(host) <==> StartsWithMethod(p) && exists i :: 0 <= i && FirstLine(p, i, host)
  {
    RequestIff(p);
    HostFromIsFirst(p, 0);
    if Host(p) == Some(host) {
      var k: nat :| FirstValueAt(p, 0, k) && HostFrom(p, 0) == Some(BeforeColon(ValueAt(p, k)));
      FirstLineIff(p, k, host);
    }
    if StartsWithMethod(p) && exists i :: 0 <= i && FirstLine(p, i, host) {
      var i: nat :| FirstLine(p, i, host);
      FirstLineIff(p, i, host);
      assert HostFrom(p, 0).Some?;
      var k: nat :| FirstValueAt(p, 0, k) && HostFrom(p, 0) == Some(BeforeColon(ValueAt(p, k)));
      OneFirstValue(p, i, k);
    }
  }

  // ---------------------------------------------------------------- generator

  const REQUEST_LINE := "GET / HTTP/1.1\r\n"
  const HEADER_NAME := "Host: "
  const OTHER_HEADERS := "\r\nUser-Agent: DPI-Test/1.0\r\nAccept: */*\r\n\r\n"

  /** `create_http_request` with its default path. */
  function CreateHttpRequest(host: seq<byte>): seq<byte> {
    TextBytes(REQUEST_LINE) + TextBytes(HEADER_NAME) + host + TextBytes(OTHER_HEADERS)
  }

  predicate PlainHost(host: seq<byte>) {
    host != [] && !Blank(host[0]) && forall c :: c in host ==> c != COLON && !EndsLine(c)
  }

  lemma {:induction false} SkipTo(p: seq<byte>, i: nat, k: nat)
    requires i <= k && k + 6 < |p|
    requires forall j :: i <= j < k ==> !HeaderAt(p, j)
    ensures HostFrom(p, i) == HostFrom(p, k)
    decreases k - i
  {
    if i == k {
    } else {
      SkipTo(p, i + 1, k);
    }
  }

  lemma GeneratedFront(host: seq<byte>)
    ensures var p := CreateHttpRequest(host);
      IsHttpRequest(p) && HeaderAt(p, 16) && p[21] == SPACE && forall i :: 0 <= i < 16 ==> !HeaderAt(p, i)
  {
    var p := CreateHttpRequest(host);
    var front := REQUEST_LINE + HEADER_NAME;
    assert |front| == 22;
    assert forall i :: 0 <= i < 22 ==> p[i] == front[i] as int;
    assert p[..4] == TextBytes("GET ") == METHODS[0];
    assert forall i :: 0 <= i < 20 ==> front[i] != ':';
  }

  lemma GeneratedValue(host: seq<byte>)
    ensures var p := CreateHttpRequest(host);
      && p[22..22 + |host|] == host && |p| == 22 + |host| + 43 && p[22 + |host|] == CR
      && (HeaderAt(p, 16) && PlainHost(host) && p[21] == SPACE ==> ValueAt(p, 16) == host)
      && (HeaderAt(p, 16) && host == [] && p[21] == SPACE ==> ValueAt(p, 16) == [])
  {
    var p := CreateHttpRequest(host);
    var front := TextBytes(REQUEST_LINE) + TextBytes(HEADER_NAME);
    var tail := TextBytes(OTHER_HEADERS);
    assert |front| == 22 && |tail| == 43;
    assert p == front + host + tail;
    assert OTHER_HEADERS[0] == '\r';
    assert p[22 + |host|] == tail[0] == CR;
    assert forall j :: 0 <= j < |host| ==> p[22 + j] == host[j];
    if HeaderAt(p, 16) && p[21] == SPACE {
      assert SkipBlanks(p, 21) == SkipBlanks(p, 22);
      if PlainHost(host) {
        assert !Blank(p[22]) by { assert p[22 + 0] == host[0]; }
        assert SkipBlanks(p, 22) == 22;
        assert forall j :: 22 <= j < 22 + |host| ==> p[j] == host[j - 22] && host[j - 22] in host;
        assert LineEnd(p, 22) == 22 + |host|;
      }
    }
  }

  /** No colon after the host ends the word "host". */
  lemma OtherColons(k: nat)
    requires k < |OTHER_HEADERS| && OTHER_HEADERS[k] == ':'
    ensures k >= 2 && OTHER_HEADERS[k - 2] != 's' && OTHER_HEADERS[k - 2] != 'S'
  {
    assert OTHER_HEADERS[10] == 'n' && OTHER_HEADERS[32] == 'p';
    assert k == 12 || k == 34;
  }

  lemma EmptyHostHasNone()
    ensures Host(CreateHttpRequest([])) == None
  {
    var p := CreateHttpRequest([]);
    GeneratedFront([]);
    GeneratedValue([]);
    assert OTHER_HEADERS[1] == '\n';
    assert forall j :: 0 <= j < 43 ==> p[22 + j] == OTHER_HEADERS[j] as int;
    forall i: nat | HeaderAt(p, i)
      ensures i == 16
    {
      if i > 16 {
        assert i + 4 == 21 || p[i + 4] == p[22 + (i - 18)];
        OtherColons(i - 18);
      }
    }
    HostFromIsFirst(p, 0);
  }

  /** A generated request gives its host back exactly when the host is non-empty,
      does not start with a blank, and has no colon and no line break in it. */
  lemma GeneratedRequestDecodesIff(host: seq<byte>)
    ensures Host(CreateHttpRequest(host)) == Some(host) <==> PlainHost(host)
  {
    var p := CreateHttpRequest(host);
    if PlainHost(host) {
      GeneratedFront(host);
      GeneratedValue(host);
      SkipTo(p, 0, 16);
    } else if Host(p) == Some(host) {
      HostShape(p);
      EmptyHostHasNone();
    }
  }
}
