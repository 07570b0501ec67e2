/** What the engine finds in a payload, said by the grammars of its decoders, and what becomes of
    a packet for which something is found. */
module Findings {
  import opened Types
  import opened FlowVerdict
  import TlsClientHello
  import HttpHost
  import DnsQuery
  import AppSignatures
  import Rules
  import PacketParser

  // ---------------------------------------------------------------- what is found

  /** The payload is a ClientHello with this name, and one is looked for: on port 443 always,
      elsewhere from 50 bytes on. */
  ghost predicate NamesServer(t: FiveTuple, p: seq<byte>, name: seq<byte>) {
    (t.dstPort == 443 || |p| >= 50) && TlsClientHello.CarriesName(p, name)
  }

  /** A request to port 80 whose first Host line names this host. */
  ghost predicate NamesHost(t: FiveTuple, p: seq<byte>, host: seq<byte>) {
    t.dstPort == 80 && HttpHost.StartsWithMethod(p) && exists i :: 0 <= i && HttpHost.FirstLine(p, i, host)
  }

  /** A query to or from port 53 whose longest run of labels is this name. */
  ghost predicate AsksFor(t: FiveTuple, p: seq<byte>, name: seq<byte>) {
    && (t.dstPort == 53 || t.srcPort == 53) && DnsQuery.AsksSomething(p)
    && exists labels :: labels != [] && DnsQuery.LongestRun(p, labels) && name == DnsQuery.Join(labels)
  }

  ghost predicate NoServer(t: FiveTuple, p: seq<byte>) {
    forall name :: !NamesServer(t, p, name)
  }

  ghost predicate NoHost(t: FiveTuple, p: seq<byte>) {
    forall host :: !NamesHost(t, p, host)
  }

  ghost predicate NoQuery(t: FiveTuple, p: seq<byte>) {
    forall name :: !AsksFor(t, p, name)
  }

  ghost predicate ByServer(t: FiveTuple, p: seq<byte>, app: AppType, name: string) {
    exists b :: NamesServer(t, p, b) && name == Text(b) && app == AppSignatures.AppOf(name)
  }

  ghost predicate ByHost(t: FiveTuple, p: seq<byte>, app: AppType, name: string) {
    exists b :: NamesHost(t, p, b) && name == Text(b) && app == AppSignatures.AppOf(name)
  }

  ghost predicate ByQuery(t: FiveTuple, p: seq<byte>, app: AppType, name: string) {
    exists b :: AsksFor(t, p, b) && name == Text(b) && app == Dns
  }

  predicate ByPort(t: FiveTuple, p: seq<byte>, app: AppType, name: string) {
    p != [] && name == "" && ((t.dstPort == 80 && app == Http) || (t.dstPort == 443 && app == Https))
  }

  /** What is to be found in a payload: the server it names; else the host; else the query; else
      what the port says. */
  ghost predicate Finds(t: FiveTuple, p: seq<byte>, app: AppType, name: string) {
    || ByServer(t, p, app, name)
    || (NoServer(t, p) && ByHost(t, p, app, name))
    || (NoServer(t, p) && NoHost(t, p) && ByQuery(t, p, app, name))
    || (NoServer(t, p) && NoHost(t, p) && NoQuery(t, p) && ByPort(t, p, app, name))
  }

  ghost predicate FindsNothing(t: FiveTuple, p: seq<byte>) {
    p == [] || (NoServer(t, p) && NoHost(t, p) && NoQuery(t, p) && t.dstPort != 80 && t.dstPort != 443)
  }

  lemma ServerIff(t: FiveTuple, p: seq<byte>, name: seq<byte>)
    ensures NamesServer(t, p, name) <==>
      (t.dstPort == 443 || |p| >= 50) && TlsClientHello.ServerName(p) == Some(name)
  {
    TlsClientHello.ServerNameIffGrammar(p, name);
  }

  lemma HostIff(t: FiveTuple, p: seq<byte>, host: seq<byte>)
    ensures NamesHost(t, p, host) <==> t.dstPort == 80 && HttpHost.Host(p) == Some(host)
  {
    HttpHost.HostIffGrammar(p, host);
  }

  lemma QueryIff(t: FiveTuple, p: seq<byte>, name: seq<byte>)
    ensures AsksFor(t, p, name) <==> (t.dstPort == 53 || t.srcPort == 53) && DnsQuery.QueryName(p) == Some(name)
  {
    DnsQuery.QueryNameIsLongestRun(p, name);
  }

  lemma NothingInNothing(t: FiveTuple, name: seq<byte>)
    ensures !NamesServer(t, [], name) && !NamesHost(t, [], name) && !AsksFor(t, [], name)
  {
    ServerIff(t, [], name);
    HostIff(t, [], name);
    QueryIff(t, [], name);
  }

  lemma SniIff(job: PacketJob, name: seq<byte>)
    requires job.payloadLength == |job.Payload()|
    ensures NamesServer(job.tuple, job.Payload(), name) ==> SniOf(job) == Some(Text(name))
    ensures SniOf(job) == None <==> NoServer(job.tuple, job.Payload())
  {
    var t, p := job.tuple, job.Payload();
    forall b
      ensures NamesServer(t, p, b) <==> (t.dstPort == 443 || |p| >= 50) && TlsClientHello.ServerName(p) == Some(b)
    {
      ServerIff(t, p, b);
    }
  }

  lemma HostOfIff(job: PacketJob, name: seq<byte>)
    ensures NamesHost(job.tuple, job.Payload(), name) ==> HostOf(job) == Some(Text(name))
    ensures HostOf(job) == None <==> NoHost(job.tuple, job.Payload())
  {
    var t, p := job.tuple, job.Payload();
    forall b
      ensures NamesHost(t, p, b) <==> t.dstPort == 80 && HttpHost.Host(p) == Some(b)
    {
      HostIff(t, p, b);
    }
  }

  lemma DomainOfIff(job: PacketJob, name: seq<byte>)
    ensures AsksFor(job.tuple, job.Payload(), name) ==> DomainOf(job) == Some(Text(name))
    ensures DomainOf(job) == None <==> NoQuery(job.tuple, job.Payload())
  {
    var t, p := job.tuple, job.Payload();
    forall b
      ensures AsksFor(t, p, b) <==> (t.dstPort == 53 || t.srcPort == 53) && DnsQuery.QueryName(p) == Some(b)
    {
      QueryIff(t, p, b);
    }
  }

  lemma SomeName(job: PacketJob)
    requires job.payloadLength == |job.Payload()|
    ensures SniOf(job).Some? ==>
      exists b :: NamesServer(job.tuple, job.Payload(), b) && SniOf(job).value == Text(b)
    ensures HostOf(job).Some? ==>
      exists b :: NamesHost(job.tuple, job.Payload(), b) && HostOf(job).value == Text(b)
    ensures DomainOf(job).Some? ==>
      exists b :: AsksFor(job.tuple, job.Payload(), b) && DomainOf(job).value == Text(b)
  {
    var t, p := job.tuple, job.Payload();
    if SniOf(job).Some? {
      ServerIff(t, p, TlsClientHello.ServerName(p).value);
    }
    if HostOf(job).Some? {
      HostIff(t, p, HttpHost.Host(p).value);
    }
    if DomainOf(job).Some? {
      QueryIff(t, p, DnsQuery.QueryName(p).value);
    }
  }

  /** Nothing is to be found in an empty payload. */
  lemma EmptyFindsNothing(t: FiveTuple, app: AppType, name: string)
    ensures !Finds(t, [], app, name)
  {
    forall b
      ensures !NamesServer(t, [], b) && !NamesHost(t, [], b) && !AsksFor(t, [], b)
    {
      NothingInNothing(t, b);
    }
  }

  /** What was found is to be found. */
  lemma FoundIsThere(job: PacketJob)
    requires job.payloadLength == |job.Payload()| && See(job).finding.Some?
    ensures var (app, name) := See(job).finding.value; Finds(job.tuple, job.Payload(), app, name)
  {
    SomeName(job);
    SniIff(job, []);
    HostOfIff(job, []);
    DomainOfIff(job, []);
  }

  lemma ServerFound(job: PacketJob, app: AppType, name: string)
    requires job.payloadLength == |job.Payload()| && ByServer(job.tuple, job.Payload(), app, name)
    ensures See(job).finding == Some((app, name))
  {
    var b :| NamesServer(job.tuple, job.Payload(), b) && name == Text(b);
    SniIff(job, b);
    NothingInNothing(job.tuple, b);
  }

  lemma HostFound(job: PacketJob, app: AppType, name: string)
    requires job.payloadLength == |job.Payload()|
    requires NoServer(job.tuple, job.Payload()) && ByHost(job.tuple, job.Payload(), app, name)
    ensures See(job).finding == Some((app, name))
  {
    var b :| NamesHost(job.tuple, job.Payload(), b) && name == Text(b);
    SniIff(job, []);
    HostOfIff(job, b);
    NothingInNothing(job.tuple, b);
  }

  lemma QueryFound(job: PacketJob, app: AppType, name: string)
    requires job.payloadLength == |job.Payload()|
    requires NoServer(job.tuple, job.Payload()) && NoHost(job.tuple, job.Payload())
    requires ByQuery(job.tuple, job.Payload(), app, name)
    ensures See(job).finding == Some((app, name))
  {
    var b :| AsksFor(job.tuple, job.Payload(), b) && name == Text(b);
    SniIff(job, []);
    HostOfIff(job, []);
    DomainOfIff(job, b);
    NothingInNothing(job.tuple, b);
  }

  lemma PortFound(job: PacketJob)
    requires job.payloadLength == |job.Payload()| && job.Payload() != []
    requires NoServer(job.tuple, job.Payload()) && NoHost(job.tuple, job.Payload())
    requires NoQuery(job.tuple, job.Payload())
    ensures See(job).finding ==
      if job.tuple.dstPort == 80 then Some((Http, ""))
      else if job.tuple.dstPort == 443 then Some((Https, ""))
      else None
  {
    SniIff(job, []);
    HostOfIff(job, []);
    DomainOfIff(job, []);
  }

  /** What is to be found is found. */
  lemma ThereIsFound(job: PacketJob, app: AppType, name: string)
    requires job.payloadLength == |job.Payload()| && Finds(job.tuple, job.Payload(), app, name)
    ensures See(job).finding == Some((app, name))
  {
    var t, p := job.tuple, job.Payload();
    if ByServer(t, p, app, name) {
      ServerFound(job, app, name);
    } else if NoServer(t, p) && ByHost(t, p, app, name) {
      HostFound(job, app, name);
    } else if NoServer(t, p) && NoHost(t, p) && ByQuery(t, p, app, name) {
      QueryFound(job, app, name);
    } else {
      PortFound(job);
    }
  }

  /** What the engine makes of a packet, exactly, for every payload. */
  lemma FindingIff(job: PacketJob)
    requires job.payloadLength == |job.Payload()|
    ensures forall app, name :: See(job).finding == Some((app, name)) <==> Finds(job.tuple, job.Payload(), app, name)
    ensures See(job).finding == None <==> FindsNothing(job.tuple, job.Payload())
  {
    forall app, name
      ensures See(job).finding == Some((app, name)) <==> Finds(job.tuple, job.Payload(), app, name)
    {
      if Finds(job.tuple, job.Payload(), app, name) {
        ThereIsFound(job, app, name);
      }
      if See(job).finding == Some((app, name)) {
        FoundIsThere(job);
      }
    }
    SomeName(job);
    SniIff(job, []);
    HostOfIff(job, []);
    DomainOfIff(job, []);
  }

  /** Where something is to be found there is not nothing. */
  lemma SomethingFound(t: FiveTuple, p: seq<byte>, app: AppType, name: string)
    requires Finds(t, p, app, name)
    ensures !FindsNothing(t, p)
  {
    EmptyFindsNothing(t, app, name);
    if NoServer(t, p) && NoHost(t, p) && NoQuery(t, p) {
      assert ByPort(t, p, app, name);
    }
  }

  // ---------------------------------------------------------------- the first packet of a flow

  /** One of the rules names the addresses of a packet or what is to be found in it. */
  ghost predicate Condemned(rules: seq<Rules.Rule>, t: FiveTuple, p: seq<byte>) {
    || (exists app, name :: Finds(t, p, app, name) && Named(rules, t, app, name))
    || (FindsNothing(t, p) && Named(rules, t, Unknown, ""))
  }

  /** A packet that finds no entry of its flow is dropped exactly when a rule names it. */
  lemma FreshDroppedIff(rules: seq<Rules.Rule>, job: PacketJob)
    requires job.payloadLength == |job.Payload()|
    ensures StepFlow(Rules.Given(rules), FRESH, job).1 == Drop <==> Condemned(rules, job.tuple, job.Payload())
  {
    var t := job.tuple;
    var policy := PolicyOf(Rules.Given(rules), t);
    FindingIff(job);
    FirstOfEntry(policy, See(job));
    match See(job).finding
    case Some((app, name)) =>
      BlocksIffNamed(rules, t, app, name);
    case None =>
      BlocksIffNamed(rules, t, Unknown, "");
  }

  /** The first packet of a flow, in the sequential filter. */
  lemma FirstFilteredIff(rules: seq<Rules.Rule>, jobs: seq<PacketJob>)
    requires jobs != [] && jobs[0].payloadLength == |jobs[0].Payload()|
    ensures Filter(Rules.Given(rules), FRESH, jobs)[0] == Drop <==>
      Condemned(rules, jobs[0].tuple, jobs[0].Payload())
  {
    FreshDroppedIff(rules, jobs[0]);
  }

  // ---------------------------------------------------------------- as long as nothing was found

  ghost predicate NoneFound(ps: seq<Seen>) {
    forall k :: 0 <= k < |ps| ==> ps[k].finding == None
  }

  lemma {:induction false} NoneTaken(policy: Policy, ps: seq<Seen>)
    requires NoneFound(ps)
    ensures LastTaken(policy, ps) == None
  {
    if ps == [] {
    } else {
      NoneTaken(policy, ps[..|ps| - 1]);
    }
  }

  /** What a flow holds with the first packet in which something is found, or before it. */
  lemma HeldWith(policy: Policy, ps: seq<Seen>, p: Seen)
    requires NoneFound(ps)
    ensures Held(policy, ps + [p]) == (Unknown, "") || p.finding == Some(Held(policy, ps + [p]))
    ensures p.finding.Some? && Held(policy, ps + [p]) == (Unknown, "") ==>
      p.finding.value == (Unknown, "") || policy(Unknown, "")
  {
    var all := ps + [p];
    assert all[..|ps|] == ps;
    NoneTaken(policy, ps);
  }

  /** A rule that names a flow of which nothing is known names its address or port, and so names it
      whatever is found. */
  lemma UnknownIsAddress(rules: seq<Rules.Rule>, t: FiveTuple, app: AppType, name: string)
    requires Named(rules, t, Unknown, "")
    ensures Named(rules, t, app, name)
  {
    var k :| 0 <= k < |rules| && Rules.Names(rules[k], t.srcIp, t.dstPort, Unknown, "");
    assert Rules.Names(rules[k], t.srcIp, t.dstPort, app, name);
  }

  /** As long as nothing was found in a flow, its next packet is judged by what is to be found in it:
      what the flow holds with it is named by a rule exactly when the packet is. */
  lemma FirstFoundIff(rules: seq<Rules.Rule>, ps: seq<Seen>, job: PacketJob)
    requires NoneFound(ps) && job.payloadLength == |job.Payload()|
    ensures var held := Held(PolicyOf(Rules.Given(rules), job.tuple), ps + [See(job)]);
      Named(rules, job.tuple, held.0, held.1) <==> Condemned(rules, job.tuple, job.Payload())
  {
    var t, policy := job.tuple, PolicyOf(Rules.Given(rules), job.tuple);
    var held := Held(policy, ps + [See(job)]);
    HeldWith(policy, ps, See(job));
    FindingIff(job);
    BlocksIffNamed(rules, t, Unknown, "");
    match See(job).finding
    case None =>
    case Some((app, name)) =>
      if held == (Unknown, "") && policy(Unknown, "") {
        UnknownIsAddress(rules, t, app, name);
      }
  }

  // ---------------------------------------------------------------- messages of the standard

  /** A ClientHello is long enough to be looked at on any port. */
  lemma HelloIsLong(m: TlsClientHello.ClientHello, rest: seq<byte>)
    requires TlsClientHello.Conforms(m)
    ensures var p := TlsClientHello.EncodeRecord(m) + rest; |p| >= 50 && p[0] == 0x16
  {
    TlsClientHello.RecordLengths(m);
  }

  lemma ServerDecided(t: FiveTuple, p: seq<byte>, decoded: Option<seq<byte>>)
    requires |p| >= 50 && TlsClientHello.ServerName(p) == decoded
    ensures forall b :: NamesServer(t, p, b) <==> decoded == Some(b)
  {
    forall b
      ensures NamesServer(t, p, b) <==> decoded == Some(b)
    {
      ServerIff(t, p, b);
    }
  }

  lemma OnlyServer(t: FiveTuple, p: seq<byte>, host: seq<byte>, app: AppType, name: string)
    requires forall b :: NamesServer(t, p, b) <==> b == host
    ensures Finds(t, p, app, name) <==> name == Text(host) && app == AppSignatures.AppOf(name)
  {
    assert NamesServer(t, p, host);
  }

  lemma OnlyPort(t: FiveTuple, p: seq<byte>, app: AppType, name: string)
    requires NoServer(t, p) && NoHost(t, p) && NoQuery(t, p)
    ensures Finds(t, p, app, name) <==> ByPort(t, p, app, name)
  {
    assert !ByServer(t, p, app, name) && !ByHost(t, p, app, name) && !ByQuery(t, p, app, name);
  }

  /** In a ClientHello with a server name, that name is found and nothing else, on any port. */
  lemma NamedHelloFinds(t: FiveTuple, m: TlsClientHello.ClientHello, rest: seq<byte>, app: AppType, name: string)
    requires TlsClientHello.Conforms(m) && m.server.Some?
    ensures Finds(t, TlsClientHello.EncodeRecord(m) + rest, app, name) <==>
      name == Text(m.server.value.host) && app == AppSignatures.AppOf(name)
  {
    var p := TlsClientHello.EncodeRecord(m) + rest;
    HelloIsLong(m, rest);
    TlsClientHello.ConformingDecodes(m, rest);
    ServerDecided(t, p, Some(m.server.value.host));
    OnlyServer(t, p, m.server.value.host, app, name);
  }

  lemma HelloIsNoRequest(t: FiveTuple, p: seq<byte>)
    requires p != [] && p[0] == 0x16
    ensures NoHost(t, p)
  {
    if |p| >= 4 {
      assert Text(p[..4])[0] as int == 0x16;
    }
  }

  /** In one without, nothing is found but what the port says, unless it could be a query. */
  lemma UnnamedHelloFinds(t: FiveTuple, m: TlsClientHello.ClientHello, rest: seq<byte>, app: AppType, name: string)
    requires TlsClientHello.Conforms(m) && m.server.None? && t.srcPort != 53 && t.dstPort != 53
    ensures Finds(t, TlsClientHello.EncodeRecord(m) + rest, app, name) <==>
      name == "" && ((t.dstPort == 80 && app == Http) || (t.dstPort == 443 && app == Https))
    ensures FindsNothing(t, TlsClientHello.EncodeRecord(m) + rest) <==> t.dstPort != 80 && t.dstPort != 443
  {
    var p := TlsClientHello.EncodeRecord(m) + rest;
    HelloIsLong(m, rest);
    TlsClientHello.ConformingDecodes(m, rest);
    ServerDecided(t, p, None);
    HelloIsNoRequest(t, p);
    OnlyPort(t, p, app, name);
  }

  // ---------------------------------------------------------------- generated messages

  lemma GeneratedIsLong(sni: seq<byte>, random: seq<byte>)
    requires |random| == 32 && TlsClientHello.CreateClientHello(sni, random).Some?
    ensures |TlsClientHello.CreateClientHello(sni, random).value| >= 50
  {
  }

  /** In a generated ClientHello the name it was made for is found, on any port. */
  lemma GeneratedHelloFinds(t: FiveTuple, sni: seq<byte>, random: seq<byte>, app: AppType, name: string)
    requires |random| == 32 && TlsClientHello.CreateClientHello(sni, random).Some?
    ensures Finds(t, TlsClientHello.CreateClientHello(sni, random).value, app, name) <==>
      name == Text(sni) && app == AppSignatures.AppOf(name)
  {
    var p := TlsClientHello.CreateClientHello(sni, random).value;
    TlsClientHello.GeneratedHelloDecodes(sni, random);
    GeneratedIsLong(sni, random);
    ServerDecided(t, p, Some(sni));
    OnlyServer(t, p, sni, app, name);
  }

  lemma OnlyHost(t: FiveTuple, p: seq<byte>, host: seq<byte>, app: AppType, name: string)
    requires NoServer(t, p) && forall b :: NamesHost(t, p, b) <==> b == host
    ensures Finds(t, p, app, name) <==> name == Text(host) && app == AppSignatures.AppOf(name)
  {
    assert NamesHost(t, p, host);
  }

  lemma RequestIsNoHello(t: FiveTuple, p: seq<byte>)
    requires p != [] && p[0] != 0x16
    ensures NoServer(t, p)
  {
    forall b
      ensures !NamesServer(t, p, b)
    {
      ServerIff(t, p, b);
    }
  }

  /** In a generated request to port 80 its host is found. */
  lemma GeneratedRequestFinds(t: FiveTuple, host: seq<byte>, app: AppType, name: string)
    requires t.dstPort == 80 && HttpHost.PlainHost(host)
    ensures Finds(t, HttpHost.CreateHttpRequest(host), app, name) <==>
      name == Text(host) && app == AppSignatures.AppOf(name)
  {
    var p := HttpHost.CreateHttpRequest(host);
    HttpHost.GeneratedRequestDecodesIff(host);
    HttpHost.GeneratedFront(host);
    HttpHost.MethodsAreLetters(p[..4]);
    assert p[0] == p[..4][0];
    RequestIsNoHello(t, p);
    forall b
      ensures NamesHost(t, p, b) <==> b == host
    {
      HostIff(t, p, b);
    }
    OnlyHost(t, p, host, app, name);
  }
}
