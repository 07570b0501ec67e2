/** The verdicts of the engine by the rules as they were given: on every packet by what its flow
    holds, and on the first packet in which something is found by the bytes of its frame. */
module EngineVerdicts {
  import opened Types
  import opened Pipeline
  import opened Blocking
  import opened Engine
  import opened Findings
  import PipelineOrder
  import PipelineRestarts
  import EngineBlocking
  import FlowVerdict
  import FastPath
  import Rules
  import Pcap
  import PacketParser
  import TlsClientHello
  import AppSignatures
  import GeneratorHosts

  // ---------------------------------------------------------------- every packet

  /** On every run of the engine, whatever its tables lose: a packet is dropped exactly when one of
      the rules names its address, its port, or the application or the name that its flow holds. */
  lemma DroppedIffNamed(cfg: Config, rules: seq<Rules.Rule>, packets: seq<Pcap.RawPacket>, turns: seq<Turn>,
          states: seq<State>, n: nat, i: nat)
    requires EngineRun(cfg, Rules.Given(rules), packets, turns, states) && n < |states|
    requires i < |states[n].log.verdicts|
    ensures var log := states[n].log.verdicts;
      var held := HeldAt(FastPath.PoliciesOf(Rules.Given(rules)), log, i);
      log[i].action == Drop <==> FlowVerdict.Named(rules, log[i].job.tuple, held.0, held.1)
  {
    var log, policies := states[n].log.verdicts, FastPath.PoliciesOf(Rules.Given(rules));
    EngineBlocking.VerdictsJudge(Rules.Given(rules));
    PipelineRestarts.AlwaysFollows(cfg, turns, states, n);
    DropsAtIff(cfg.process, policies, log, i);
    var held := HeldAt(policies, log, i);
    FlowVerdict.BlocksIffNamed(rules, log[i].job.tuple, held.0, held.1);
  }

  lemma {:induction false} PassedHasVerdict(log: seq<Verdict>, job: PacketJob) returns (i: nat)
    requires job in PipelineOrder.Passed(log)
    ensures i < |log| && log[i].job == job && log[i].action != Drop
    decreases |log|
  {
    var last := log[|log| - 1];
    if last.action != Drop && job == last.job {
      i := |log| - 1;
    } else {
      i := PassedHasVerdict(log[..|log| - 1], job);
    }
  }

  /** What is written got through with nothing named: no rule names its address or port, nor what
      its flow held with it. */
  lemma WrittenIsUnnamed(cfg: Config, rules: seq<Rules.Rule>, packets: seq<Pcap.RawPacket>, turns: seq<Turn>,
          states: seq<State>, n: nat, job: PacketJob) returns (i: nat)
    requires EngineRun(cfg, Rules.Given(rules), packets, turns, states) && n < |states|
    requires job in states[n].output.written
    ensures var log := states[n].log.verdicts;
      && i < |log| && log[i].job == job
      && var held := HeldAt(FastPath.PoliciesOf(Rules.Given(rules)), log, i);
         !FlowVerdict.Named(rules, job.tuple, held.0, held.1)
  {
    WrittenWasPassed(cfg, turns, states, n, job);
    i := PassedHasVerdict(states[n].log.verdicts, job);
    DroppedIffNamed(cfg, rules, packets, turns, states, n, i);
  }

  // ---------------------------------------------------------------- as long as nothing was found

  /** The job was made of a packet of the capture. */
  ghost predicate Made(packets: seq<Pcap.RawPacket>, job: PacketJob) {
    exists packet, id :: packet in packets && JobOfPacket(packet, id) == Some(job)
  }

  lemma {:induction false} CreatedWasMade(make: Maker, packets: seq<Pcap.RawPacket>, id: uint32, job: PacketJob)
    requires job in JobsOf(make, packets, id)
    ensures exists packet, k :: packet in packets && make(packet, k) == Some(job)
  {
    CreatedFirst(make, packets, id);
    var first := make(packets[0], id);
    if first != Some(job) {
      CreatedWasMade(make, packets[1..], NextId(id, first), job);
      var packet, k :| packet in packets[1..] && make(packet, k) == Some(job);
      assert packet in packets;
    }
  }

  lemma {:induction false} JudgedIsThere(log: seq<Verdict>, i: nat)
    requires i < |log|
    ensures log[i].job in PipelineOrder.Jobs(log)
    decreases |log|
  {
    if i < |log| - 1 {
      JudgedIsThere(log[..|log| - 1], i);
    }
  }

  lemma JudgedWasMade(cfg: Config, rules: Rules.RuleSet, packets: seq<Pcap.RawPacket>, turns: seq<Turn>,
          states: seq<State>, n: nat, i: nat)
    requires EngineRun(cfg, rules, packets, turns, states) && n < |states| && i < |states[n].log.verdicts|
    ensures Made(packets, states[n].log.verdicts[i].job)
  {
    var s, job := states[n], states[n].log.verdicts[i].job;
    var t := job.tuple;
    PipelineOrder.AlwaysFaithful(cfg, turns, states, n, t);
    JudgedIsThere(s.log.verdicts, i);
    PipelineOrder.JudgedIsCreated(s.log.verdicts, s.workers[cfg.workerOf(t)], s.balancers[cfg.balancerOf(t)], s.reader,
        s.output, t);
    OfKeepsOwn(PipelineOrder.Jobs(s.log.verdicts), job);
    OfKeepsOwn(s.reader.created, job);
    assert job in s.reader.created + PipelineOrder.Created(s.reader.unread);
    CreatedWasMade(JobOfPacket, packets, 0, job);
  }

  /** Nothing is to be found in the packets before this one of its flow, if the table has not
      forgotten them: it is the first, or it follows packets without a payload, say. */
  ghost predicate NothingFoundYet(log: seq<Verdict>, i: nat)
    requires i < |log|
  {
    log[i].anew ||
    forall p :: 0 <= p < i && log[p].job.tuple == log[i].job.tuple ==>
      FindsNothing(log[p].job.tuple, log[p].job.Payload())
  }

  lemma MadeIsWhole(packets: seq<Pcap.RawPacket>, job: PacketJob)
    requires Made(packets, job)
    ensures job.payloadLength == |job.Payload()|
  {
    var packet, id :| packet in packets && JobOfPacket(packet, id) == Some(job);
    var parsed := PacketParser.Parse(packet.data).value;
    PacketParser.OffsetsAgree(packet.data, packet.header.tsSec, packet.header.tsUsec, parsed, id);
  }

  lemma {:induction false} SinceHasNoFinding(ms: seq<FlowVerdict.Marked>)
    requires forall k :: 0 <= k < |ms| ==> ms[k].p.finding == None
    ensures NoneFound(FlowVerdict.Since(ms))
  {
    if ms == [] {
    } else {
      SinceHasNoFinding(ms[..|ms| - 1]);
    }
  }

  lemma NothingSince(log: seq<Verdict>, i: nat)
    requires i < |log| && NothingFoundYet(log, i)
    requires forall p :: 0 <= p < i ==> log[p].job.payloadLength == |log[p].job.Payload()|
    ensures NoneFound(FlowVerdict.SinceEntry(MarksOf(log[..i], log[i].job.tuple), log[i].anew))
  {
    var front, t := log[..i], log[i].job.tuple;
    if !log[i].anew {
      forall p | 0 <= p < |front| && front[p].job.tuple == t
        ensures FlowVerdict.See(front[p].job).finding == None
      {
        assert front[p] == log[p];
        FindingIff(log[p].job);
      }
      MarksHaveNoFinding(front, t);
      SinceHasNoFinding(MarksOf(front, t));
    }
  }

  /** The verdict on a packet before which nothing was found in its flow, by the frame that it is. */
  lemma FirstOfFrameIff(cfg: Config, rules: seq<Rules.Rule>, packets: seq<Pcap.RawPacket>, turns: seq<Turn>,
          states: seq<State>, n: nat, i: nat, f: PacketParser.Frame)
    requires EngineRun(cfg, Rules.Given(rules), packets, turns, states) && n < |states|
    requires i < |states[n].log.verdicts| && NothingFoundYet(states[n].log.verdicts, i)
    requires PacketParser.LegalFrame(f) && states[n].log.verdicts[i].job.data == PacketParser.EncodeFrame(f)
    ensures states[n].log.verdicts[i].action == Drop <==> Condemned(rules, PacketParser.TupleOf(f), f.payload)
  {
    var log := states[n].log.verdicts;
    forall p | 0 <= p <= i
      ensures log[p].job.payloadLength == |log[p].job.Payload()|
    {
      JudgedWasMade(cfg, Rules.Given(rules), packets, turns, states, n, p);
      MadeIsWhole(packets, log[p].job);
    }
    NothingSince(log, i);
    DroppedIffNamed(cfg, rules, packets, turns, states, n, i);
    FirstFoundIff(rules, FlowVerdict.SinceEntry(MarksOf(log[..i], log[i].job.tuple), log[i].anew), log[i].job);
    JudgedWasMade(cfg, Rules.Given(rules), packets, turns, states, n, i);
    FrameOfJob(packets, log[i].job, f);
  }

  lemma FrameOfJob(packets: seq<Pcap.RawPacket>, job: PacketJob, f: PacketParser.Frame)
    requires Made(packets, job) && PacketParser.LegalFrame(f) && job.data == PacketParser.EncodeFrame(f)
    ensures job.tuple == PacketParser.TupleOf(f) && job.Payload() == f.payload
  {
    var packet, id :| packet in packets && JobOfPacket(packet, id) == Some(job);
    JobCarriesPacket();
    PacketParser.JobOfEncoded(f, packet.header.tsSec, packet.header.tsUsec, id);
  }

  // ---------------------------------------------------------------- a ClientHello

  lemma OneFinding(rules: seq<Rules.Rule>, t: FiveTuple, p: seq<byte>, app: AppType, name: string)
    requires forall a, b :: Finds(t, p, a, b) <==> b == name && a == app
    ensures Condemned(rules, t, p) <==> FlowVerdict.Named(rules, t, app, name)
  {
    assert Finds(t, p, app, name);
    SomethingFound(t, p, app, name);
  }

  /** End to end, on every run of the engine: for every ClientHello of the standard with a server
      name, in a legal frame, whatever follows it there: if nothing was found in its flow before, as
      in a handshake, it is dropped exactly when a rule names its address, its port, the application
      of its name, or its name. */
  lemma NamedHelloDroppedIff(cfg: Config, rules: seq<Rules.Rule>, packets: seq<Pcap.RawPacket>, turns: seq<Turn>,
          states: seq<State>, n: nat, i: nat, f: PacketParser.Frame, m: TlsClientHello.ClientHello, rest: seq<byte>)
    requires EngineRun(cfg, Rules.Given(rules), packets, turns, states) && n < |states|
    requires i < |states[n].log.verdicts| && NothingFoundYet(states[n].log.verdicts, i)
    requires PacketParser.LegalFrame(f) && states[n].log.verdicts[i].job.data == PacketParser.EncodeFrame(f)
    requires TlsClientHello.Conforms(m) && m.server.Some? && f.payload == TlsClientHello.EncodeRecord(m) + rest
    ensures var name := Text(m.server.value.host);
      states[n].log.verdicts[i].action == Drop <==>
      FlowVerdict.Named(rules, PacketParser.TupleOf(f), AppSignatures.AppOf(name), name)
  {
    var t, name := PacketParser.TupleOf(f), Text(m.server.value.host);
    FirstOfFrameIff(cfg, rules, packets, turns, states, n, i, f);
    forall a, b
      ensures Finds(t, f.payload, a, b) <==> b == name && a == AppSignatures.AppOf(name)
    {
      NamedHelloFinds(t, m, rest, a, b);
    }
    OneFinding(rules, t, f.payload, AppSignatures.AppOf(name), name);
  }

  /** The same for a ClientHello without a server name, to port 443 and not from port 53: it is
      dropped exactly when a rule names its address, the port, or HTTPS. */
  lemma UnnamedHelloDroppedIff(cfg: Config, rules: seq<Rules.Rule>, packets: seq<Pcap.RawPacket>, turns: seq<Turn>,
          states: seq<State>, n: nat, i: nat, f: PacketParser.Frame, m: TlsClientHello.ClientHello, rest: seq<byte>)
    requires EngineRun(cfg, Rules.Given(rules), packets, turns, states) && n < |states|
    requires i < |states[n].log.verdicts| && NothingFoundYet(states[n].log.verdicts, i)
    requires PacketParser.LegalFrame(f) && states[n].log.verdicts[i].job.data == PacketParser.EncodeFrame(f)
    requires TlsClientHello.Conforms(m) && m.server.None? && f.payload == TlsClientHello.EncodeRecord(m) + rest
    requires PacketParser.TupleOf(f).dstPort == 443 && PacketParser.TupleOf(f).srcPort != 53
    ensures states[n].log.verdicts[i].action == Drop <==>
      FlowVerdict.Named(rules, PacketParser.TupleOf(f), Https, "")
  {
    var t := PacketParser.TupleOf(f);
    FirstOfFrameIff(cfg, rules, packets, turns, states, n, i, f);
    forall a, b
      ensures Finds(t, f.payload, a, b) <==> b == "" && a == Https
    {
      UnnamedHelloFinds(t, m, rest, a, b);
    }
    OneFinding(rules, t, f.payload, Https, "");
  }

  /** And for the messages of the generator, whatever name they are made for. */
  lemma GeneratedHelloDroppedIff(cfg: Config, rules: seq<Rules.Rule>, packets: seq<Pcap.RawPacket>,
          turns: seq<Turn>, states: seq<State>, n: nat, i: nat, f: PacketParser.Frame, sni: seq<byte>,
          random: seq<byte>)
    requires EngineRun(cfg, Rules.Given(rules), packets, turns, states) && n < |states|
    requires i < |states[n].log.verdicts| && NothingFoundYet(states[n].log.verdicts, i)
    requires PacketParser.LegalFrame(f) && states[n].log.verdicts[i].job.data == PacketParser.EncodeFrame(f)
    requires |random| == 32 && TlsClientHello.CreateClientHello(sni, random) == Some(f.payload)
    ensures states[n].log.verdicts[i].action == Drop <==>
      FlowVerdict.Named(rules, PacketParser.TupleOf(f), AppSignatures.AppOf(Text(sni)), Text(sni))
  {
    var t := PacketParser.TupleOf(f);
    FirstOfFrameIff(cfg, rules, packets, turns, states, n, i, f);
    forall a, b
      ensures Finds(t, f.payload, a, b) <==> b == Text(sni) && a == AppSignatures.AppOf(Text(sni))
    {
      GeneratedHelloFinds(t, sni, random, a, b);
    }
    OneFinding(rules, t, f.payload, AppSignatures.AppOf(Text(sni)), Text(sni));
  }

  lemma PatternNames(t: FiveTuple, app: AppType, name: string, front: string, back: string)
    requires name == front + back && name != ""
    ensures Rules.Names(Rules.BlockDomain("*" + back), t.srcIp, t.dstPort, app, name)
  {
    assert ("*" + back)[1..] == back;
    assert Rules.Ends(name, back);
  }

  lemma YouTubeIsNamed(rules: seq<Rules.Rule>, t: FiveTuple)
    requires Rules.BlockApp(YouTube) in rules || Rules.BlockDomain("*.youtube.com") in rules
    ensures FlowVerdict.Named(rules, t, YouTube, "www.youtube.com")
  {
    assert "www.youtube.com" == "www" + ".youtube.com" && "*.youtube.com" == "*" + ".youtube.com";
    PatternNames(t, YouTube, "www.youtube.com", "www", ".youtube.com");
    var rule := if Rules.BlockApp(YouTube) in rules then Rules.BlockApp(YouTube)
        else Rules.BlockDomain("*.youtube.com");
    var k :| 0 <= k < |rules| && rules[k] == rule;
    assert Rules.Names(rules[k], t.srcIp, t.dstPort, YouTube, "www.youtube.com");
  }

  /** Blocking YouTube, by its application or by its name, drops the generated ClientHello for
      www.youtube.com, to any port. */
  lemma YouTubeIsDropped(cfg: Config, rules: seq<Rules.Rule>, packets: seq<Pcap.RawPacket>, turns: seq<Turn>,
          states: seq<State>, n: nat, i: nat, f: PacketParser.Frame, sni: seq<byte>, random: seq<byte>)
    requires EngineRun(cfg, Rules.Given(rules), packets, turns, states) && n < |states|
    requires i < |states[n].log.verdicts| && NothingFoundYet(states[n].log.verdicts, i)
    requires PacketParser.LegalFrame(f) && states[n].log.verdicts[i].job.data == PacketParser.EncodeFrame(f)
    requires |random| == 32 && Text(sni) == "www.youtube.com"
    requires TlsClientHello.CreateClientHello(sni, random) == Some(f.payload)
    requires Rules.BlockApp(YouTube) in rules || Rules.BlockDomain("*.youtube.com") in rules
    ensures states[n].log.verdicts[i].action == Drop
  {
    GeneratedHelloDroppedIff(cfg, rules, packets, turns, states, n, i, f, sni, random);
    GeneratorHosts.YoutubeHost();
    YouTubeIsNamed(rules, PacketParser.TupleOf(f));
  }
}
