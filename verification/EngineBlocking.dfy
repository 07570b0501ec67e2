/** How long blocking lasts in the engine, for both directions of a connection, and a flow
    of two frames that gets through again. */
module EngineBlocking {
  import opened Types
  import opened Pipeline
  import opened Blocking
  import opened PipelineOrder
  import opened Engine
  import PipelineRestarts
  import FlowVerdict
  import FastPath
  import Rules
  import Pcap
  import PacketParser
  import DnsQuery

  lemma VerdictsJudge(rules: Rules.RuleSet)
    ensures Judges(Verdicts(rules), FastPath.PoliciesOf(rules))
  {
  }

  /** Blocking in the engine, exactly, on every run and whatever tables lose: after a verdict
      to drop a packet, all later verdicts on both directions of its connection are to drop
      if and only if no later packet of that direction gets in, and the other direction is
      kept out by its own packets. */
  lemma EngineBlockingIff(cfg: Config, rules: Rules.RuleSet, packets: seq<Pcap.RawPacket>, turns: seq<Turn>,
          states: seq<State>, n: nat, t: FiveTuple, i: nat)
    requires EngineRun(cfg, rules, packets, turns, states) && n < |states|
    requires IsOf(states[n].log.verdicts, i, t) && states[n].log.verdicts[i].action == Drop
    ensures var log, policies := states[n].log.verdicts, FastPath.PoliciesOf(rules);
      ConnectionStaysOut(log, t, i) <==>
          NoneGetsInAfter(policies, log, t, i) && KeptOut(policies, log, t.Reverse(), i + 1)
  {
    VerdictsJudge(rules);
    PipelineRestarts.AlwaysFollows(cfg, turns, states, n);
    ConnectionBlockingIff(cfg.process, FastPath.PoliciesOf(rules), states[n].log.verdicts, t, i);
  }

  lemma DroppedFromFront(log: seq<Verdict>, t: FiveTuple, k: nat)
    requires k < |log| && DroppedFrom(log, t, k)
    ensures DroppedFrom(log[..|log| - 1], t, k)
    ensures log[|log| - 1].job.tuple == t ==> log[|log| - 1].action == Drop
  {
    var front := log[..|log| - 1];
    forall n | k <= n && IsOf(front, n, t)
      ensures front[n].action == Drop
    {
      assert IsOf(log, n, t);
    }
    assert log[|log| - 1].job.tuple == t ==> IsOf(log, |log| - 1, t);
  }

  lemma OneMoreDropped(front: seq<Verdict>, last: Verdict, t: FiveTuple)
    requires last.job.tuple == t ==> last.action == Drop
    ensures Of(Passed(front + [last]), t) == Of(Passed(front), t)
  {
    VerdictsOneMore(front, last);
    OfOneMore(Passed(front), last.job, t);
    assert Of(Passed(front), t) + [] == Of(Passed(front), t);
  }

  lemma {:induction false} DroppedAddNothing(log: seq<Verdict>, t: FiveTuple, k: nat)
    requires k <= |log| && DroppedFrom(log, t, k)
    ensures Of(Passed(log), t) == Of(Passed(log[..k]), t)
    decreases |log|
  {
    if k == |log| {
      assert log[..k] == log;
    } else {
      var front, last := log[..|log| - 1], log[|log| - 1];
      DroppedFromFront(log, t, k);
      DroppedAddNothing(front, t, k);
      OneMoreDropped(front, last, t);
      assert front[..k] == log[..k] && log == front + [last];
    }
  }

  /** What stays out is not written: of either direction the file holds nothing that was
      judged from the drop on. */
  lemma StayingOutIsUnwritten(cfg: Config, turns: seq<Turn>, states: seq<State>, n: nat, t: FiveTuple, i: nat)
    requires cfg.Valid() && IsRun(cfg, turns, states) && n < |states|
    requires var log := states[n].log.verdicts;
      IsOf(log, i, t) && log[i].action == Drop && ConnectionStaysOut(log, t, i)
    ensures Of(states[n].output.written, t) <= Of(Passed(states[n].log.verdicts[..i]), t)
    ensures Of(states[n].output.written, t.Reverse()) <= Of(Passed(states[n].log.verdicts[..i + 1]), t.Reverse())
  {
    var s := states[n];
    var log := s.log.verdicts;
    WrittenPassed(cfg, turns, states, n, t);
    WrittenPassed(cfg, turns, states, n, t.Reverse());
    DroppedAddNothing(log, t.Reverse(), i + 1);
    assert DroppedFrom(log, t, i);
    DroppedAddNothing(log, t, i);
  }

  lemma WrittenPassed(cfg: Config, turns: seq<Turn>, states: seq<State>, n: nat, t: FiveTuple)
    requires cfg.Valid() && IsRun(cfg, turns, states) && n < |states|
    ensures Of(states[n].output.written, t) <= Of(Passed(states[n].log.verdicts), t)
  {
    AlwaysFaithful(cfg, turns, states, n, t);
    var s := states[n];
    WrittenIsPassed(s.log.verdicts, s.workers[cfg.workerOf(t)], s.balancers[cfg.balancerOf(t)], s.reader, s.output, t);
  }

  // ---------------------------------------------------------------- a flow that reopens

  lemma TwoJobs(packets: seq<Pcap.RawPacket>, first: PacketJob, second: PacketJob)
    requires |packets| == 2 && JobOfPacket(packets[0], 0) == Some(first) && JobOfPacket(packets[1], 1) == Some(second)
    ensures JobsOf(JobOfPacket, packets, 0) == [first, second]
  {
    CreatedFirst(JobOfPacket, packets, 0);
    CreatedFirst(JobOfPacket, packets[1..], 1);
    var none := packets[1..][1..];
    assert none == [] && JobsOf(JobOfPacket, none, 2) == [];
    assert [second] + [] == [second];
  }

  lemma BlockedJobsReopen(rules: Rules.RuleSet, t: FiveTuple, packets: seq<Pcap.RawPacket>, first: PacketJob,
          second: PacketJob, name: seq<byte>)
    requires rules == Rules.NO_RULES.(apps := {Http}) && |packets| == 2
    requires JobOfPacket(packets[0], 0) == Some(first) && JobOfPacket(packets[1], 1) == Some(second)
    requires first.tuple == t && second.tuple == t && t.srcPort == 53 && t.dstPort == 80 && t.protocol == TCP
    requires first.Payload() == [0] && first.tcpFlags == 0
    requires 1 <= |name| <= 30 && DnsQuery.DOT !in name
    requires DnsQuery.CreateDnsQuery(0, name) == Some(second.Payload()) && second.tcpFlags == RST
    ensures LetThrough(rules, packets, t) == [second]
  {
    TwoJobs(packets, first, second);
    TwoOfOneFlow(first, second, t);
    FlowVerdict.BlockedFlowReopens(rules, t, [first, second], name);
    KeepsSecond(first, second);
  }

  /** Two frames of one TCP connection from port 53 to port 80. The first carries one byte
      and is dropped as HTTP, which is blocked; the second, a RST with a DNS query, is let
      through, though the connection was blocked. */
  lemma BlockedFramesReopen(rules: Rules.RuleSet, f: PacketParser.Frame, g: PacketParser.Frame, name: seq<byte>,
          packets: seq<Pcap.RawPacket>) returns (second: PacketJob)
    requires rules == Rules.NO_RULES.(apps := {Http})
    requires PacketParser.LegalFrame(f) && PacketParser.LegalFrame(g)
    requires f.transport.TcpSegment? && PacketParser.TupleOf(g) == PacketParser.TupleOf(f)
    requires f.transport.tcpSrc == 53 && f.transport.tcpDst == 80
    requires f.payload == [0] && f.transport.flags == 0
    requires 1 <= |name| <= 30 && DnsQuery.DOT !in name
    requires DnsQuery.CreateDnsQuery(0, name) == Some(g.payload) && PacketParser.FlagsOf(g) == RST
    requires |packets| == 2
    requires packets[0].data == PacketParser.EncodeFrame(f) && packets[1].data == PacketParser.EncodeFrame(g)
    ensures second.data == packets[1].data
    ensures LetThrough(rules, packets, PacketParser.TupleOf(f)) == [second]
  {
    PacketParser.JobOfEncoded(f, packets[0].header.tsSec, packets[0].header.tsUsec, 0);
    PacketParser.JobOfEncoded(g, packets[1].header.tsSec, packets[1].header.tsUsec, 1);
    second := JobOfPacket(packets[1], 1).value;
    BlockedJobsReopen(rules, PacketParser.TupleOf(f), packets, JobOfPacket(packets[0], 0).value, second, name);
  }

  /** A TCP frame from port 53 to port 80. */
  function FrameWith(srcIp: uint32, dstIp: uint32, flags: byte, payload: seq<byte>): PacketParser.Frame {
    PacketParser.Frame(Zeros(12), Zeros(7), 64, Zeros(2), srcIp, dstIp, [],
                       PacketParser.TcpSegment(53, 80, 0, 0, 0, flags, Zeros(6), []), payload)
  }

  function Zeros(n: nat): (zeros: seq<byte>)
    ensures |zeros| == n
  {
    seq(n, _ => 0)
  }

  /** A capture of two such frames, for any addresses and times: one byte, and a RST with a
      query for the domain "a". */
  function ReopeningCapture(srcIp: uint32, dstIp: uint32, first: Pcap.PacketHeader,
          second: Pcap.PacketHeader): seq<Pcap.RawPacket> {
    [Pcap.RawPacket(first, PacketParser.EncodeFrame(FrameWith(srcIp, dstIp, 0, [0]))),
     Pcap.RawPacket(second, PacketParser.EncodeFrame(FrameWith(srcIp, dstIp, RST, QueryForA())))]
  }

  function QueryForA(): seq<byte> {
    match DnsQuery.CreateDnsQuery(0, [97])
    case Some(query) => query
    case None => []
  }

  /** If HTTP is blocked, the first of them is dropped and the second is let through. */
  lemma ReopeningCaptureReopens(srcIp: uint32, dstIp: uint32, first: Pcap.PacketHeader, second: Pcap.PacketHeader)
    ensures var packets := ReopeningCapture(srcIp, dstIp, first, second);
      var through := LetThrough(Rules.NO_RULES.(apps := {Http}), packets, FiveTuple(srcIp, dstIp, 53, 80, TCP));
      |JobsOf(JobOfPacket, packets, 0)| == 2 && |through| == 1 && through[0].data == packets[1].data
  {
    var packets := ReopeningCapture(srcIp, dstIp, first, second);
    var f, g := FrameWith(srcIp, dstIp, 0, [0]), FrameWith(srcIp, dstIp, RST, QueryForA());
    DnsQuery.OneLabelQuery(0, [97]);
    var job := BlockedFramesReopen(Rules.NO_RULES.(apps := {Http}), f, g, [97], packets);
    PacketParser.JobOfEncoded(f, first.tsSec, first.tsUsec, 0);
    PacketParser.JobOfEncoded(g, second.tsSec, second.tsUsec, 1);
    TwoJobs(packets, JobOfPacket(packets[0], 0).value, JobOfPacket(packets[1], 1).value);
  }

  lemma TwoOfOneFlow(first: PacketJob, second: PacketJob, t: FiveTuple)
    requires first.tuple == t && second.tuple == t
    ensures Of([first, second], t) == [first, second]
  {
    OfFirst(first, [second], t);
    OneAlone(second, t);
    assert [first] + [second] == [first, second];
  }

  lemma KeepsSecond(first: PacketJob, second: PacketJob)
    ensures Kept([first, second], [Drop, Forward]) == [second]
  {
    assert [first, second][1..] == [second] && [Drop, Forward][1..] == [Forward];
    assert Kept([second], [Forward]) == [second] + Kept([second][1..], [Forward][1..]);
  }
}
