/** The engine as it is put together: the pipeline with the engine's dispatch, verdicts
    and input, its tables, its reader loop and the file it leaves behind. */
module Engine {
  import opened Types
  import opened Pipeline
  import PipelineOrder
  import PipelineAccounts
  import FlowVerdict
  import Rules
  import Dispatch
  import FlowHash
  import Pcap
  import PacketParser
  import ConnectionTable
  import FastPath

  // ---------------------------------------------------------------- the input

  /** `packet_id++` on 32 bits. */
  function NextId(id: uint32, job: Option<PacketJob>): uint32 {
    if job.Some? then (id + 1) % 0x1_0000_0000 else id
  }

  /** How the reader makes a job of a packet, if it does. */
  type Maker = (Pcap.RawPacket, uint32) -> Option<PacketJob>

  function JobOfPacket(packet: Pcap.RawPacket, id: uint32): Option<PacketJob> {
    PacketParser.JobOf(packet.data, packet.header.tsSec, packet.header.tsUsec, id)
  }

  /** A job for every packet of the capture that the reader does not skip. */
  function InputOf(make: Maker, packets: seq<Pcap.RawPacket>, id: uint32): seq<Option<PacketJob>> {
    if packets == [] then []
    else
      var job := make(packets[0], id);
      [job] + InputOf(make, packets[1..], NextId(id, job))
  }

  function JobsOf(make: Maker, packets: seq<Pcap.RawPacket>, id: uint32): seq<PacketJob> {
    PipelineOrder.Created(InputOf(make, packets, id))
  }

  lemma CreatedFirst(make: Maker, packets: seq<Pcap.RawPacket>, id: uint32)
    requires packets != []
    ensures var job := make(packets[0], id);
      JobsOf(make, packets, id) == PipelineOrder.Hand(job) + JobsOf(make, packets[1..], NextId(id, job))
  {
    var job := make(packets[0], id);
    var rest := InputOf(make, packets[1..], NextId(id, job));
    assert InputOf(make, packets, id)[1..] == rest;
  }

  predicate Numbered(jobs: seq<PacketJob>, id: uint32) {
    forall k :: 0 <= k < |jobs| ==> jobs[k].packetId == (id + k) % 0x1_0000_0000
  }

  ghost predicate UsesId(make: Maker) {
    forall p, id :: make(p, id).Some? ==> make(p, id).value.packetId == id
  }

  lemma NextNumber(id: uint32, k: nat)
    ensures ((id + 1) % 0x1_0000_0000 + k) % 0x1_0000_0000 == (id + (k + 1)) % 0x1_0000_0000
  {
  }

  lemma NumberedFirst(job: PacketJob, rest: seq<PacketJob>, id: uint32)
    requires job.packetId == id && Numbered(rest, (id + 1) % 0x1_0000_0000)
    ensures Numbered([job] + rest, id)
  {
    var jobs := [job] + rest;
    forall k | 0 <= k < |jobs|
      ensures jobs[k].packetId == (id + k) % 0x1_0000_0000
    {
      if k > 0 {
        NextNumber(id, k - 1);
        assert jobs[k] == rest[k - 1];
      }
    }
  }

  lemma {:induction false} JobsAreNumberedBy(make: Maker, packets: seq<Pcap.RawPacket>, id: uint32)
    requires UsesId(make)
    ensures Numbered(JobsOf(make, packets, id), id)
  {
    if packets == [] {
    } else {
      var job := make(packets[0], id);
      JobsAreNumberedBy(make, packets[1..], NextId(id, job));
      CreatedFirst(make, packets, id);
      if job.Some? {
        NumberedFirst(job.value, JobsOf(make, packets[1..], NextId(id, job)), id);
      } else {
        assert [] + JobsOf(make, packets[1..], id) == JobsOf(make, packets[1..], id);
      }
    }
  }

  /** The jobs are numbered in the order of the file, skipped packets not counted. */
  lemma JobsAreNumbered(packets: seq<Pcap.RawPacket>)
    ensures Numbered(JobsOf(JobOfPacket, packets, 0), 0)
  {
    JobsAreNumberedBy(JobOfPacket, packets, 0);
  }

  /** The job carries the packet's own bytes and time. */
  predicate CarriedBy(job: PacketJob, packet: Pcap.RawPacket) {
    && job.data == packet.data && |job.data| >= 42
    && job.tsSec == packet.header.tsSec && job.tsUsec == packet.header.tsUsec
  }

  ghost predicate Carries(make: Maker) {
    forall p, id :: make(p, id).Some? ==> CarriedBy(make(p, id).value, p)
  }

  lemma JobCarriesPacket()
    ensures Carries(JobOfPacket)
  {
    forall p: Pcap.RawPacket, id: uint32 | JobOfPacket(p, id).Some?
      ensures CarriedBy(JobOfPacket(p, id).value, p)
    {
      PacketParser.JobDataLength(p.data, p.header.tsSec, p.header.tsUsec, id);
    }
  }

  /** Every job comes from a packet of the capture. */
  lemma {:induction false} JobsCarryPackets(make: Maker, packets: seq<Pcap.RawPacket>, id: uint32,
          job: PacketJob) returns (packet: Pcap.RawPacket)
    requires Carries(make) && job in JobsOf(make, packets, id)
    ensures packet in packets && CarriedBy(job, packet)
  {
    CreatedFirst(make, packets, id);
    var first := make(packets[0], id);
    if first == Some(job) {
      packet := packets[0];
    } else {
      packet := JobsCarryPackets(make, packets[1..], NextId(id, first), job);
    }
  }

  datatype ReaderStats = ReaderStats(total: nat, totalBytes: nat, tcp: nat, udp: nat)

  lemma OneMoreCounted(jobs: seq<PacketJob>, job: PacketJob, protocol: byte)
    ensures FastPath.TotalSize(jobs + [job]) == FastPath.TotalSize(jobs) + |job.data|
    ensures PipelineAccounts.CountOf(jobs + [job], protocol) == PipelineAccounts.CountOf(jobs, protocol) +
      (if job.tuple.protocol == protocol then 1 else 0)
  {
    FastPath.TotalSizeNext(jobs, job);
    PipelineAccounts.CountOneMore(jobs, job, protocol);
  }

  predicate StatsOf(stats: ReaderStats, jobs: seq<PacketJob>) {
    && stats.total == |jobs| && stats.totalBytes == FastPath.TotalSize(jobs)
    && stats.tcp == PipelineAccounts.CountOf(jobs, TCP) && stats.udp == PipelineAccounts.CountOf(jobs, UDP)
  }

  ghost predicate IsReaders(make: Maker) {
    forall p, id {:trigger JobOfPacket(p, id)} :: make(p, id) == JobOfPacket(p, id)
  }

  /** The reader's treatment of one packet: parse, skip or make a job. */
  method TakePacket(packet: Pcap.RawPacket, id: uint32, ghost make: Maker) returns (job: Option<PacketJob>, tcp: bool)
    requires IsReaders(make)
    ensures job == make(packet, id)
    ensures job.Some? ==> job.value.tuple.protocol == if tcp then TCP else UDP
  {
    assert make(packet, id) == JobOfPacket(packet, id);
    var ok, p := PacketParser.ParsePacket(packet.data);
    if !ok || !p.hasIp || (!p.hasTcp && !p.hasUdp) {
      return None, false;
    }
    PacketParser.AcceptedTransport(packet.data, p);
    var made := PacketParser.BuildJob(packet.data, packet.header.tsSec, packet.header.tsUsec, p, id);
    return Some(made), p.hasTcp;
  }

  function Counted(stats: ReaderStats, job: PacketJob, tcp: bool): ReaderStats {
    ReaderStats(stats.total + 1, stats.totalBytes + |job.data|, stats.tcp + (if tcp then 1 else 0),
        stats.udp + (if tcp then 0 else 1))
  }

  lemma CountedStats(stats: ReaderStats, jobs: seq<PacketJob>, job: PacketJob, tcp: bool)
    requires StatsOf(stats, jobs) && job.tuple.protocol == if tcp then TCP else UDP
    ensures StatsOf(Counted(stats, job, tcp), jobs + [job])
  {
    OneMoreCounted(jobs, job, TCP);
    OneMoreCounted(jobs, job, UDP);
  }

  method ReadLoop(packets: seq<Pcap.RawPacket>, ghost make: Maker) returns (jobs: seq<PacketJob>, stats: ReaderStats)
    requires IsReaders(make)
    ensures jobs == JobsOf(make, packets, 0)
    ensures StatsOf(stats, jobs) && stats.total == stats.tcp + stats.udp
  {
    jobs, stats := [], ReaderStats(0, 0, 0, 0);
    var id: uint32 := 0;
    var rest := packets;
    while rest != []
      invariant jobs + JobsOf(make, rest, id) == JobsOf(make, packets, 0)
      invariant StatsOf(stats, jobs) && stats.total == stats.tcp + stats.udp
      decreases |rest|
    {
      var job, tcp := TakePacket(rest[0], id, make);
      CreatedFirst(make, rest, id);
      if job.Some? {
        CountedStats(stats, jobs, job.value, tcp);
        stats := stats.(total := stats.total + 1, totalBytes := stats.totalBytes + |job.value.data|);
        if tcp {
          stats := stats.(tcp := stats.tcp + 1);
        } else {
          stats := stats.(udp := stats.udp + 1);
        }
        jobs := jobs + [job.value];
      }
      id := NextId(id, job);
      rest := rest[1..];
    }
  }

  /** The reader's loop, with what it pushes and what it counts. */
  method ReadJobs(packets: seq<Pcap.RawPacket>) returns (jobs: seq<PacketJob>, stats: ReaderStats)
    ensures jobs == JobsOf(JobOfPacket, packets, 0)
    ensures StatsOf(stats, jobs) && stats.total == stats.tcp + stats.udp
  {
    jobs, stats := ReadLoop(packets, JobOfPacket);
  }

  // ---------------------------------------------------------------- the pipeline

  function Verdicts(rules: Rules.RuleSet): Process {
    (f, job) => FlowVerdict.StepFlow(rules, f, job)
  }

  function EngineConfig(rules: Rules.RuleSet, balancers: nat, perBalancer: nat,
                        balancerCap: nat, workerCap: nat, outputCap: nat, packets: seq<Pcap.RawPacket>): Config
    requires balancers > 0 && perBalancer > 0
  {
    Config(balancers, balancers * perBalancer,
           t => Dispatch.Balancer(t, balancers, perBalancer), t => Dispatch.GlobalWorker(t, balancers, perBalancer),
           Verdicts(rules), balancerCap, workerCap, outputCap, InputOf(JobOfPacket, packets, 0))
  }

  /** Dispatch never misses: every tuple has a balancer and a worker. */
  lemma EngineIsValid(rules: Rules.RuleSet, balancers: nat, perBalancer: nat,
                      balancerCap: nat, workerCap: nat, outputCap: nat, packets: seq<Pcap.RawPacket>)
    requires balancers > 0 && perBalancer > 0 && balancerCap > 0 && workerCap > 0 && outputCap > 0
    ensures EngineConfig(rules, balancers, perBalancer, balancerCap, workerCap, outputCap, packets).Valid()
  {
    forall t: FiveTuple
      ensures Dispatch.GlobalWorker(t, balancers, perBalancer) < balancers * perBalancer
    {
      Dispatch.TwoTiersAreOne(t, balancers, perBalancer);
    }
    Dispatch.TwoTiersAreOne(FiveTuple(0, 0, 0, 0, 0), balancers, perBalancer);
  }

  /** One worker for each tuple, named by the hash modulo the number of workers, and reached through
      one balancer. */
  lemma EngineDispatch(rules: Rules.RuleSet, balancers: nat, perBalancer: nat, balancerCap: nat, workerCap: nat,
          outputCap: nat, packets: seq<Pcap.RawPacket>, t: FiveTuple)
    requires balancers > 0 && perBalancer > 0
    ensures var cfg := EngineConfig(rules, balancers, perBalancer, balancerCap, workerCap, outputCap, packets);
      && cfg.balancers == balancers && cfg.workers == balancers * perBalancer > 0
      && cfg.workerOf(t) == FlowHash.Hash(t) % cfg.workers
      && cfg.balancerOf(t) == FlowHash.Hash(t) / perBalancer % balancers == cfg.workerOf(t) / perBalancer
      && cfg.balancerCap == balancerCap && cfg.workerCap == workerCap && cfg.outputCap == outputCap
  {
    Dispatch.TwoTiersAreOne(t, balancers, perBalancer);
    Dispatch.OneFeederPerWorker(t, balancers, perBalancer);
  }

  /** The jobs that the filter lets through. */
  function Kept(jobs: seq<PacketJob>, actions: seq<PacketAction>): seq<PacketJob>
    requires |jobs| == |actions|
  {
    if jobs == [] then []
    else if actions[0] == Drop then Kept(jobs[1..], actions[1..])
    else [jobs[0]] + Kept(jobs[1..], actions[1..])
  }

  /** Folding from a state. */
  function From(process: Process, f: Flow,
          jobs: seq<PacketJob>): (Flow, seq<PacketJob>)
    decreases |jobs|
  {
    if jobs == [] then (f, [])
    else
      var (g, action) := process(f, jobs[0]);
      var (h, rest) := From(process, g, jobs[1..]);
      (h, if action == Drop then rest else [jobs[0]] + rest)
  }

  lemma {:induction false} FromOneMore(process: Process, f: Flow,
          jobs: seq<PacketJob>, job: PacketJob)
    ensures var (g, through) := From(process, f, jobs);
      From(process, f, jobs + [job]) ==
          (process(g, job).0, if process(g, job).1 == Drop then through else through + [job])
    decreases |jobs|
  {
    var all := jobs + [job];
    if jobs == [] {
      assert all[0] == job && all[1..] == [];
      var none: seq<PacketJob> := [];
      assert From(process, f, jobs) == (f, none) && none + [job] == [job] == [job] + none;
      assert From(process, process(f, job).0, all[1..]) == (process(f, job).0, none);
    } else {
      var (g, action) := process(f, jobs[0]);
      FromOneMore(process, g, jobs[1..], job);
      assert all[0] == jobs[0] && all[1..] == jobs[1..] + [job];
      assert [jobs[0]] + (From(process, g, jobs[1..]).1 + [job]) == [jobs[0]] + From(process, g, jobs[1..]).1 + [job];
    }
  }

  lemma {:induction false} AloneIsFrom(process: Process, jobs: seq<PacketJob>)
    ensures PipelineOrder.Alone(process, jobs) == From(process, FlowVerdict.FRESH, jobs)
    decreases |jobs|
  {
    if jobs == [] {
    } else {
      var front := jobs[..|jobs| - 1];
      AloneIsFrom(process, front);
      FromOneMore(process, FlowVerdict.FRESH, front, jobs[|jobs| - 1]);
      assert jobs == front + [jobs[|jobs| - 1]];
    }
  }

  lemma {:induction false} FromIsFilter(rules: Rules.RuleSet, f: Flow, jobs: seq<PacketJob>)
    ensures From(Verdicts(rules), f, jobs).1 == Kept(jobs, FlowVerdict.Filter(rules, f, jobs))
    decreases |jobs|
  {
    if jobs == [] {
    } else {
      FromIsFilter(rules, FlowVerdict.StepFlow(rules, f, jobs[0]).0, jobs[1..]);
    }
  }

  /** The fold of the pipeline is the flow's filter. */
  lemma AloneIsFilter(rules: Rules.RuleSet, jobs: seq<PacketJob>)
    ensures PipelineOrder.Alone(Verdicts(rules), jobs).1 ==
      Kept(jobs, FlowVerdict.Filter(rules, FlowVerdict.FRESH, jobs))
  {
    AloneIsFrom(Verdicts(rules), jobs);
    FromIsFilter(rules, FlowVerdict.FRESH, jobs);
  }

  /** One flow of the capture. */
  function FlowOf(packets: seq<Pcap.RawPacket>, t: FiveTuple): seq<PacketJob> {
    PipelineOrder.Of(JobsOf(JobOfPacket, packets, 0), t)
  }

  /** What the verdicts on that flow alone let through. */
  function LetThrough(rules: Rules.RuleSet, packets: seq<Pcap.RawPacket>, t: FiveTuple): seq<PacketJob> {
    Kept(FlowOf(packets, t), FlowVerdict.Filter(rules, FlowVerdict.FRESH, FlowOf(packets, t)))
  }

  /** A run of an engine. */
  ghost predicate EngineRun(cfg: Config, rules: Rules.RuleSet, packets: seq<Pcap.RawPacket>, turns: seq<Turn>,
          states: seq<State>) {
    && cfg.Valid() && cfg.process == Verdicts(rules) && cfg.input == InputOf(JobOfPacket, packets, 0)
    && IsRun(cfg, turns, states)
  }

  lemma ExpectedIsLetThrough(cfg: Config, rules: Rules.RuleSet, packets: seq<Pcap.RawPacket>, t: FiveTuple)
    requires cfg.process == Verdicts(rules) && cfg.input == InputOf(JobOfPacket, packets, 0)
    ensures PipelineOrder.Expected(cfg, t) == LetThrough(rules, packets, t)
  {
    AloneIsFilter(rules, FlowOf(packets, t));
  }

  /** The engine refines the filter: for every run and every flow that no table has lost,
      the packets written are, in order, a prefix of what the verdicts on that flow's
      packets alone let through, and all of it once nothing is on its way. */
  lemma EngineRefinesFilter(cfg: Config, rules: Rules.RuleSet, packets: seq<Pcap.RawPacket>, turns: seq<Turn>,
          states: seq<State>, n: nat, t: FiveTuple)
    requires EngineRun(cfg, rules, packets, turns, states) && n < |states| && t !in states[n].log.lost
    ensures PipelineOrder.Of(states[n].output.written, t) <= LetThrough(rules, packets, t)
    ensures PipelineOrder.Drained(states[n]) ==>
      PipelineOrder.Of(states[n].output.written, t) == LetThrough(rules, packets, t)
  {
    ExpectedIsLetThrough(cfg, rules, packets, t);
    PipelineOrder.OutputRefinesFilter(cfg, turns, states, n, t);
    if PipelineOrder.Drained(states[n]) {
      PipelineOrder.QuietStopLosesNothing(cfg, turns, states, n, n, t);
    }
  }

  lemma {:induction false} KeptBefore(jobs: seq<PacketJob>, actions: seq<PacketAction>, i: nat)
    requires i <= |jobs| == |actions| && forall k :: i <= k < |jobs| ==> actions[k] == Drop
    ensures Kept(jobs, actions) == Kept(jobs[..i], actions[..i])
    decreases |jobs|
  {
    if jobs == [] {
    } else {
      if i == 0 {
        KeptBefore(jobs[1..], actions[1..], 0);
        assert jobs[1..][..0] == [] == jobs[..0];
      } else {
        KeptBefore(jobs[1..], actions[1..], i - 1);
        assert jobs[..i][1..] == jobs[1..][..i - 1] && actions[..i][1..] == actions[1..][..i - 1];
      }
    }
  }

  lemma {:induction false} OfIsOneFlow(jobs: seq<PacketJob>, t: FiveTuple)
    ensures FlowVerdict.OneFlow(t, PipelineOrder.Of(jobs, t))
  {
    if jobs == [] {
    } else {
      OfIsOneFlow(jobs[..|jobs| - 1], t);
    }
  }

  /** Blocking, end to end: once the verdict on a packet of a flow is to drop it and no
      later packet reopens the flow, nothing from that packet on is ever written, as
      long as no table loses the flow. */
  lemma BlockedFlowStaysOut(cfg: Config, rules: Rules.RuleSet, packets: seq<Pcap.RawPacket>, turns: seq<Turn>,
          states: seq<State>, n: nat, t: FiveTuple, i: nat)
    requires EngineRun(cfg, rules, packets, turns, states) && n < |states| && t !in states[n].log.lost
    requires i < |FlowOf(packets, t)| && FlowVerdict.Filter(rules, FlowVerdict.FRESH, FlowOf(packets, t))[i] == Drop
    requires FlowVerdict.NeverReopened(FlowVerdict.PolicyOf(rules, t), FlowVerdict.SeeAll(FlowOf(packets, t)), i)
    ensures PipelineOrder.Of(states[n].output.written, t) <=
      Kept(FlowOf(packets, t)[..i], FlowVerdict.Filter(rules, FlowVerdict.FRESH, FlowOf(packets, t))[..i])
  {
    var jobs := FlowOf(packets, t);
    OfIsOneFlow(JobsOf(JobOfPacket, packets, 0), t);
    FlowVerdict.FilterBlockingPersistsIff(rules, t, jobs, i);
    KeptBefore(jobs, FlowVerdict.Filter(rules, FlowVerdict.FRESH, jobs), i);
    EngineRefinesFilter(cfg, rules, packets, turns, states, n, t);
  }

  // ---------------------------------------------------------------- blocked addresses

  predicate AddressBlocked(rules: Rules.RuleSet, t: FiveTuple) {
    t.srcIp in rules.ips || t.dstPort in rules.ports
  }

  /** A process that drops what has a blocked address. */
  ghost predicate Heeds(process: Process, rules: Rules.RuleSet) {
    forall f: Flow, job: PacketJob :: AddressBlocked(rules, job.tuple) ==> process(f, job).1 == Drop
  }

  lemma VerdictsHeed(rules: Rules.RuleSet)
    ensures Heeds(Verdicts(rules), rules)
  {
    forall f: Flow, job: PacketJob | AddressBlocked(rules, job.tuple)
      ensures Verdicts(rules)(f, job).1 == Drop
    {
      FlowVerdict.BlockedAddressAlwaysDrops(rules, f, job);
    }
  }

  predicate Clean(rules: Rules.RuleSet, verdicts: seq<Verdict>) {
    forall k :: 0 <= k < |verdicts| && AddressBlocked(rules, verdicts[k].job.tuple) ==> verdicts[k].action == Drop
  }

  lemma StepStaysClean(cfg: Config, rules: Rules.RuleSet, s: State, turn: Turn)
    requires Heeds(cfg.process, rules) && Enabled(cfg, s, turn) && Clean(rules, s.log.verdicts)
    ensures Clean(rules, Next(cfg, s, turn).log.verdicts)
  {
  }

  lemma {:induction false} AlwaysClean(cfg: Config, rules: Rules.RuleSet, turns: seq<Turn>, states: seq<State>, n: nat)
    requires Heeds(cfg.process, rules) && IsRun(cfg, turns, states) && n < |states|
    ensures Clean(rules, states[n].log.verdicts)
  {
    if n == 0 {
    } else {
      var m := n - 1;
      AlwaysClean(cfg, rules, turns, states, m);
      assert IsStep(cfg, turns, states, m);
      StepStaysClean(cfg, rules, states[m], turns[m]);
    }
  }

  lemma {:induction false} PassedIsForwarded(rules: Rules.RuleSet, verdicts: seq<Verdict>,
          job: PacketJob)
    requires Clean(rules, verdicts) && job in PipelineOrder.Passed(verdicts)
    ensures !AddressBlocked(rules, job.tuple)
    decreases |verdicts|
  {
    var last := verdicts[|verdicts| - 1];
    if last.action != Drop && job == last.job {
    } else {
      PassedIsForwarded(rules, verdicts[..|verdicts| - 1], job);
    }
  }

  lemma {:induction false} OfKeepsOwn(jobs: seq<PacketJob>, job: PacketJob)
    ensures job in jobs <==> job in PipelineOrder.Of(jobs, job.tuple)
  {
    if jobs == [] {
    } else {
      OfKeepsOwn(jobs[..|jobs| - 1], job);
      assert jobs == jobs[..|jobs| - 1] + [jobs[|jobs| - 1]];
    }
  }

  lemma WrittenWasPassed(cfg: Config, turns: seq<Turn>, states: seq<State>, n: nat, job: PacketJob)
    requires cfg.Valid() && IsRun(cfg, turns, states) && n < |states| && job in states[n].output.written
    ensures job in PipelineOrder.Passed(states[n].log.verdicts) && job in PipelineOrder.Jobs(states[n].log.verdicts)
    ensures job in PipelineOrder.Created(cfg.input)
  {
    var s, t := states[n], job.tuple;
    PipelineOrder.AlwaysFaithful(cfg, turns, states, n, t);
    var w, b := s.workers[cfg.workerOf(t)], s.balancers[cfg.balancerOf(t)];
    PipelineOrder.WrittenIsPassed(s.log.verdicts, w, b, s.reader, s.output, t);
    PipelineOrder.JudgedIsCreated(s.log.verdicts, w, b, s.reader, s.output, t);
    OfKeepsOwn(s.output.written, job);
    OfKeepsOwn(PipelineOrder.Passed(s.log.verdicts), job);
    PassedIsJudged(s.log.verdicts, job);
    OfKeepsOwn(PipelineOrder.Jobs(s.log.verdicts), job);
    OfKeepsOwn(s.reader.created, job);
    assert job in s.reader.created + PipelineOrder.Created(s.reader.unread);
  }

  lemma {:induction false} PassedIsJudged(verdicts: seq<Verdict>, job: PacketJob)
    requires job in PipelineOrder.Passed(verdicts)
    ensures job in PipelineOrder.Jobs(verdicts)
    decreases |verdicts|
  {
    var last := verdicts[|verdicts| - 1];
    if last.action != Drop && job == last.job {
    } else {
      PassedIsJudged(verdicts[..|verdicts| - 1], job);
    }
  }

  /** Whatever is evicted, cleaned up or shut down in whatever order: no packet from a
      blocked source address or to a blocked port is ever written. */
  lemma BlockedAddressNeverWritten(cfg: Config, rules: Rules.RuleSet, packets: seq<Pcap.RawPacket>,
          turns: seq<Turn>, states: seq<State>, n: nat, job: PacketJob)
    requires EngineRun(cfg, rules, packets, turns, states) && n < |states| && job in states[n].output.written
    ensures job.tuple.srcIp !in rules.ips && job.tuple.dstPort !in rules.ports
  {
    VerdictsHeed(rules);
    AlwaysClean(cfg, rules, turns, states, n);
    WrittenWasPassed(cfg, turns, states, n, job);
    PassedIsForwarded(rules, states[n].log.verdicts, job);
  }

  // ---------------------------------------------------------------- the output file

  function WrittenOf(jobs: seq<PacketJob>): (ws: seq<Pcap.Written>)
    ensures |ws| == |jobs|
    ensures forall k :: 0 <= k < |jobs| ==> ws[k] == Pcap.Written(jobs[k].tsSec, jobs[k].tsUsec, jobs[k].data)
  {
    seq(|jobs|, k requires 0 <= k < |jobs| => Pcap.Written(jobs[k].tsSec, jobs[k].tsUsec, jobs[k].data))
  }

  lemma ReaderPacketsAreLegal(file: seq<byte>, snaplen: uint32, swap: bool)
    requires |file| >= Pcap.GLOBAL_HEADER_LEN
    ensures Pcap.LegalPackets(Pcap.PacketsFrom(file, Pcap.GLOBAL_HEADER_LEN, snaplen, swap), snaplen)
  {
    Pcap.PacketsAreLongestRun(file, Pcap.GLOBAL_HEADER_LEN,
        Pcap.PacketsFrom(file, Pcap.GLOBAL_HEADER_LEN, snaplen, swap), snaplen, swap);
  }

  lemma WrittenIsFromReader(cfg: Config, packets: seq<Pcap.RawPacket>, turns: seq<Turn>, states: seq<State>,
          n: nat, snaplen: uint32)
    requires cfg.Valid() && IsRun(cfg, turns, states) && n < |states|
    requires cfg.input == InputOf(JobOfPacket, packets, 0) && Pcap.LegalPackets(packets, snaplen)
    ensures Pcap.FromReader(WrittenOf(states[n].output.written), snaplen)
  {
    var jobs := states[n].output.written;
    JobCarriesPacket();
    forall k | 0 <= k < |jobs|
      ensures 1 <= |jobs[k].data| <= Pcap.MAX_PACKET && |jobs[k].data| <= snaplen
    {
      WrittenWasPassed(cfg, turns, states, n, jobs[k]);
      var packet := JobsCarryPackets(JobOfPacket, packets, 0, jobs[k]);
      assert Pcap.LegalPacket(packet, snaplen);
    }
  }

  /** The capture that the engine leaves behind reads back as exactly the packets
      written, in order and with their times, if the input was in native byte order
      or nothing was written, and only then. */
  lemma EngineOutputReadableIff(cfg: Config, file: seq<byte>, turns: seq<Turn>, states: seq<State>, n: nat)
    requires cfg.Valid() && IsRun(cfg, turns, states) && n < |states| && Pcap.OpenHeader(file).Some?
    requires var (h, swap) := Pcap.OpenHeader(file).value;
      cfg.input == InputOf(JobOfPacket, Pcap.PacketsFrom(file, Pcap.GLOBAL_HEADER_LEN, h.snaplen, swap), 0)
    ensures var ws := WrittenOf(states[n].output.written);
      var output := Pcap.OutputFile(Pcap.OpenHeader(file).value.0, ws);
      Pcap.OpenHeader(output).Some? &&
      var (h, swap) := Pcap.OpenHeader(output).value;
      (Pcap.PacketsFrom(output, Pcap.GLOBAL_HEADER_LEN, h.snaplen, swap) == Pcap.Records(ws) <==>
        Pcap.RawGlobalHeader(file).magic == Pcap.MAGIC_NATIVE || ws == [])
  {
    var (h, swap) := Pcap.OpenHeader(file).value;
    ReaderPacketsAreLegal(file, h.snaplen, swap);
    WrittenIsFromReader(cfg, Pcap.PacketsFrom(file, Pcap.GLOBAL_HEADER_LEN, h.snaplen, swap), turns, states, n,
        h.snaplen);
    Pcap.OutputReadableIff(file, WrittenOf(states[n].output.written));
  }

  // ---------------------------------------------------------------- the tables

  /** What the pipeline sees of a table: the flow of each tuple. */
  function Flows(T: ConnectionTable.Table): map<FiveTuple, Flow> {
    map t | t in T.connections :: T.connections[t].flow
  }

  /** What a packet or a cleanup takes out of a table. */
  function Gone(T: ConnectionTable.Table, e: FastPath.Event): set<FiveTuple> {
    match e
    case Packet(job, m) => if job.tuple !in T.connections && m.victim.Some? then {m.victim.value} else {}
    case Idle(now) => ConnectionTable.StaleKeys(T.connections, FastPath.IDLE_TIMEOUT, now)
  }

  lemma FlowsAfterPacket(policy: FlowVerdict.Policy, T: ConnectionTable.Table, job: PacketJob,
          m: FastPath.Moment, t: FiveTuple)
    requires m.victim != Some(job.tuple)
    ensures var U := FastPath.Process(policy, T, job.tuple, |job.data|, FlowVerdict.See(job), m).0;
      var flow := FlowVerdict.Step(policy, FastPath.FlowOf(T, job.tuple), FlowVerdict.See(job)).0;
      var after := (Flows(T) - Gone(T, FastPath.Packet(job, m)))[job.tuple := flow];
      (t in Flows(U) <==> t in after) && (t in Flows(U) ==> Flows(U)[t] == after[t])
  {
    if t == job.tuple {
      FastPath.ProcessIsStep(policy, T, job.tuple, |job.data|, FlowVerdict.See(job), m);
    } else {
      FastPath.ProcessIsolates(policy, T, job.tuple, |job.data|, FlowVerdict.See(job), m, t);
    }
  }

  /** A worker of the pipeline does to its flows what the fast path does to its table:
      a packet, with an eviction or without, is one turn of the pipeline's worker with
      the same verdict, and so is a cleanup. */
  lemma FastPathIsPipeline(rules: Rules.RuleSet, T: ConnectionTable.Table, max: nat, job: PacketJob, m: FastPath.Moment)
    requires ConnectionTable.LegalVictim(T.connections, max, job.tuple, m.victim)
    ensures var gone := Gone(T, FastPath.Packet(job, m));
      var (U, action) := FastPath.Process(FlowVerdict.PolicyOf(rules, job.tuple), T, job.tuple, |job.data|,
          FlowVerdict.See(job), m);
      && job.tuple !in gone
      && (Lookup(Flows(T), job.tuple) == FastPath.FlowOf(T, job.tuple))
      && action == FlowVerdict.StepFlow(rules, Lookup(Flows(T), job.tuple), job).1
      && Flows(U) == (Flows(T) - gone)[job.tuple := FlowVerdict.StepFlow(rules, Lookup(Flows(T), job.tuple), job).0]
  {
    var policy := FlowVerdict.PolicyOf(rules, job.tuple);
    FastPath.ProcessIsStep(policy, T, job.tuple, |job.data|, FlowVerdict.See(job), m);
    var U := FastPath.Process(policy, T, job.tuple, |job.data|, FlowVerdict.See(job), m).0;
    var flow := FlowVerdict.Step(policy, FastPath.FlowOf(T, job.tuple), FlowVerdict.See(job)).0;
    var after := (Flows(T) - Gone(T, FastPath.Packet(job, m)))[job.tuple := flow];
    forall t: FiveTuple
      ensures (t in Flows(U) <==> t in after) && (t in Flows(U) ==> Flows(U)[t] == after[t])
    {
      FlowsAfterPacket(policy, T, job, m, t);
    }
    assert Flows(U) == after;
  }

  lemma CleanupIsPipeline(T: ConnectionTable.Table, now: nat)
    ensures Flows(ConnectionTable.Apply(T, ConnectionTable.Cleanup(FastPath.IDLE_TIMEOUT, now))) ==
      Flows(T) - Gone(T, FastPath.Idle(now))
  {
  }
}
