/** How the engine's own shutdown hangs and what it loses, with its dispatch, its verdicts,
    its tables and its queues of 10000. */
module EngineShutdown {
  import opened Types
  import opened Pipeline
  import opened RealShutdown
  import opened EngineTables
  import opened EngineLift
  import PipelineProgress
  import PipelineRuns
  import PipelineMemory
  import PipelineStop
  import PipelineHang
  import PipelineLoss
  import PipelineOrder
  import Engine
  import FlowVerdict
  import Rules
  import Dispatch
  import Pcap

  const QUEUE_CAP: nat := 10000

  /** An engine with its queues as they are. */
  function Built(rules: Rules.RuleSet, balancers: nat, perBalancer: nat, packets: seq<Pcap.RawPacket>): Config
    requires balancers > 0 && perBalancer > 0
  {
    Engine.EngineConfig(rules, balancers, perBalancer, QUEUE_CAP, QUEUE_CAP, QUEUE_CAP, packets)
  }

  function Jobs(packets: seq<Pcap.RawPacket>): seq<PacketJob> {
    Engine.JobsOf(Engine.JobOfPacket, packets, 0)
  }

  // ---------------------------------------------------------------- captures that the rules let through

  /** Each packet would be let through if it were the only one of its flow. */
  predicate Harmless(rules: Rules.RuleSet, jobs: seq<PacketJob>) {
    forall job :: job in jobs ==> FlowVerdict.HarmlessAlone(FlowVerdict.PolicyOf(rules, job.tuple),
        FlowVerdict.See(job))
  }

  /** A flow that holds nothing that the rules block. */
  predicate HoldsNothingBlocked(rules: Rules.RuleSet, t: FiveTuple, f: Flow) {
    && f.state != Blocked
    && (f.state == Classified || f.app != Unknown || f.sni != "" ==> !FlowVerdict.Blocks(rules, t, f.app, f.sni))
  }

  function NothingBlocked(rules: Rules.RuleSet): PipelineHang.Allows {
    (t: FiveTuple, f: Flow) => HoldsNothingBlocked(rules, t, f)
  }

  lemma TcpKeepsHeld(rules: Rules.RuleSet, t: FiveTuple, f: Flow, flags: byte)
    requires HoldsNothingBlocked(rules, t, f)
    ensures HoldsNothingBlocked(rules, t, FlowVerdict.TcpStep(f, flags))
    ensures FlowVerdict.TcpStep(f, flags).state == Classified ==> f.state == Classified
  {
  }

  /** A packet that is harmless by itself is so in every flow of such packets. */
  lemma HarmlessStep(rules: Rules.RuleSet, f: Flow, job: PacketJob)
    requires HoldsNothingBlocked(rules, job.tuple, f)
    requires FlowVerdict.HarmlessAlone(FlowVerdict.PolicyOf(rules, job.tuple), FlowVerdict.See(job))
    ensures FlowVerdict.StepFlow(rules, f, job).1 == Forward
    ensures HoldsNothingBlocked(rules, job.tuple, FlowVerdict.StepFlow(rules, f, job).0)
  {
    TcpKeepsHeld(rules, job.tuple, f, job.tcpFlags);
  }

  lemma BuiltAdmits(rules: Rules.RuleSet, balancers: nat, perBalancer: nat, packets: seq<Pcap.RawPacket>)
    requires balancers > 0 && perBalancer > 0 && Harmless(rules, Jobs(packets))
    ensures Built(rules, balancers, perBalancer, packets).Valid()
    ensures PipelineHang.Admits(Built(rules, balancers, perBalancer, packets), NothingBlocked(rules))
  {
    var cfg := Built(rules, balancers, perBalancer, packets);
    Engine.EngineIsValid(rules, balancers, perBalancer, QUEUE_CAP, QUEUE_CAP, QUEUE_CAP, packets);
    forall f, job: PacketJob | NothingBlocked(rules)(job.tuple, f) && job in PipelineOrder.Created(cfg.input)
      ensures PipelineHang.Admitted(cfg.process, NothingBlocked(rules), f, job)
    {
      HarmlessStep(rules, f, job);
    }
  }

  lemma OnlyHarmlessAdmitted(cfg: Config, rules: Rules.RuleSet, ok: PipelineHang.Allows)
    requires cfg.process == Engine.Verdicts(rules) && PipelineHang.Admits(cfg, ok)
    ensures Harmless(rules, PipelineOrder.Created(cfg.input))
  {
    forall job | job in PipelineOrder.Created(cfg.input)
      ensures FlowVerdict.HarmlessAlone(FlowVerdict.PolicyOf(rules, job.tuple), FlowVerdict.See(job))
    {
      assert PipelineHang.Admitted(cfg.process, ok, FlowVerdict.FRESH, job);
      FlowVerdict.FirstOfEntry(FlowVerdict.PolicyOf(rules, job.tuple), FlowVerdict.See(job));
    }
  }

  /** These are exactly the captures of which no packet is dropped in any state that packets of
      the capture lead its flow to. */
  lemma HarmlessIff(rules: Rules.RuleSet, balancers: nat, perBalancer: nat, packets: seq<Pcap.RawPacket>)
    requires balancers > 0 && perBalancer > 0
    ensures Harmless(rules, Jobs(packets)) <==>
      exists ok :: PipelineHang.Admits(Built(rules, balancers, perBalancer, packets), ok)
  {
    var cfg := Built(rules, balancers, perBalancer, packets);
    if Harmless(rules, Jobs(packets)) {
      BuiltAdmits(rules, balancers, perBalancer, packets);
    }
    if ok :| PipelineHang.Admits(cfg, ok) {
      OnlyHarmlessAdmitted(cfg, rules, ok);
    }
  }

  lemma BuiltHasOneFeeder(rules: Rules.RuleSet, balancers: nat, perBalancer: nat, packets: seq<Pcap.RawPacket>)
    requires balancers > 0 && perBalancer > 0
    ensures PipelineLoss.OneFeeder(Built(rules, balancers, perBalancer, packets))
  {
    var cfg := Built(rules, balancers, perBalancer, packets);
    forall t, u | cfg.workerOf(t) == cfg.workerOf(u)
      ensures cfg.balancerOf(t) == cfg.balancerOf(u)
    {
      Dispatch.OneFeederPerWorker(t, balancers, perBalancer);
      Dispatch.OneFeederPerWorker(u, balancers, perBalancer);
    }
  }

  // ---------------------------------------------------------------- the engine

  /** The engine hangs, exactly: with any numbers of balancers and workers, tables of any size
      and a capture whose packets are each harmless by themselves, `stop` can hang for ever if
      and only if the capture has more than 10000 jobs. */
  lemma EngineHangIff(rules: Rules.RuleSet, balancers: nat, perBalancer: nat, packets: seq<Pcap.RawPacket>, max: nat)
    requires balancers > 0 && perBalancer > 0 && Harmless(rules, Jobs(packets))
    ensures var cfg := Built(rules, balancers, perBalancer, packets);
      (exists q :: RealReachable(cfg, rules, max, q) && PipelineProgress.Deadlocked(cfg, q.state)) <==>
      |Jobs(packets)| > 10000
  {
    BuiltAdmits(rules, balancers, perBalancer, packets);
    HangFromStartIff(Built(rules, balancers, perBalancer, packets), rules, max, NothingBlocked(rules));
  }

  /** With any rules: if the tables have room and the capture has at most 20002 jobs, `stop` can
      hang for ever on a run that remembers all flows if and only if more than 10000 of the
      jobs are let through. */
  lemma EngineShortHangIff(rules: Rules.RuleSet, balancers: nat, perBalancer: nat, packets: seq<Pcap.RawPacket>,
          max: nat)
    requires balancers > 0 && perBalancer > 0 && |Jobs(packets)| <= 20002
    requires HasRoom(Built(rules, balancers, perBalancer, packets), max)
    ensures var cfg := Built(rules, balancers, perBalancer, packets);
      (exists q :: RealReachable(cfg, rules, max, q) && PipelineProgress.Deadlocked(cfg, q.state) &&
          PipelineMemory.RemembersAll(q.state.log.verdicts)) <==>
      |PipelineRuns.LetThrough(Engine.Verdicts(rules), Jobs(packets)).1| > 10000
  {
    var cfg := Built(rules, balancers, perBalancer, packets);
    Engine.EngineIsValid(rules, balancers, perBalancer, QUEUE_CAP, QUEUE_CAP, QUEUE_CAP, packets);
    ShortHangIff(cfg, rules, max);
  }

  /** The engine loses packets: with any numbers of balancers and workers, tables of any size
      and a capture whose packets are each harmless by themselves, `stop` can complete with a
      packet unwritten as soon as there is one job. */
  lemma EngineLoses(rules: Rules.RuleSet, balancers: nat, perBalancer: nat, packets: seq<Pcap.RawPacket>, max: nat)
    returns (q: Real)
    requires balancers > 0 && perBalancer > 0 && Harmless(rules, Jobs(packets)) && Jobs(packets) != []
    ensures RealReachable(Built(rules, balancers, perBalancer, packets), rules, max, q) && q.state.phase == Stopped
    ensures q.state.log.dropped == 0 && |q.state.output.written| == |Jobs(packets)| - 1
  {
    BuiltAdmits(rules, balancers, perBalancer, packets);
    q := RealLosesFromStart(Built(rules, balancers, perBalancer, packets), rules, max, NothingBlocked(rules));
  }

  /** What the engine loses of such a capture, exactly, with tables of any size: from any state
      with all frames read and `stop` not begun, every `stop` that completes leaves the file
      with the whole of a flow if and only if the whole was handed over by then. */
  lemma EngineLosesHarmlessIff(rules: Rules.RuleSet, balancers: nat, perBalancer: nat, packets: seq<Pcap.RawPacket>,
          max: nat, r: Real, t: FiveTuple)
    requires balancers > 0 && perBalancer > 0 && Harmless(rules, Jobs(packets))
    requires RealReachable(Built(rules, balancers, perBalancer, packets), rules, max, r) && AboutToStop(r)
    ensures var cfg := Built(rules, balancers, perBalancer, packets);
      (forall q :: Completes(cfg, rules, max, r, q) ==>
          PipelineOrder.Of(q.state.output.written, t) == PipelineOrder.Of(Jobs(packets), t)) <==>
      PipelineOrder.Of(PipelineStop.Handed(r.state), t) == PipelineOrder.Of(Jobs(packets), t)
  {
    var cfg, ok := Built(rules, balancers, perBalancer, packets), NothingBlocked(rules);
    BuiltAdmits(rules, balancers, perBalancer, packets);
    BuiltHasOneFeeder(rules, balancers, perBalancer, packets);
    PipelineLoss.AdmittedIsExpected(cfg, ok, t);
    AdmittedLeavesWholeIff(cfg, rules, max, ok, r, t);
    forall q | Completes(cfg, rules, max, r, q)
      ensures PipelineLoss.Whole(cfg, q.state.output.written, t) <==>
        PipelineOrder.Of(q.state.output.written, t) == PipelineOrder.Of(Jobs(packets), t)
    {
    }
  }

  /** What the engine loses, exactly, for all rules, if its tables have room for the capture:
      from any state with all frames read, `stop` not begun and the flow kept, every `stop`
      that completes on a run that remembers the flow leaves the file with all that the
      verdicts on it let through if and only if all of it was handed over by then. */
  lemma EngineLosesIff(rules: Rules.RuleSet, balancers: nat, perBalancer: nat, packets: seq<Pcap.RawPacket>,
          max: nat, r: Real, t: FiveTuple)
    requires balancers > 0 && perBalancer > 0 && HasRoom(Built(rules, balancers, perBalancer, packets), max)
    requires RealReachable(Built(rules, balancers, perBalancer, packets), rules, max, r) && AboutToStop(r)
    requires PipelineMemory.Keeps(Built(rules, balancers, perBalancer, packets), r.state, t)
    ensures var cfg := Built(rules, balancers, perBalancer, packets);
      (forall q :: Completes(cfg, rules, max, r, q) && PipelineMemory.Remembers(q.state.log.verdicts, t) ==>
          PipelineOrder.Of(q.state.output.written, t) == Engine.LetThrough(rules, packets, t)) <==>
      PipelineOrder.Of(PipelineStop.Handed(r.state), t) == Engine.LetThrough(rules, packets, t)
  {
    var cfg := Built(rules, balancers, perBalancer, packets);
    Engine.EngineIsValid(rules, balancers, perBalancer, QUEUE_CAP, QUEUE_CAP, QUEUE_CAP, packets);
    BuiltHasOneFeeder(rules, balancers, perBalancer, packets);
    Engine.ExpectedIsLetThrough(cfg, rules, packets, t);
    StopLeavesWholeIff(cfg, rules, max, r, t);
    forall q | Completes(cfg, rules, max, r, q) && PipelineMemory.Remembers(q.state.log.verdicts, t)
      ensures PipelineLoss.Whole(cfg, q.state.output.written, t) <==>
        PipelineOrder.Of(q.state.output.written, t) == Engine.LetThrough(rules, packets, t)
    {
    }
  }
}
