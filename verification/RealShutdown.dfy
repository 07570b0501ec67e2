/** How `stop` hangs and what it loses, exactly, over the runs of the engine with its real
    tables: which can evict and clean up whatever their bound makes them. */
module RealShutdown {
  import opened Types
  import opened Pipeline
  import opened PipelineOrder
  import opened PipelineProgress
  import opened PipelineMemory
  import opened PipelineStop
  import opened PipelineHang
  import opened PipelineLoss
  import opened PipelineOneSlot
  import opened PipelineAlike
  import PipelineRuns
  import opened EngineTables
  import opened EngineLift
  import Engine
  import Rules

  /** All frames are read, and `stop` has not begun. */
  predicate AboutToStop(r: Real) {
    r.state.phase == Running && ReaderDone(r.state)
  }

  /** From the first state `stop` can be done in the second. */
  ghost predicate Completes(cfg: Config, rules: Rules.RuleSet, max: nat, r: Real, q: Real) {
    RealLeads(cfg, rules, max, r, q) && q.state.phase == Stopped
  }

  /** From the first state the writer can have left in the second. */
  ghost predicate WriterGoneAt(cfg: Config, rules: Rules.RuleSet, max: nat, r: Real, q: Real) {
    RealLeads(cfg, rules, max, r, q) && q.state.output.place == Exited
  }

  /** A capture with no more jobs than a table has entries has room. */
  lemma FewJobsHaveRoom(cfg: Config, max: nat)
    requires |Created(cfg.input)| <= max
    ensures HasRoom(cfg, max)
  {
    forall j | 0 <= j < cfg.workers
      ensures |TuplesAt(cfg, j)| <= max
    {
      SubsetSize(TuplesAt(cfg, j), TuplesOf(Created(cfg.input)));
      FewTuples(Created(cfg.input));
    }
  }

  lemma {:induction false} FewTuples(jobs: seq<PacketJob>)
    ensures |TuplesOf(jobs)| <= |jobs|
    decreases |jobs|
  {
    if jobs == [] {
    } else {
      var front, last := jobs[..|jobs| - 1], jobs[|jobs| - 1];
      FewTuples(front);
      assert jobs == front + [last];
      assert TuplesOf(jobs) == TuplesOf(front) + {last.tuple};
    }
  }

  /** All flows are kept at every point of a run without FIN or RST that is over within 300
      seconds, if each table has room for all tuples of the capture. */
  lemma ForgetlessKeepsAll(cfg: Config, rules: Rules.RuleSet, max: nat, moves: seq<Move>, reals: seq<Real>, start: nat,
          n: nat)
    requires RealRun(cfg, rules, max, moves, reals) && n < |reals| && Forgetless(cfg, max, moves, start)
    ensures HasRoom(cfg, max) && KeepsAll(cfg, reals[n].state) && RemembersAll(reals[n].state.log.verdicts)
  {
    NothingLost(cfg, rules, max, moves, reals, start, n);
    RealRunIsRun(cfg, rules, max, moves, reals);
    PipelineRuns.RunLeads(cfg, TurnsOf(reals, moves), StatesOf(reals), n, n);
    forall t
      ensures Keeps(cfg, reals[n].state, t)
    {
      UnlostIsKept(cfg, reals[n].state, t);
    }
    QuietNowhere(cfg, reals[n].state);
    QuietKeepsAll(cfg, reals[n].state, reals[n].state);
    forall j | 0 <= j < cfg.workers
      ensures |TuplesAt(cfg, j)| <= max
    {
      SubsetSize(TuplesAt(cfg, j), TuplesOf(Created(cfg.input)));
    }
  }

  // ---------------------------------------------------------------- hanging, with nothing dropped

  /** The hang, exactly, for captures of which nothing is dropped and tables of any size: from
      a state with all frames read and `stop` not begun, a deadlock can be reached if and only
      if more jobs are upstream of the output queue than it holds. */
  lemma AdmittedHangIff(cfg: Config, rules: Rules.RuleSet, max: nat, ok: Allows, r: Real)
    requires RealReachable(cfg, rules, max, r) && Admits(cfg, ok) && AboutToStop(r)
    ensures (exists q :: RealLeads(cfg, rules, max, r, q) && Deadlocked(cfg, q.state)) <==>
      Upstream(r.state) > cfg.outputCap
  {
    RealIsReachable(cfg, rules, max, r);
    if Upstream(r.state) > cfg.outputCap {
      var u := AdmittedHangs(cfg, ok, r.state);
      var q := AdmittedLift(cfg, rules, max, ok, r, u);
      DeadlockAlike(cfg, u, q.state);
    }
    if q :| RealLeads(cfg, rules, max, r, q) && Deadlocked(cfg, q.state) {
      RealLeadsLeads(cfg, rules, max, r, q);
      if Upstream(r.state) <= cfg.outputCap {
        RoomPreventsDeadlock(cfg, r.state, q.state);
      }
    }
  }

  lemma RealDeadlockBegins(cfg: Config, rules: Rules.RuleSet, max: nat, q: Real) returns (s: State)
    requires RealReachable(cfg, rules, max, q) && Deadlocked(cfg, q.state)
    ensures PipelineRuns.Reachable(cfg, s) && s.phase == Running && ReaderDone(s) && Upstream(s) > cfg.outputCap
  {
    RealIsReachable(cfg, rules, max, q);
    s := DeadlockBegins(cfg, q.state);
  }

  lemma RealHangsFromStart(cfg: Config, rules: Rules.RuleSet, max: nat, ok: Allows) returns (q: Real)
    requires cfg.Valid() && cfg.process == Engine.Verdicts(rules) && Admits(cfg, ok)
    requires |Created(cfg.input)| > cfg.outputCap && cfg.outputCap < cfg.balancerCap + cfg.workerCap + 2
    ensures RealReachable(cfg, rules, max, q) && Deadlocked(cfg, q.state)
  {
    StartIsReachable(cfg, rules, max);
    var u := HangsFromStart(cfg, ok);
    q := AdmittedLift(cfg, rules, max, ok, RealStart(cfg), u);
    RealLeadsReaches(cfg, rules, max, RealStart(cfg), q);
    DeadlockAlike(cfg, u, q.state);
  }

  /** The hang from the start, exactly: if the output queue holds no more than one balancer and
      one worker with their queues, as where all three capacities are equal, then a capture
      of which nothing is dropped can hang the engine if and only if it has more jobs than the
      output queue holds; whatever the tables' bound. */
  lemma HangFromStartIff(cfg: Config, rules: Rules.RuleSet, max: nat, ok: Allows)
    requires cfg.Valid() && cfg.process == Engine.Verdicts(rules) && Admits(cfg, ok)
    requires cfg.outputCap < cfg.balancerCap + cfg.workerCap + 2
    ensures (exists q :: RealReachable(cfg, rules, max, q) && Deadlocked(cfg, q.state)) <==>
      |Created(cfg.input)| > cfg.outputCap
  {
    if |Created(cfg.input)| > cfg.outputCap {
      var q := RealHangsFromStart(cfg, rules, max, ok);
    }
    if q :| RealReachable(cfg, rules, max, q) && Deadlocked(cfg, q.state) {
      var s := RealDeadlockBegins(cfg, rules, max, q);
      HandedIsWithin(cfg, s);
    }
  }

  /** For a capture of one flow, for all capacities: it can hang the engine if and only if it
      has more jobs than the output queue holds, and a balancer with its queue and a worker
      with its queue hold more jobs than that too. */
  lemma OneFlowHangIff(cfg: Config, rules: Rules.RuleSet, max: nat, ok: Allows, t: FiveTuple)
    requires cfg.Valid() && cfg.process == Engine.Verdicts(rules) && Admits(cfg, ok)
    requires OneFlow(Created(cfg.input), t)
    ensures (exists q :: RealReachable(cfg, rules, max, q) && Deadlocked(cfg, q.state)) <==>
      |Created(cfg.input)| > cfg.outputCap && cfg.outputCap < cfg.balancerCap + cfg.workerCap + 2
  {
    if |Created(cfg.input)| > cfg.outputCap && cfg.outputCap < cfg.balancerCap + cfg.workerCap + 2 {
      var q := RealHangsFromStart(cfg, rules, max, ok);
    }
    if q :| RealReachable(cfg, rules, max, q) && Deadlocked(cfg, q.state) {
      var s := RealDeadlockBegins(cfg, rules, max, q);
      HandedIsWithin(cfg, s);
      OneFlowUpstream(cfg, ok, s, t);
    }
  }

  // ---------------------------------------------------------------- hanging, with anything dropped

  /** The hang, exactly, with packets dropped: if the tables have room for the capture and all
      flows are kept, then from a state with all frames read and `stop` not begun a deadlock
      on a run that remembers all flows can be reached if and only if more jobs that are let
      through are still to come than the output queue holds. */
  lemma HangIff(cfg: Config, rules: Rules.RuleSet, max: nat, r: Real)
    requires RealReachable(cfg, rules, max, r) && HasRoom(cfg, max) && AboutToStop(r) && KeepsAll(cfg, r.state)
    ensures (exists q :: RealLeads(cfg, rules, max, r, q) && Deadlocked(cfg, q.state) &&
              RemembersAll(q.state.log.verdicts)) <==>
      StillToCome(cfg, r.state) > cfg.outputCap
  {
    RealIsReachable(cfg, rules, max, r);
    if StillToCome(cfg, r.state) > cfg.outputCap {
      var u := CrowdedHangs(cfg, r.state);
      var q := RoomyLift(cfg, rules, max, r, u);
      DeadlockAlike(cfg, u, q.state);
    }
    if q :| RealLeads(cfg, rules, max, r, q) && Deadlocked(cfg, q.state) && RemembersAll(q.state.log.verdicts) {
      RealLeadsLeads(cfg, rules, max, r, q);
      PipelineRuns.ReachedIsSound(cfg, r.state);
      DeadlockIsCrowded(cfg, r.state, q.state);
    }
  }

  /** From the start, with packets dropped: if the last jobs of the capture fit into one
      balancer and one worker, and more of them are let through than the output queue holds,
      the engine can hang, whatever comes before them. */
  lemma RealStretchHangs(cfg: Config, rules: Rules.RuleSet, max: nat, front: seq<Option<PacketJob>>) returns (q: Real)
    requires cfg.Valid() && cfg.process == Engine.Verdicts(rules) && HasRoom(cfg, max) && front <= cfg.input
    requires |Created(cfg.input)| - |Created(front)| <= cfg.balancerCap + cfg.workerCap + 2
    requires Through(cfg, Created(cfg.input)) - Through(cfg, Created(front)) > cfg.outputCap
    ensures RealReachable(cfg, rules, max, q) && Deadlocked(cfg, q.state) && RemembersAll(q.state.log.verdicts)
  {
    StartIsReachable(cfg, rules, max);
    var u := StretchHangs(cfg, front);
    q := RoomyLift(cfg, rules, max, RealStart(cfg), u);
    RealLeadsReaches(cfg, rules, max, RealStart(cfg), q);
    DeadlockAlike(cfg, u, q.state);
  }

  /** The hang of short captures from the start, exactly: if the tables have room and the
      capture fits into one balancer and one worker with their queues, the engine can hang on
      a run that remembers all flows if and only if more of it is let through than the output
      queue holds. */
  lemma ShortHangIff(cfg: Config, rules: Rules.RuleSet, max: nat)
    requires cfg.Valid() && cfg.process == Engine.Verdicts(rules) && HasRoom(cfg, max)
    requires |Created(cfg.input)| <= cfg.balancerCap + cfg.workerCap + 2
    ensures (exists q :: RealReachable(cfg, rules, max, q) && Deadlocked(cfg, q.state) &&
              RemembersAll(q.state.log.verdicts)) <==>
      Through(cfg, Created(cfg.input)) > cfg.outputCap
  {
    if Through(cfg, Created(cfg.input)) > cfg.outputCap {
      assert Created([]) == [];
      var q := RealStretchHangs(cfg, rules, max, []);
    }
    if q :| RealReachable(cfg, rules, max, q) && Deadlocked(cfg, q.state) && RemembersAll(q.state.log.verdicts) {
      RealIsReachable(cfg, rules, max, q);
      if Through(cfg, Created(cfg.input)) <= cfg.outputCap {
        FewLetThroughNeverHang(cfg, q.state);
      }
    }
  }

  // ---------------------------------------------------------------- losing, with nothing dropped

  /** The loss of a flow, exactly, for captures of which nothing is dropped and tables of any
      size, with room for two jobs in the output queue and one balancer for each worker: every
      `stop` that completes leaves the file with the whole of the flow if and only if the
      whole was handed over when it began. */
  lemma AdmittedLeavesWholeIff(cfg: Config, rules: Rules.RuleSet, max: nat, ok: Allows, r: Real, t: FiveTuple)
    requires OneFeeder(cfg) && cfg.outputCap >= 2
    requires RealReachable(cfg, rules, max, r) && Admits(cfg, ok) && AboutToStop(r)
    ensures (forall q :: Completes(cfg, rules, max, r, q) ==>
      Whole(cfg, q.state.output.written, t)) <==>
      Whole(cfg, Handed(r.state), t)
  {
    RealIsReachable(cfg, rules, max, r);
    if Whole(cfg, Handed(r.state), t) {
      forall q | Completes(cfg, rules, max, r, q)
        ensures Whole(cfg, q.state.output.written, t)
      {
        RealLeadsLeads(cfg, rules, max, r, q);
        AdmittedIsWritten(cfg, ok, r.state, t, q.state);
      }
    } else {
      var v := AdmittedIsLost(cfg, ok, r.state, t);
      var q := AdmittedLift(cfg, rules, max, ok, r, v);
      assert Completes(cfg, rules, max, r, q);
    }
  }

  /** Why that asks for room for two: with one balancer, one worker, room for one job in their
      queues and in the output queue, and three packets of three flows, `stop` can begin when
      one of the flows is not handed over, and yet every `stop` that completes writes it. */
  lemma OneSlotForcesWrite(cfg: Config, rules: Rules.RuleSet, max: nat, ok: Allows) returns (r: Real, t: FiveTuple)
    requires cfg.Valid() && cfg.process == Engine.Verdicts(rules) && Admits(cfg, ok)
    requires cfg.balancers == 1 && cfg.workers == 1 && cfg.workerCap == 1 && cfg.outputCap == 1
    requires |Created(cfg.input)| == 3 && Distinct(Created(cfg.input))
    ensures RealReachable(cfg, rules, max, r) && AboutToStop(r) && !Whole(cfg, Handed(r.state), t)
    ensures forall q :: Completes(cfg, rules, max, r, q) ==> Whole(cfg, q.state.output.written, t)
  {
    StartIsReachable(cfg, rules, max);
    var s := ThreeCanBeWedged(cfg, ok);
    r := AdmittedLift(cfg, rules, max, ok, RealStart(cfg), s);
    RealLeadsReaches(cfg, rules, max, RealStart(cfg), r);
    RealIsReachable(cfg, rules, max, r);
    assert SameButTable(s.workers[0], r.state.workers[0]);
    t := r.state.workers[0].place.job.tuple;
    WedgedIsNotWhole(cfg, ok, r.state);
    forall q | Completes(cfg, rules, max, r, q)
      ensures Whole(cfg, q.state.output.written, t)
    {
      RealLeadsLeads(cfg, rules, max, r, q);
      WedgedForcesWrite(cfg, ok, r.state, q.state);
    }
  }

  lemma AllIsWritten(cfg: Config, ok: Allows, s: State, v: State)
    requires cfg.Valid() && Admits(cfg, ok) && PipelineRuns.Reachable(cfg, s) && s.phase == Running && ReaderDone(s)
    requires Upstream(s) == 0 && PipelineRuns.Leads(cfg, s, v) && v.phase == Stopped
    ensures |v.output.written| == |Created(cfg.input)|
  {
    PipelineRuns.ReachedIsSound(cfg, s);
    PipelineRuns.LeadsReaches(cfg, s, v);
    LeadsLater(cfg, s, v);
    StoppedHasLeft(cfg, v);
    HandedIsWithin(cfg, s);
    HandedIsWithin(cfg, v);
    ReachedDropsNothing(cfg, ok, s);
  }

  /** The loss of anything, exactly, for such captures, tables of any size and all capacities:
      every `stop` that completes leaves all jobs of the capture in the file if and only if
      none was upstream of the output queue when it began. */
  lemma AdmittedLeavesAllIff(cfg: Config, rules: Rules.RuleSet, max: nat, ok: Allows, r: Real)
    requires RealReachable(cfg, rules, max, r) && Admits(cfg, ok) && AboutToStop(r)
    ensures (forall q :: Completes(cfg, rules, max, r, q) ==>
      |q.state.output.written| == |Created(cfg.input)|) <==>
      Upstream(r.state) == 0
  {
    RealIsReachable(cfg, rules, max, r);
    if Upstream(r.state) == 0 {
      forall q | Completes(cfg, rules, max, r, q)
        ensures |q.state.output.written| == |Created(cfg.input)|
      {
        RealLeadsLeads(cfg, rules, max, r, q);
        AllIsWritten(cfg, ok, r.state, q.state);
      }
    } else {
      var v := AdmittedLosesOne(cfg, ok, r.state);
      var q := AdmittedLift(cfg, rules, max, ok, r, v);
      assert Completes(cfg, rules, max, r, q);
    }
  }

  /** A loss is within reach of every engine: of any capture of which nothing is dropped and
      that has a job at all, with any numbers of threads, any capacities and tables of any
      size. */
  lemma RealLosesFromStart(cfg: Config, rules: Rules.RuleSet, max: nat, ok: Allows) returns (q: Real)
    requires cfg.Valid() && cfg.process == Engine.Verdicts(rules) && Admits(cfg, ok) && Created(cfg.input) != []
    ensures RealReachable(cfg, rules, max, q) && q.state.phase == Stopped && q.state.log.dropped == 0
    ensures |q.state.output.written| == |Created(cfg.input)| - 1
  {
    StartIsReachable(cfg, rules, max);
    var v := LosesFromStart(cfg, ok);
    q := AdmittedLift(cfg, rules, max, ok, RealStart(cfg), v);
    RealLeadsReaches(cfg, rules, max, RealStart(cfg), q);
    RealIsReachable(cfg, rules, max, q);
    ReachedDropsNothing(cfg, ok, q.state);
  }

  // ---------------------------------------------------------------- losing, with anything dropped

  /** Alone, the writer writes all it has been handed, and leaves. */
  lemma {:induction false} RealWriterLeaves(cfg: Config, rules: Rules.RuleSet, max: nat, r: Real) returns (q: Real)
    requires Shaped(r) && !r.state.running && !r.state.output.place.Pushing?
    requires r.state.output.place == Exited ==> r.state.output.queue.queue == []
    ensures RealLeads(cfg, rules, max, r, q) && q.state.output.place == Exited
    ensures q.state.output.written == Handed(r.state) && q.state.log == r.state.log
    decreases WriterRank(r.state.output)
  {
    if r.state.output.place == Exited {
      q := r;
      RealLeadsNowhere(cfg, rules, max, r);
    } else {
      var move := MoveExists(cfg, max, r, TheWriter);
      WriterTurns(r.state);
      q := RealWriterLeaves(cfg, rules, max, RealNext(cfg, rules, r, move));
      RealLeadsFirst(cfg, rules, max, r, move, q);
    }
  }

  lemma RealStopEarly(cfg: Config, rules: Rules.RuleSet, max: nat, r: Real) returns (q: Real)
    requires RealReachable(cfg, rules, max, r) && AboutToStop(r)
    ensures RealLeads(cfg, rules, max, r, q) && q.state.output.place == Exited
    ensures q.state.output.written == Handed(r.state) && q.state.log == r.state.log
  {
    RealIsReachable(cfg, rules, max, r);
    PipelineRuns.ReachedIsSound(cfg, r.state);
    var move := MoveExists(cfg, max, r, TheStopper);
    q := RealWriterLeaves(cfg, rules, max, RealNext(cfg, rules, r, move));
    RealLeadsFirst(cfg, rules, max, r, move, q);
  }

  /** The file once the writer has left, exactly, with packets dropped and tables of any size:
      it holds the whole of a flow on every run that remembers the flow if and only if the
      whole was handed over when `stop` began. */
  lemma LeftWholeIff(cfg: Config, rules: Rules.RuleSet, max: nat, r: Real, t: FiveTuple)
    requires RealReachable(cfg, rules, max, r) && AboutToStop(r) && Remembers(r.state.log.verdicts, t)
    ensures (forall q :: WriterGoneAt(cfg, rules, max, r, q) && Remembers(q.state.log.verdicts, t) ==>
      Whole(cfg, q.state.output.written, t)) <==>
      Whole(cfg, Handed(r.state), t)
  {
    RealIsReachable(cfg, rules, max, r);
    if Whole(cfg, Handed(r.state), t) {
      forall q | WriterGoneAt(cfg, rules, max, r, q) && Remembers(q.state.log.verdicts, t)
        ensures Whole(cfg, q.state.output.written, t)
      {
        RealLeadsLeads(cfg, rules, max, r, q);
        WholeIsWritten(cfg, r.state, t, q.state);
      }
    } else {
      var q := RealStopEarly(cfg, rules, max, r);
      assert WriterGoneAt(cfg, rules, max, r, q);
    }
  }

  /** The loss of a flow, exactly, with packets dropped: if the tables have room for the
      capture and the flow is kept, every `stop` that completes on a run that remembers the
      flow leaves the file with the whole of it if and only if the whole was handed over when
      `stop` began. */
  lemma StopLeavesWholeIff(cfg: Config, rules: Rules.RuleSet, max: nat, r: Real, t: FiveTuple)
    requires OneFeeder(cfg) && cfg.outputCap >= 2 && HasRoom(cfg, max)
    requires RealReachable(cfg, rules, max, r) && AboutToStop(r) && Keeps(cfg, r.state, t)
    ensures (forall q :: Completes(cfg, rules, max, r, q) && Remembers(q.state.log.verdicts, t) ==>
      Whole(cfg, q.state.output.written, t)) <==>
      Whole(cfg, Handed(r.state), t)
  {
    RealIsReachable(cfg, rules, max, r);
    if Whole(cfg, Handed(r.state), t) {
      forall q | Completes(cfg, rules, max, r, q) && Remembers(q.state.log.verdicts, t)
        ensures Whole(cfg, q.state.output.written, t)
      {
        RealLeadsLeads(cfg, rules, max, r, q);
        StoppedIsWhole(cfg, r.state, t, q.state);
      }
    } else {
      var v := LastIsLost(cfg, r.state, t);
      var q := RoomyLift(cfg, rules, max, r, v);
      assert Completes(cfg, rules, max, r, q);
    }
  }

  /** The loss of anything, exactly, with packets dropped and for all capacities. */
  lemma StopLeavesAllIff(cfg: Config, rules: Rules.RuleSet, max: nat, r: Real)
    requires RealReachable(cfg, rules, max, r) && HasRoom(cfg, max) && AboutToStop(r) && KeepsAll(cfg, r.state)
    ensures (forall q :: Completes(cfg, rules, max, r, q) && RemembersAll(q.state.log.verdicts) ==>
      AllWhole(cfg, q.state.output.written)) <==>
      StillToCome(cfg, r.state) == 0
  {
    RealIsReachable(cfg, rules, max, r);
    QuietNowhere(cfg, r.state);
    QuietKeepsAll(cfg, r.state, r.state);
    if StillToCome(cfg, r.state) == 0 {
      forall q | Completes(cfg, rules, max, r, q) && RemembersAll(q.state.log.verdicts)
        ensures AllWhole(cfg, q.state.output.written)
      {
        RealLeadsLeads(cfg, rules, max, r, q);
        StoppedIsAllWhole(cfg, r.state, q.state);
      }
    } else {
      NothingToComeIff(cfg, r.state);
      var v := OneIsLost(cfg, r.state);
      var q := RoomyLift(cfg, rules, max, r, v);
      assert Completes(cfg, rules, max, r, q);
    }
  }

  /** From the start, with packets dropped: if the last jobs of the capture fit into one
      balancer and one worker, and any of them is let through, the engine can lose a packet
      of a flow that it remembers. */
  lemma RealStretchLoses(cfg: Config, rules: Rules.RuleSet, max: nat, front: seq<Option<PacketJob>>) returns (q: Real)
    requires cfg.Valid() && cfg.process == Engine.Verdicts(rules) && HasRoom(cfg, max) && front <= cfg.input
    requires |Created(cfg.input)| - |Created(front)| <= cfg.balancerCap + cfg.workerCap + 2
    requires Through(cfg, Created(cfg.input)) > Through(cfg, Created(front))
    ensures RealReachable(cfg, rules, max, q) && q.state.phase == Stopped && RemembersAll(q.state.log.verdicts)
    ensures !AllWhole(cfg, q.state.output.written)
  {
    StartIsReachable(cfg, rules, max);
    var v := StretchLoses(cfg, front);
    q := RoomyLift(cfg, rules, max, RealStart(cfg), v);
    RealLeadsReaches(cfg, rules, max, RealStart(cfg), q);
  }
}
