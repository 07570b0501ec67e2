/** What it takes for `stop` never to return, more jobs still to come than the output queue
    holds, and how it then comes to that, since the writer may leave before all of them. */
module PipelineHang {
  import opened Types
  import opened Pipeline
  import opened PipelineOrder
  import opened PipelineAccounts
  import opened PipelineProgress
  import opened PipelineRestarts
  import opened PipelineRuns
  import opened PipelineMemory
  import opened PipelineStop
  import FlowVerdict

  // ---------------------------------------------------------------- what a deadlock takes

  lemma SomeoneWaits(cfg: Config, s: State)
    requires Deadlocked(cfg, s)
    ensures Sum(PushLoad, s.workers) >= 1
  {
    match s.phase
    case StopBalancer(i, _) =>
      var j := cfg.workerOf(s.balancers[i].place.job.tuple);
      SumAtLeast(PushLoad, s.workers, j);
    case StopWorker(j, _) => SumAtLeast(PushLoad, s.workers, j);
    case _ =>
  }

  /** A deadlock has let through all that was handed over before, a queue full of jobs, and
      one more. */
  lemma DeadlockIsFull(cfg: Config, s: State, v: State)
    requires cfg.Valid() && Reachable(cfg, s) && s.output.place != Exited && Leads(cfg, s, v) && Deadlocked(cfg, v)
    ensures v.log.forwarded >= |Handed(s)| + cfg.outputCap + 1
  {
    LeadsLater(cfg, s, v);
    LeadsReaches(cfg, s, v);
    ReachedIsSound(cfg, v);
    HandedIsWithin(cfg, v);
    SomeoneWaits(cfg, v);
  }

  /** With no more jobs upstream of the output queue than it has room for, no run comes to
      a deadlock. */
  lemma RoomPreventsDeadlock(cfg: Config, s: State, v: State)
    requires cfg.Valid() && Reachable(cfg, s) && s.phase == Running && ReaderDone(s)
    requires Upstream(s) <= cfg.outputCap && Leads(cfg, s, v)
    ensures !Deadlocked(cfg, v)
  {
    if Deadlocked(cfg, v) {
      ReachedIsSound(cfg, s);
      DeadlockIsFull(cfg, s, v);
      LeadsLater(cfg, s, v);
      LeadsReaches(cfg, s, v);
      HandedIsWithin(cfg, s);
      HandedIsWithin(cfg, v);
    }
  }

  /** `stop` begins with this step. */
  ghost predicate BeginsAt(turns: seq<Turn>, states: seq<State>, k: nat) {
    k < |turns| < |states| && turns[k] == Stop && states[k].phase == Running
  }

  /** `stop` completes: if it begins with no more jobs upstream of the output queue than
      that has room for, then every run, however long its threads idle, is done with it
      after as many rounds as twice the weight at their start. */
  lemma StopCompletes(cfg: Config, turns: seq<Turn>, states: seq<State>, k: nat, cuts: seq<nat>)
    requires cfg.Valid() && IsRun(cfg, turns, states) && BeginsAt(turns, states, k)
    requires Upstream(states[k]) <= cfg.outputCap
    requires Rounds(cfg, turns, states, true, cuts) && k < cuts[0] && |cuts| > 2 * Weight(cfg, states[cuts[0]])
    ensures states[cuts[|cuts| - 1]].phase == Stopped
  {
    assert IsStep(cfg, turns, states, k);
    PhasesStay(cfg, turns, states, k + 1, cuts[0]);
    FairStopEnds(cfg, turns, states, cuts);
    CutsAscend(cfg, turns, states, true, cuts, 0, |cuts| - 1);
    RunLeads(cfg, turns, states, k, cuts[|cuts| - 1]);
    RoomPreventsDeadlock(cfg, states[k], states[cuts[|cuts| - 1]]);
  }

  // ---------------------------------------------------------------- runs that remember flows

  /** How many of the jobs the sequential filter lets through. */
  function Through(cfg: Config, jobs: seq<PacketJob>): nat {
    |LetThrough(cfg.process, jobs).1|
  }

  lemma ReachedMatches(cfg: Config, s: State, t: FiveTuple)
    requires cfg.Valid() && Reachable(cfg, s) && Remembers(s.log.verdicts, t)
    ensures Matches(cfg.process, StateOf(cfg.process, s.log.verdicts, t), s.log.verdicts, t)
  {
    ReachedFollows(cfg, s);
    RememberedMatches(cfg.process, s.log.verdicts, t);
  }

  /** What is let through of a flow that is remembered is what the sequential filter lets
      through, as far as the engine has come. */
  lemma PassedIsLetThrough(cfg: Config, s: State, t: FiveTuple)
    requires cfg.Valid() && Reachable(cfg, s) && Remembers(s.log.verdicts, t)
    ensures Of(Passed(s.log.verdicts), t) <= Of(LetThrough(cfg.process, Created(cfg.input)).1, t)
  {
    ReachedIsFaithful(cfg, s, t);
    ReachedMatches(cfg, s, t);
    var log, b, w := s.log.verdicts, s.balancers[cfg.balancerOf(t)], s.workers[cfg.workerOf(t)];
    JudgedIsCreated(log, w, b, s.reader, s.output, t);
    PassedOfMore(cfg.process, StateOf(cfg.process, log, t), log, s.reader.created, Created(s.reader.unread), t);
    LetThroughIsAlone(cfg.process, Created(cfg.input), t);
  }

  lemma ForwardedIsLetThrough(cfg: Config, s: State)
    requires cfg.Valid() && Reachable(cfg, s) && RemembersAll(s.log.verdicts)
    ensures s.log.forwarded <= Through(cfg, Created(cfg.input))
  {
    forall t
      ensures Of(Passed(s.log.verdicts), t) <= Of(LetThrough(cfg.process, Created(cfg.input)).1, t)
    {
      PassedIsLetThrough(cfg, s, t);
    }
    FlowwiseShorter(Passed(s.log.verdicts), LetThrough(cfg.process, Created(cfg.input)).1);
    ReachedIsTallied(cfg, s);
  }

  /** No job is on its way to the output queue, though frames may be unread. */
  predicate Emptied(s: State) {
    && s.reader.hand == None
    && (forall i :: 0 <= i < |s.balancers| ==> BalancerEmpty(s.balancers[i]))
    && (forall j :: 0 <= j < |s.workers| ==> WorkerEmpty(s.workers[j]))
  }

  /** What is handed over then is what the filter lets through of the jobs made so far. */
  lemma EmptiedLetThrough(cfg: Config, s: State, t: FiveTuple)
    requires cfg.Valid() && Reachable(cfg, s) && Remembers(s.log.verdicts, t) && Emptied(s)
    ensures Of(Handed(s), t) == Of(LetThrough(cfg.process, s.reader.created).1, t)
  {
    ReachedIsFaithful(cfg, s, t);
    ReachedMatches(cfg, s, t);
    assert BalancerEmpty(s.balancers[cfg.balancerOf(t)]) && WorkerEmpty(s.workers[cfg.workerOf(t)]);
    SettledPath(s.log.verdicts, s.workers[cfg.workerOf(t)], s.balancers[cfg.balancerOf(t)], s.reader, s.output, t);
    LetThroughIsAlone(cfg.process, s.reader.created, t);
  }

  lemma EmptiedHanded(cfg: Config, s: State)
    requires cfg.Valid() && Reachable(cfg, s) && RemembersAll(s.log.verdicts) && Emptied(s)
    ensures |Handed(s)| == Through(cfg, s.reader.created)
  {
    forall t
      ensures Of(Handed(s), t) == Of(LetThrough(cfg.process, s.reader.created).1, t)
    {
      EmptiedLetThrough(cfg, s, t);
    }
    FlowwiseShorter(Handed(s), LetThrough(cfg.process, s.reader.created).1);
    FlowwiseShorter(LetThrough(cfg.process, s.reader.created).1, Handed(s));
  }

  lemma EmptiedUpstream(s: State)
    requires Emptied(s)
    ensures Upstream(s) == 0
  {
    forall i | 0 <= i < |s.balancers|
      ensures BalancerLoad(s.balancers[i]) == 0
    {
      assert BalancerEmpty(s.balancers[i]);
    }
    forall j | 0 <= j < |s.workers|
      ensures WorkerLoad(s.workers[j]) == 0 && PushLoad(s.workers[j]) == 0
    {
      assert WorkerEmpty(s.workers[j]);
    }
    SumZero(BalancerLoad, s.balancers);
    SumZero(WorkerLoad, s.workers);
    SumZero(PushLoad, s.workers);
  }

  /** Once all frames are read as well, that is all of it. */
  lemma SettledCreated(cfg: Config, s: State)
    requires cfg.Valid() && Reachable(cfg, s) && Settled(s)
    ensures Emptied(s) && s.reader.created == Created(cfg.input)
  {
    HandedIsWithin(cfg, s);
  }

  lemma SettledPath(verdicts: seq<Verdict>, w: Worker, b: Balancer, r: Reader, o: Output, t: FiveTuple)
    requires Ordered(verdicts, w, b, r, o, t) && r.hand == None
    requires InHand(w.place) + w.input.queue == [] && InPush(w.place) == [] && InHand(b.place) + b.input.queue == []
    ensures Of(Jobs(verdicts), t) == Of(r.created, t) && Of(Passed(verdicts), t) == AtWriter(o, t)
  {
    assert AtWorker(w, t) == [] && AtBalancer(b, t) == [] && AtReader(r, t) == [] && InPushOf(w, t) == [];
  }

  /** What the filter lets through of the whole capture and is not yet handed over. */
  function StillToCome(cfg: Config, s: State): int {
    Through(cfg, Created(cfg.input)) - |Handed(s)|
  }

  /** A deadlock on a run that remembers all flows takes more jobs still to come, of those
      that are let through, than the output queue holds. */
  lemma DeadlockIsCrowded(cfg: Config, s: State, u: State)
    requires cfg.Valid() && Reachable(cfg, s) && s.output.place != Exited
    requires Leads(cfg, s, u) && Deadlocked(cfg, u) && RemembersAll(u.log.verdicts)
    ensures StillToCome(cfg, s) > cfg.outputCap
  {
    DeadlockIsFull(cfg, s, u);
    LeadsReaches(cfg, s, u);
    ForwardedIsLetThrough(cfg, u);
  }

  ghost predicate KeepsAll(cfg: Config, s: State) {
    forall t :: Keeps(cfg, s, t)
  }

  lemma QuietKeepsAll(cfg: Config, s: State, u: State)
    requires cfg.Valid() && Reachable(cfg, s) && Quietly(cfg, s, u) && KeepsAll(cfg, s)
    ensures KeepsAll(cfg, u) && RemembersAll(u.log.verdicts)
  {
    forall t
      ensures Keeps(cfg, u, t) && Remembers(u.log.verdicts, t)
    {
      assert Keeps(cfg, s, t);
      QuietKeeps(cfg, s, u, t);
    }
  }

  /** And if so many are still to come and the tables keep all flows, it can be reached. */
  lemma CrowdedHangs(cfg: Config, s: State) returns (u: State)
    requires cfg.Valid() && Reachable(cfg, s) && s.phase == Running && ReaderDone(s)
    requires KeepsAll(cfg, s) && StillToCome(cfg, s) > cfg.outputCap
    ensures Quietly(cfg, s, u) && Deadlocked(cfg, u) && RemembersAll(u.log.verdicts)
  {
    var v, j := StopAfterWriter(cfg, s);
    QuietKeepsAll(cfg, s, v);
    if Settled(v) {
      SettledCreated(cfg, v);
      EmptiedHanded(cfg, v);
      ReachedFits(cfg, v);
    }
    u := DoomedDeadlocks(cfg, v, j);
    QuietKeepsAll(cfg, v, u);
    QuietOn(cfg, s, v, u);
  }

  // ---------------------------------------------------------------- captures of which nothing is dropped

  /** The states in which a flow may be. */
  type Allows = (FiveTuple, Flow) -> bool

  /** No packet of the capture is dropped, in whatever state of its flow that its packets
      lead to from a fresh one. */
  ghost predicate Admits(cfg: Config, ok: Allows) {
    && (forall t :: ok(t, FlowVerdict.FRESH))
    && forall f, job: PacketJob {:trigger Admitted(cfg.process, ok, f, job)} ::
         ok(job.tuple, f) && job in Created(cfg.input) ==> Admitted(cfg.process, ok, f, job)
  }

  predicate Admitted(process: Process, ok: Allows, f: Flow, job: PacketJob) {
    process(f, job).1 == Forward && ok(job.tuple, process(f, job).0)
  }

  predicate AllOk(ok: Allows, table: map<FiveTuple, Flow>) {
    forall t :: t in table ==> ok(t, table[t])
  }

  ghost predicate Unharmed(ok: Allows, s: State) {
    s.log.dropped == 0 && forall j :: 0 <= j < |s.workers| ==> AllOk(ok, s.workers[j].table)
  }

  lemma {:induction false} OfKeeps(jobs: seq<PacketJob>, job: PacketJob)
    ensures job in Of(jobs, job.tuple) ==> job in jobs
  {
    if jobs == [] {
    } else {
      OfKeeps(jobs[..|jobs| - 1], job);
    }
  }

  lemma InTheMiddle(a: seq<PacketJob>, b: seq<PacketJob>, c: seq<PacketJob>, d: seq<PacketJob>, job: PacketJob)
    requires b != [] && b[0] == job
    ensures job in a + b + c + d
  {
    assert (a + b + c + d)[|a|] == job;
  }

  /** A job in a worker's hand is one of the capture. */
  lemma HeldIsCreated(cfg: Config, s: State, j: nat, job: PacketJob)
    requires Faithful(cfg, s, job.tuple) && j < |s.workers| && s.workers[j].place == Holding(job)
    ensures job in Created(cfg.input)
  {
    WorkerFacts(cfg, s, j);
    var w, b := s.workers[j], s.balancers[cfg.balancerOf(job.tuple)];
    HeldInOrder(s.log.verdicts, w, b, s.reader, s.output, job);
    assert job in s.reader.created + Created(s.reader.unread);
  }

  lemma HeldInOrder(verdicts: seq<Verdict>, w: Worker, b: Balancer, r: Reader, o: Output, job: PacketJob)
    requires Ordered(verdicts, w, b, r, o, job.tuple) && w.place == Holding(job)
    ensures job in r.created
  {
    var t := job.tuple;
    OfFirst(job, w.input.queue, t);
    InTheMiddle(Of(Jobs(verdicts), t), AtWorker(w, t), AtBalancer(b, t), AtReader(r, t), job);
    OfKeeps(r.created, job);
  }

  lemma JudgeUnharmed(cfg: Config, ok: Allows, s: State, j: nat, gone: set<FiveTuple>, job: PacketJob)
    requires Admits(cfg, ok) && Unharmed(ok, s) && job in Created(cfg.input)
    requires WorkEnabled(cfg, s, j, gone) && s.workers[j].place == Holding(job)
    ensures Unharmed(ok, DoWork(cfg, s, j, gone))
  {
    var w := s.workers[j];
    assert AllOk(ok, w.table);
    assert Admitted(cfg.process, ok, Lookup(w.table, job.tuple), job);
    assert AllOk(ok, Judged(cfg, w, job, gone).table);
  }

  /** Tables other than by a verdict only shrink. */
  lemma ShrunkUnharmed(ok: Allows, s: State, u: State)
    requires Unharmed(ok, s) && u.log.dropped == 0 && |u.workers| == |s.workers|
    requires forall j, t :: 0 <= j < |s.workers| && t in u.workers[j].table ==>
        t in s.workers[j].table && u.workers[j].table[t] == s.workers[j].table[t]
    ensures Unharmed(ok, u)
  {
    forall j | 0 <= j < |u.workers|
      ensures AllOk(ok, u.workers[j].table)
    {
      assert AllOk(ok, s.workers[j].table);
    }
  }

  lemma StepUnharmed(cfg: Config, ok: Allows, s: State, turn: Turn)
    requires cfg.Valid() && Reachable(cfg, s) && Admits(cfg, ok) && Unharmed(ok, s) && Enabled(cfg, s, turn)
    ensures Unharmed(ok, Next(cfg, s, turn))
  {
    if turn.Work? && s.workers[turn.j].place.Holding? {
      var job := s.workers[turn.j].place.job;
      ReachedIsFaithful(cfg, s, job.tuple);
      HeldIsCreated(cfg, s, turn.j, job);
      JudgeUnharmed(cfg, ok, s, turn.j, turn.gone, job);
    } else {
      OtherTurnsShrink(cfg, s, turn);
      ShrunkUnharmed(ok, s, Next(cfg, s, turn));
    }
  }

  lemma OtherTurnsShrink(cfg: Config, s: State, turn: Turn)
    requires Enabled(cfg, s, turn) && !(turn.Work? && s.workers[turn.j].place.Holding?)
    ensures var u := Next(cfg, s, turn);
      && |u.workers| == |s.workers| && u.log.dropped == s.log.dropped
      && forall j, t :: 0 <= j < |s.workers| && t in u.workers[j].table ==>
           t in s.workers[j].table && u.workers[j].table[t] == s.workers[j].table[t]
  {
  }

  lemma {:induction false} AlwaysUnharmed(cfg: Config, ok: Allows, turns: seq<Turn>, states: seq<State>, n: nat)
    requires cfg.Valid() && Admits(cfg, ok) && IsRun(cfg, turns, states) && n < |states|
    ensures Unharmed(ok, states[n])
  {
    if n == 0 {
    } else {
      var m := n - 1;
      AlwaysUnharmed(cfg, ok, turns, states, m);
      RunLeads(cfg, turns, states, m, m);
      assert IsStep(cfg, turns, states, m);
      StepUnharmed(cfg, ok, states[m], turns[m]);
    }
  }

  lemma ReachedIsUnharmed(cfg: Config, ok: Allows, s: State)
    requires cfg.Valid() && Admits(cfg, ok) && Reachable(cfg, s)
    ensures Unharmed(ok, s)
  {
    var turns, states :| EndsIn(cfg, turns, states, s);
    AlwaysUnharmed(cfg, ok, turns, states, |turns|);
  }

  /** Nothing of such a capture is dropped on any run, whatever tables lose. */
  lemma ReachedDropsNothing(cfg: Config, ok: Allows, s: State)
    requires cfg.Valid() && Admits(cfg, ok) && Reachable(cfg, s)
    ensures s.log.dropped == 0
  {
    ReachedIsUnharmed(cfg, ok, s);
  }

  /** From a state with all frames read and `stop` not begun, with more jobs upstream of the
      output queue than it holds, a deadlock can be reached. */
  lemma AdmittedHangs(cfg: Config, ok: Allows, s: State) returns (u: State)
    requires cfg.Valid() && Admits(cfg, ok) && Reachable(cfg, s) && s.phase == Running && ReaderDone(s)
    requires Upstream(s) > cfg.outputCap
    ensures Quietly(cfg, s, u) && Deadlocked(cfg, u)
  {
    var v, j := StopAfterWriter(cfg, s);
    if Settled(v) {
      EmptiedUpstream(v);
      ReachedFits(cfg, v);
      HandedIsWithin(cfg, s);
      HandedIsWithin(cfg, v);
      ReachedDropsNothing(cfg, ok, s);
      ReachedDropsNothing(cfg, ok, v);
    }
    u := DoomedDeadlocks(cfg, v, j);
    QuietOn(cfg, s, v, u);
  }

  // ---------------------------------------------------------------- from the start

  /** Before `stop`, an exhausted schedule has handed over as many jobs as it may, or all. */
  lemma ExhaustedRunning(cfg: Config, limit: nat, s: State)
    requires Sound(cfg, s) && s.phase == Running && Exhausted(cfg, UpTo(limit, false), s) && |Handed(s)| <= limit
    ensures |Handed(s)| == limit || Drained(s)
  {
    if |Handed(s)| < limit && !Drained(s) {
      var thread := RunningReady(cfg, s);
      assert Allowed(UpTo(limit, false), s, thread);
    }
  }

  /** If the reader is held up then a balancer's queue, its hand, a worker's queue and its
      hand are all full. */
  lemma HeldUpReader(cfg: Config, limit: nat, s: State)
    requires Sound(cfg, s) && s.phase == Running && Exhausted(cfg, UpTo(limit, false), s) && !ReaderDone(s)
    ensures Upstream(s) >= cfg.balancerCap + cfg.workerCap + 3
  {
    assert Allowed(UpTo(limit, false), s, TheReader) && !Ready(cfg, s, TheReader);
    var i := cfg.balancerOf(s.reader.hand.value.tuple);
    var b := s.balancers[i];
    assert BalancerInPhase(s.phase, i, b) && BalancerRouted(cfg, i, b);
    assert Allowed(UpTo(limit, false), s, TheBalancer(i)) && !Ready(cfg, s, TheBalancer(i));
    var j := cfg.workerOf(b.place.job.tuple);
    var w := s.workers[j];
    assert WorkerInPhase(s.phase, j, w);
    assert Allowed(UpTo(limit, false), s, TheWorker(j)) ==> !Ready(cfg, s, TheWorker(j));
    assert w.place.Pushing?;
    SumAtLeast(BalancerLoad, s.balancers, i);
    SumAtLeast(WorkerLoad, s.workers, j);
    SumAtLeast(PushLoad, s.workers, j);
  }

  /** Of a capture of which nothing is dropped, all but the last few jobs can have been
      handed over when the reader is done, if the few fit into one balancer and one worker. */
  lemma AllButAFew(cfg: Config, ok: Allows, few: nat) returns (s: State)
    requires cfg.Valid() && Admits(cfg, ok) && 0 < few <= |Created(cfg.input)|
    requires few <= cfg.balancerCap + cfg.workerCap + 2
    ensures Reachable(cfg, s) && Quietly(cfg, Initial(cfg), s) && s.phase == Running && ReaderDone(s)
    ensures Upstream(s) == few
  {
    var limit := |Created(cfg.input)| - few;
    InitialIsReachable(cfg);
    s := RunsUntilExhausted(cfg, UpTo(limit, false), Initial(cfg));
    ReachedDropsNothing(cfg, ok, s);
    FewAreLeft(cfg, few, s);
  }

  lemma FewAreLeft(cfg: Config, few: nat, s: State)
    requires cfg.Valid() && 0 < few <= |Created(cfg.input)| && few <= cfg.balancerCap + cfg.workerCap + 2
    requires Reachable(cfg, s) && s.phase == Running && s.log.dropped == 0 && |Handed(s)| <= |Created(cfg.input)| - few
    requires Exhausted(cfg, UpTo(|Created(cfg.input)| - few, false), s)
    ensures ReaderDone(s) && Upstream(s) == few
  {
    ReachedIsSound(cfg, s);
    HandedIsWithin(cfg, s);
    ExhaustedRunning(cfg, |Created(cfg.input)| - few, s);
    if Drained(s) {
      EmptiedUpstream(s);
    }
    if !ReaderDone(s) {
      HeldUpReader(cfg, |Created(cfg.input)| - few, s);
    }
  }

  lemma {:induction false} PathBegins(cfg: Config, s: State, turns: seq<Turn>, u: State) returns (v: State)
    requires Reachable(cfg, s) && s.phase == Running && Path(cfg, s, turns, u) && u.phase != Running
    ensures Reachable(cfg, v) && v.phase == Running && ReaderDone(v) && Leads(cfg, v, u)
    decreases |turns|
  {
    var next := Next(cfg, s, turns[0]);
    if next.phase != Running {
      v := s;
      assert Leads(cfg, next, u);
      LeadsFirst(cfg, s, turns[0], u);
    } else {
      NextIsReachable(cfg, s, turns[0]);
      v := PathBegins(cfg, next, turns[1..], u);
    }
  }

  lemma {:induction false} RunIsPath(cfg: Config, turns: seq<Turn>, states: seq<State>) returns (v: State)
    requires cfg.Valid() && IsRun(cfg, turns, states) && states[|turns|].phase != Running
    ensures Reachable(cfg, v) && v.phase == Running && ReaderDone(v) && Leads(cfg, v, states[|turns|])
  {
    RunLeads(cfg, turns, states, 0, |turns|);
    var path :| Path(cfg, states[0], path, states[|turns|]);
    v := PathBegins(cfg, states[0], path, states[|turns|]);
  }

  /** From the start: if the output queue holds no more than one balancer and one worker with
      their queues, as where all three capacities are equal, then a capture with more jobs
      than it holds can hang the engine. */
  lemma HangsFromStart(cfg: Config, ok: Allows) returns (u: State)
    requires cfg.Valid() && Admits(cfg, ok)
    requires |Created(cfg.input)| > cfg.outputCap && cfg.outputCap < cfg.balancerCap + cfg.workerCap + 2
    ensures Quietly(cfg, Initial(cfg), u) && Deadlocked(cfg, u)
  {
    var s := AllButAFew(cfg, ok, cfg.outputCap + 1);
    u := AdmittedHangs(cfg, ok, s);
    QuietOn(cfg, Initial(cfg), s, u);
  }

  lemma DeadlockBegins(cfg: Config, u: State) returns (s: State)
    requires cfg.Valid() && Reachable(cfg, u) && Deadlocked(cfg, u)
    ensures Reachable(cfg, s) && s.phase == Running && ReaderDone(s) && Upstream(s) > cfg.outputCap
  {
    var turns, states :| EndsIn(cfg, turns, states, u);
    s := RunIsPath(cfg, turns, states);
    if Upstream(s) <= cfg.outputCap {
      RoomPreventsDeadlock(cfg, s, u);
    }
  }

  /** All jobs are of one flow. */
  predicate OneFlow(jobs: seq<PacketJob>, t: FiveTuple) {
    forall k :: 0 <= k < |jobs| ==> jobs[k].tuple == t
  }

  lemma {:induction false} OfAll(jobs: seq<PacketJob>, t: FiveTuple)
    requires OneFlow(jobs, t)
    ensures Of(jobs, t) == jobs
  {
    if jobs == [] {
    } else {
      OfAll(jobs[..|jobs| - 1], t);
    }
  }

  lemma {:induction false} OfIsShorter(jobs: seq<PacketJob>, t: FiveTuple)
    ensures |Of(jobs, t)| <= |jobs|
  {
    if jobs == [] {
    } else {
      OfIsShorter(jobs[..|jobs| - 1], t);
    }
  }

  /** What one flow can have upstream of the output queue when the reader is done. */
  lemma OneFlowUpstream(cfg: Config, ok: Allows, s: State, t: FiveTuple)
    requires cfg.Valid() && Admits(cfg, ok) && Reachable(cfg, s) && ReaderDone(s) && OneFlow(Created(cfg.input), t)
    ensures Upstream(s) <= cfg.balancerCap + cfg.workerCap + 2
  {
    ReachedIsFaithful(cfg, s, t);
    ReachedFits(cfg, s);
    HandedIsWithin(cfg, s);
    ReachedDropsNothing(cfg, ok, s);
    ReachedIsTallied(cfg, s);
    assert s.reader.created + Created(s.reader.unread) == s.reader.created;
    OfAll(s.reader.created, t);
    var b, w, o := s.balancers[cfg.balancerOf(t)], s.workers[cfg.workerOf(t)], s.output;
    OfIsShorter(InHand(b.place) + b.input.queue, t);
    OfIsShorter(InHand(w.place) + w.input.queue, t);
    OfIsShorter(InPush(w.place), t);
    OfIsShorter(Handed(s), t);
  }

  // ---------------------------------------------------------------- captures of which some packets are dropped

  lemma InitiallyKeepsAll(cfg: Config)
    ensures KeepsAll(cfg, Initial(cfg))
  {
  }

  lemma ReachedFromStart(cfg: Config, u: State)
    requires Reachable(cfg, u)
    ensures Leads(cfg, Initial(cfg), u)
  {
    var turns, states :| EndsIn(cfg, turns, states, u);
    RunLeads(cfg, turns, states, 0, |turns|);
  }

  /** If the output queue holds all that is let through of the capture, no run that remembers
      all flows deadlocks. */
  lemma FewLetThroughNeverHang(cfg: Config, u: State)
    requires cfg.Valid() && Reachable(cfg, u) && RemembersAll(u.log.verdicts)
    requires Through(cfg, Created(cfg.input)) <= cfg.outputCap
    ensures !Deadlocked(cfg, u)
  {
    if Deadlocked(cfg, u) {
      ReachedFromStart(cfg, u);
      InitialIsReachable(cfg);
      DeadlockIsCrowded(cfg, Initial(cfg), u);
    }
  }

  lemma {:induction false} CreatedJoin(a: seq<Option<PacketJob>>, b: seq<Option<PacketJob>>)
    ensures Created(a + b) == Created(a) + Created(b)
    decreases |a|
  {
    if a == [] {
      assert a + b == b;
    } else {
      CreatedJoin(a[1..], b);
      FirstCreated(a + b);
      FirstCreated(a);
      assert (a + b)[1..] == a[1..] + b;
      Associates(Hand(a[0]), Created(a[1..]), Created(b));
    }
  }

  lemma FirstCreated(input: seq<Option<PacketJob>>)
    requires input != []
    ensures Created(input) == Hand(input[0]) + Created(input[1..])
  {
  }

  /** If the reader is held back, the others catch up with it. */
  lemma OthersCatchUp(cfg: Config, made: nat, s: State)
    requires Sound(cfg, s) && s.phase == Running && Exhausted(cfg, Reading(made), s)
    ensures Emptied(s) && (|s.reader.created| < made ==> Drained(s))
  {
    if !Drained(s) {
      var thread := RunningReady(cfg, s);
      assert !Allowed(Reading(made), s, thread);
    }
  }

  /** The engine can get as far as a point of the capture and no further. */
  lemma CatchesUp(cfg: Config, front: seq<Option<PacketJob>>) returns (s: State)
    requires cfg.Valid() && front <= cfg.input
    ensures Reachable(cfg, s) && Quietly(cfg, Initial(cfg), s) && s.phase == Running && KeepsAll(cfg, s)
    ensures Emptied(s) && s.reader.created == Created(front)
    ensures |Handed(s)| == Through(cfg, Created(front))
  {
    var made := |Created(front)|;
    InitialIsReachable(cfg);
    s := RunsUntilExhausted(cfg, Reading(made), Initial(cfg));
    ReachedIsSound(cfg, s);
    OthersCatchUp(cfg, made, s);
    InitiallyKeepsAll(cfg);
    QuietKeepsAll(cfg, Initial(cfg), s);
    MadeAsMany(cfg, front, s);
    EmptiedHanded(cfg, s);
  }

  lemma FrontIsMadeFirst(cfg: Config, front: seq<Option<PacketJob>>)
    requires front <= cfg.input
    ensures Created(front) <= Created(cfg.input)
  {
    assert cfg.input == front + cfg.input[|front|..];
    CreatedJoin(front, cfg.input[|front|..]);
  }

  lemma MadeAsMany(cfg: Config, front: seq<Option<PacketJob>>, s: State)
    requires cfg.Valid() && front <= cfg.input && Reachable(cfg, s)
    requires |s.reader.created| <= |Created(front)| && (|s.reader.created| < |Created(front)| ==> Drained(s))
    ensures s.reader.created == Created(front)
  {
    FrontIsMadeFirst(cfg, front);
    HandedIsWithin(cfg, s);
    MadeIsPrefix(cfg, s);
    assert s.reader.created == Created(cfg.input)[..|Created(front)|];
  }

  lemma MadeIsPrefix(cfg: Config, s: State)
    requires cfg.Valid() && Reachable(cfg, s)
    ensures s.reader.created <= Created(cfg.input)
  {
    ReachedIsFaithful(cfg, s, FiveTuple(0, 0, 0, 0, 0));
    assert s.reader.created + Created(s.reader.unread) == Created(cfg.input);
  }

  /** The hang from the start by a stretch of the capture: if the last jobs of it fit into one
      balancer and one worker, and more of them are let through than the output queue holds,
      a deadlock can be reached, whatever the jobs before them are. */
  lemma StretchHangs(cfg: Config, front: seq<Option<PacketJob>>) returns (u: State)
    requires cfg.Valid() && front <= cfg.input
    requires |Created(cfg.input)| - |Created(front)| <= cfg.balancerCap + cfg.workerCap + 2
    requires Through(cfg, Created(cfg.input)) - Through(cfg, Created(front)) > cfg.outputCap
    ensures Quietly(cfg, Initial(cfg), u) && Deadlocked(cfg, u) && RemembersAll(u.log.verdicts)
  {
    var s := CatchesUp(cfg, front);
    var v := LoadsStretch(cfg, s);
    u := CrowdedHangs(cfg, v);
    QuietOn(cfg, Initial(cfg), s, v);
    QuietOn(cfg, Initial(cfg), v, u);
  }

  lemma LoadsStretch(cfg: Config, s: State) returns (v: State)
    requires cfg.Valid() && Reachable(cfg, s) && s.phase == Running && KeepsAll(cfg, s) && Emptied(s)
    requires |Created(cfg.input)| - |s.reader.created| <= cfg.balancerCap + cfg.workerCap + 2
    ensures Reachable(cfg, v) && Quietly(cfg, s, v) && v.phase == Running && ReaderDone(v) && KeepsAll(cfg, v)
    ensures |Handed(v)| == |Handed(s)|
  {
    v := RunsUntilExhausted(cfg, UpTo(|Handed(s)|, false), s);
    ReachedIsSound(cfg, s);
    ReachedIsSound(cfg, v);
    QuietKeepsAll(cfg, s, v);
    QuietLeads(cfg, s, v);
    LeadsLater(cfg, s, v);
    HandedIsWithin(cfg, s);
    HandedIsWithin(cfg, v);
    EmptiedUpstream(s);
    if !ReaderDone(v) {
      HeldUpReader(cfg, |Handed(s)|, v);
    }
  }
}
