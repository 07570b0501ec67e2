/** What a `stop` that completes keeps, and how it can lose what was still upstream of the
    output queue when it began. */
module PipelineLoss {
  import opened Types
  import opened Pipeline
  import opened PipelineOrder
  import opened PipelineAccounts
  import opened PipelineProgress
  import opened PipelineRuns
  import opened PipelineMemory
  import opened PipelineStop
  import opened PipelineHang

  /** The packets of the flow are all that the sequential filter lets through of it. */
  predicate Whole(cfg: Config, jobs: seq<PacketJob>, t: FiveTuple) {
    Of(jobs, t) == Expected(cfg, t)
  }

  lemma HandedIsPrefix(cfg: Config, s: State, t: FiveTuple)
    requires cfg.Valid() && Reachable(cfg, s) && Remembers(s.log.verdicts, t)
    ensures Of(Handed(s), t) <= Expected(cfg, t) && Of(s.output.written, t) <= Expected(cfg, t)
  {
    ReachedIsFaithful(cfg, s, t);
    PassedIsLetThrough(cfg, s, t);
    LetThroughIsAlone(cfg.process, Created(cfg.input), t);
    assert Of(Handed(s), t) <= Of(Passed(s.log.verdicts), t);
    OfPrefix(s.output.written, Handed(s), t);
  }

  lemma {:induction false} OfPrefix(a: seq<PacketJob>, b: seq<PacketJob>, t: FiveTuple)
    requires a <= b
    ensures Of(a, t) <= Of(b, t)
  {
    OfJoin(a, b[|a|..], t);
    assert b == a + b[|a|..];
  }

  /** What was handed over whole is written whole once the writer has left. */
  lemma WholeIsWritten(cfg: Config, s: State, t: FiveTuple, v: State)
    requires cfg.Valid() && Reachable(cfg, s) && s.phase == Running && Whole(cfg, Handed(s), t)
    requires Leads(cfg, s, v) && v.output.place == Exited && Remembers(v.log.verdicts, t)
    ensures Whole(cfg, v.output.written, t)
  {
    ReachedIsSound(cfg, s);
    LeadsLater(cfg, s, v);
    LeadsReaches(cfg, s, v);
    OfPrefix(Handed(s), v.output.written, t);
    HandedIsPrefix(cfg, v, t);
  }

  // ---------------------------------------------------------------- stops that complete

  /** Each worker is fed by one balancer. */
  ghost predicate OneFeeder(cfg: Config) {
    forall t, u :: cfg.workerOf(t) == cfg.workerOf(u) ==> cfg.balancerOf(t) == cfg.balancerOf(u)
  }

  /** If only threads whose flag is cleared go on, and none is at a job, `stop` completes. */
  lemma IdleLeavingEnds(cfg: Config, s: State)
    requires Sound(cfg, s) && Exhausted(cfg, OnlyLeaving, s) && Idle(s)
    requires s.phase != Running && s.output.place == Exited
    ensures s.phase == Stopped
  {
    NotReady(cfg, OnlyLeaving, s, TheStopper);
    match s.phase
    case StopBalancer(i, part) =>
      assert BalancerInPhase(s.phase, i, s.balancers[i]);
      if part == Join && s.balancers[i].place != Exited {
        NotReady(cfg, OnlyLeaving, s, TheBalancer(i));
      }
    case StopWorker(j, part) =>
      assert WorkerInPhase(s.phase, j, s.workers[j]);
      if part == Join && s.workers[j].place != Exited {
        NotReady(cfg, OnlyLeaving, s, TheWorker(j));
      }
    case _ =>
  }

  lemma IdleStops(cfg: Config, s: State) returns (u: State)
    requires cfg.Valid() && Reachable(cfg, s) && s.phase != Running && s.output.place == Exited && Idle(s)
    ensures Quietly(cfg, s, u) && u.phase == Stopped && u.output.written == s.output.written
  {
    u := RunsUntilExhausted(cfg, OnlyLeaving, s);
    ReachedIsSound(cfg, u);
    IdleLeavingEnds(cfg, u);
  }

  /** The balancer has nothing, or holds a job for a worker whose queue is full. */
  predicate Behind(cfg: Config, s: State, b: Balancer, j: nat)
    requires j < |s.workers|
  {
    BalancerEmpty(b) ||
    (b.place.Holding? && cfg.workerOf(b.place.job.tuple) == j && |s.workers[j].input.queue| >= cfg.workerCap)
  }

  /** All but one worker are empty, that one waits with a job of the flow, and no balancer
      can get rid of anything else. */
  ghost predicate HeldBack(cfg: Config, s: State, t: FiveTuple) {
    var j := cfg.workerOf(t);
    && j < |s.workers| && s.workers[j].place.Pushing? && s.output.queue.queue == [] && !s.output.place.Holding?
    && (forall k :: 0 <= k < |s.workers| && k != j ==> WorkerEmpty(s.workers[k]))
    && (forall i :: 0 <= i < |s.balancers| ==> Behind(cfg, s, s.balancers[i], j))
  }

  lemma OthersAreEmpty(cfg: Config, s: State, t: FiveTuple, count: nat, k: nat)
    requires Sound(cfg, s) && s.phase == Running && Exhausted(cfg, FlowUpTo(t, count), s)
    requires k < cfg.workers && k != cfg.workerOf(t)
    ensures WorkerEmpty(s.workers[k])
  {
    assert WorkerInPhase(s.phase, k, s.workers[k]);
    WorkerFacts(cfg, s, k);
    if !WorkerEmpty(s.workers[k]) {
      var thread := WorkerReady(cfg, s, k);
      assert Allowed(FlowUpTo(t, count), s, thread);
    }
  }

  lemma BalancersAreBehind(cfg: Config, s: State, t: FiveTuple, count: nat, i: nat)
    requires Sound(cfg, s) && s.phase == Running && Exhausted(cfg, FlowUpTo(t, count), s) && i < cfg.balancers
    ensures Behind(cfg, s, s.balancers[i], cfg.workerOf(t))
  {
    var b := s.balancers[i];
    assert BalancerInPhase(s.phase, i, b) && BalancerRouted(cfg, i, b);
    assert Allowed(FlowUpTo(t, count), s, TheBalancer(i)) && !Ready(cfg, s, TheBalancer(i));
    if !BalancerEmpty(b) {
      var k := cfg.workerOf(b.place.job.tuple);
      assert WorkerInPhase(s.phase, k, s.workers[k]);
      if k != cfg.workerOf(t) {
        OthersAreEmpty(cfg, s, t, count, k);
      }
    }
  }

  lemma WorkerIsHeldBack(cfg: Config, s: State, t: FiveTuple, count: nat)
    requires Sound(cfg, s) && s.phase == Running && Exhausted(cfg, FlowUpTo(t, count), s) && !Drained(s)
    ensures s.workers[cfg.workerOf(t)].place.Pushing?
  {
    var thread := RunningReady(cfg, s);
    assert !Allowed(FlowUpTo(t, count), s, thread);
    WorkerFacts(cfg, s, thread.j);
  }

  lemma ExhaustedIsHeldBack(cfg: Config, s: State, t: FiveTuple, count: nat)
    requires Sound(cfg, s) && s.phase == Running && Exhausted(cfg, FlowUpTo(t, count), s) && !Drained(s)
    ensures HeldBack(cfg, s, t)
  {
    WorkerIsHeldBack(cfg, s, t, count);
    assert Allowed(FlowUpTo(t, count), s, TheWriter) && !Ready(cfg, s, TheWriter);
    forall k | 0 <= k < |s.workers| && k != cfg.workerOf(t)
      ensures WorkerEmpty(s.workers[k])
    {
      OthersAreEmpty(cfg, s, t, count, k);
    }
    forall i | 0 <= i < |s.balancers|
      ensures Behind(cfg, s, s.balancers[i], cfg.workerOf(t))
    {
      BalancersAreBehind(cfg, s, t, count, i);
    }
  }

  // ---------------------------------------------------------------- making room for a balancer

  /** Only the worker, the balancer and the output queue are touched. */
  predicate Touches(s: State, u: State, i: nat, j: nat) {
    && |u.balancers| == |s.balancers| && |u.workers| == |s.workers| && u.phase == s.phase
    && u.output.place == s.output.place && u.output.written == s.output.written
    && (forall k :: 0 <= k < |s.balancers| && k != i ==> u.balancers[k] == s.balancers[k])
    && (forall k :: 0 <= k < |s.workers| && k != j ==> u.workers[k] == s.workers[k])
  }

  /** The worker hands over its job. */
  lemma HandsOver(cfg: Config, s: State, i: nat, j: nat) returns (u: State)
    requires j < |s.workers| && s.workers[j].place.Pushing?
    requires |s.output.queue.queue| < cfg.outputCap && !s.output.queue.shut
    ensures Quietly(cfg, s, u) && Touches(s, u, i, j) && u.workers[j].place == AtHead && u.balancers == s.balancers
    ensures u.workers[j].input == s.workers[j].input && u.workers[j].running == s.workers[j].running
    ensures !u.output.queue.shut && |u.output.queue.queue| == |s.output.queue.queue| + 1
  {
    u := Next(cfg, s, Work(j, {}));
    QuietByOne(cfg, s, TheWorker(j));
  }

  /** The worker takes one more job, and the balancer gets rid of its own. */
  lemma TakesOneMore(cfg: Config, s: State, i: nat, j: nat) returns (u: State)
    requires j < |s.workers| && i < |s.balancers| && s.workers[j].place == AtHead && s.workers[j].running
    requires 0 < |s.workers[j].input.queue| <= cfg.workerCap
    requires s.balancers[i].place.Holding? && cfg.workerOf(s.balancers[i].place.job.tuple) == j
    ensures Quietly(cfg, s, u) && Touches(s, u, i, j) && u.balancers[i].place == AtHead && u.workers[j].place.Holding?
    ensures u.output == s.output
  {
    var s1 := Next(cfg, s, Work(j, {}));
    var s2 := Next(cfg, s1, Work(j, {}));
    u := Next(cfg, s2, Balance(i));
    QuietByOne(cfg, s2, TheBalancer(i));
    QuietFirst(cfg, s1, TheWorker(j), u);
    QuietFirst(cfg, s, TheWorker(j), u);
  }

  /** The worker deals with the job in its hand, and is at the head of its loop again. */
  lemma DealsWithIt(cfg: Config, s: State, i: nat, j: nat) returns (u: State)
    requires j < |s.workers| && s.workers[j].place.Holding?
    requires |s.output.queue.queue| < cfg.outputCap && !s.output.queue.shut
    ensures Quietly(cfg, s, u) && Touches(s, u, i, j) && u.workers[j].place == AtHead && u.balancers == s.balancers
  {
    var v := Next(cfg, s, Work(j, {}));
    QuietByOne(cfg, s, TheWorker(j));
    u := v;
    if v.workers[j].place.Pushing? {
      u := HandsOver(cfg, v, i, j);
      QuietOn(cfg, s, v, u);
    }
  }

  lemma MakesRoom(cfg: Config, s: State, i: nat, j: nat) returns (u: State)
    requires j < |s.workers| && i < |s.balancers| && s.workers[j].place == AtHead && s.workers[j].running
    requires 0 < |s.workers[j].input.queue| <= cfg.workerCap
    requires s.balancers[i].place.Holding? && cfg.workerOf(s.balancers[i].place.job.tuple) == j
    requires |s.output.queue.queue| < cfg.outputCap && !s.output.queue.shut
    ensures Quietly(cfg, s, u) && Touches(s, u, i, j) && u.balancers[i].place == AtHead && u.workers[j].place == AtHead
  {
    var v := TakesOneMore(cfg, s, i, j);
    u := DealsWithIt(cfg, v, i, j);
    QuietOn(cfg, s, v, u);
  }

  /** From where a flow is held back, `stop` can complete without the writer. */
  lemma HeldBackStops(cfg: Config, s: State, t: FiveTuple) returns (u: State)
    requires cfg.Valid() && OneFeeder(cfg) && cfg.outputCap >= 2
    requires Reachable(cfg, s) && s.phase == Running && ReaderDone(s) && HeldBack(cfg, s, t)
    ensures Quietly(cfg, s, u) && u.phase == Stopped && u.output.written == Handed(s)
  {
    var i, j := cfg.balancerOf(t), cfg.workerOf(t);
    ReachedIsSound(cfg, s);
    assert BalancerInPhase(s.phase, i, s.balancers[i]) && WorkerInPhase(s.phase, j, s.workers[j]);
    ReachedFits(cfg, s);
    var v := StopEarly(cfg, s);
    ReachedIsSound(cfg, v);
    var w := HandsOver(cfg, v, i, j);
    QuietOn(cfg, s, v, w);
    if s.balancers[i].place.Holding? {
      assert Behind(cfg, s, s.balancers[i], j);
      var x := MakesRoom(cfg, w, i, j);
      QuietOn(cfg, s, w, x);
      w := x;
    }
    OnlyFeederIsBehind(cfg, s, w, t);
    QuietReaches(cfg, s, w);
    u := IdleStops(cfg, w);
    QuietOn(cfg, s, w, u);
  }

  lemma OnlyFeederIsBehind(cfg: Config, s: State, u: State, t: FiveTuple)
    requires OneFeeder(cfg) && Sound(cfg, s) && HeldBack(cfg, s, t) && s.phase == Running
    requires |u.balancers| == |s.balancers| && |u.workers| == |s.workers|
    requires var i, j := cfg.balancerOf(t), cfg.workerOf(t);
      && u.workers[j].place == AtHead && !u.balancers[i].place.Holding?
      && (u.balancers[i].place == AtHead || u.balancers[i] == s.balancers[i])
      && (forall k :: 0 <= k < |s.balancers| && k != i ==> u.balancers[k] == s.balancers[k])
      && (forall k :: 0 <= k < |s.workers| && k != j ==> u.workers[k] == s.workers[k])
    ensures Idle(u)
  {
    var i, j := cfg.balancerOf(t), cfg.workerOf(t);
    forall k | 0 <= k < |u.balancers|
      ensures AtRest(u.balancers[k].place, u.balancers[k].input.queue)
    {
      BalancerFacts(cfg, s, k);
      assert BalancerRouted(cfg, k, s.balancers[k]) && Behind(cfg, s, s.balancers[k], j);
    }
    forall k | 0 <= k < |u.workers|
      ensures AtRest(u.workers[k].place, u.workers[k].input.queue)
    {
      assert k != j ==> WorkerEmpty(s.workers[k]);
    }
  }

  lemma SettledIsWhole(cfg: Config, s: State, t: FiveTuple)
    requires cfg.Valid() && Reachable(cfg, s) && Remembers(s.log.verdicts, t) && Settled(s)
    ensures Whole(cfg, Handed(s), t)
  {
    SettledCreated(cfg, s);
    EmptiedLetThrough(cfg, s, t);
    LetThroughIsAlone(cfg.process, Created(cfg.input), t);
  }

  /** `stop` can complete with no more of a flow written than so much, if there is more of it
      and no more is handed over when it begins. */
  lemma StopsShort(cfg: Config, s: State, t: FiveTuple, count: nat) returns (u: State)
    requires cfg.Valid() && OneFeeder(cfg) && cfg.outputCap >= 2
    requires Reachable(cfg, s) && s.phase == Running && ReaderDone(s) && |Of(Handed(s), t)| <= count
    requires forall v :: Quietly(cfg, s, v) && Settled(v) ==> |Of(Handed(v), t)| > count
    ensures Quietly(cfg, s, u) && u.phase == Stopped && |Of(u.output.written, t)| <= count
  {
    var v := RunsUntilExhausted(cfg, FlowUpTo(t, count), s);
    ReachedIsSound(cfg, v);
    assert !Drained(v);
    ExhaustedIsHeldBack(cfg, v, t, count);
    u := HeldBackStops(cfg, v, t);
    QuietOn(cfg, s, v, u);
  }

  /** What is not handed over when `stop` begins can be lost by a `stop` that completes. */
  lemma LastIsLost(cfg: Config, s: State, t: FiveTuple) returns (u: State)
    requires cfg.Valid() && OneFeeder(cfg) && cfg.outputCap >= 2
    requires Reachable(cfg, s) && s.phase == Running && ReaderDone(s) && Keeps(cfg, s, t) && !Whole(cfg, Handed(s), t)
    ensures Quietly(cfg, s, u) && u.phase == Stopped && Remembers(u.log.verdicts, t)
    ensures !Whole(cfg, u.output.written, t)
  {
    HandedIsPrefix(cfg, s, t);
    forall v | Quietly(cfg, s, v) && Settled(v)
      ensures Whole(cfg, Handed(v), t)
    {
      QuietReaches(cfg, s, v);
      QuietKeeps(cfg, s, v, t);
      SettledIsWhole(cfg, v, t);
    }
    u := StopsShort(cfg, s, t, |Expected(cfg, t)| - 1);
    QuietKeeps(cfg, s, u, t);
  }

  lemma StoppedHasLeft(cfg: Config, s: State)
    requires cfg.Valid() && Reachable(cfg, s) && s.phase == Stopped
    ensures s.output.place == Exited
  {
    ReachedIsSound(cfg, s);
  }

  /** What was handed over whole when `stop` began is written whole when it is done. */
  lemma StoppedIsWhole(cfg: Config, s: State, t: FiveTuple, v: State)
    requires cfg.Valid() && Reachable(cfg, s) && s.phase == Running && Whole(cfg, Handed(s), t)
    requires Leads(cfg, s, v) && v.phase == Stopped && Remembers(v.log.verdicts, t)
    ensures Whole(cfg, v.output.written, t)
  {
    LeadsReaches(cfg, s, v);
    StoppedHasLeft(cfg, v);
    WholeIsWritten(cfg, s, t, v);
  }

  // ---------------------------------------------------------------- all flows together

  ghost predicate AllWhole(cfg: Config, jobs: seq<PacketJob>) {
    forall t :: Whole(cfg, jobs, t)
  }

  lemma AllWholeIsLong(cfg: Config, jobs: seq<PacketJob>)
    requires AllWhole(cfg, jobs)
    ensures |jobs| == Through(cfg, Created(cfg.input))
  {
    forall t
      ensures Of(jobs, t) == Of(LetThrough(cfg.process, Created(cfg.input)).1, t)
    {
      assert Whole(cfg, jobs, t);
      LetThroughIsAlone(cfg.process, Created(cfg.input), t);
    }
    FlowwiseShorter(jobs, LetThrough(cfg.process, Created(cfg.input)).1);
    FlowwiseShorter(LetThrough(cfg.process, Created(cfg.input)).1, jobs);
  }

  /** As long as all flows are remembered, nothing is still to come exactly when all flows
      are handed over whole. */
  lemma NothingToComeIff(cfg: Config, s: State)
    requires cfg.Valid() && Reachable(cfg, s) && RemembersAll(s.log.verdicts)
    ensures StillToCome(cfg, s) >= 0 && (StillToCome(cfg, s) == 0 <==> AllWhole(cfg, Handed(s)))
  {
    var all := LetThrough(cfg.process, Created(cfg.input)).1;
    forall t
      ensures Of(Handed(s), t) <= Of(all, t) && Of(all, t) == Expected(cfg, t)
    {
      HandedIsPrefix(cfg, s, t);
      LetThroughIsAlone(cfg.process, Created(cfg.input), t);
    }
    FlowwiseShorter(Handed(s), all);
    if |Handed(s)| == |all| {
      forall t
        ensures Whole(cfg, Handed(s), t)
      {
        FlowwiseSame(Handed(s), all, t);
      }
    }
    if AllWhole(cfg, Handed(s)) {
      AllWholeIsLong(cfg, Handed(s));
    }
  }

  lemma StoppedIsAllWhole(cfg: Config, s: State, v: State)
    requires cfg.Valid() && Reachable(cfg, s) && s.phase == Running
    requires RemembersAll(s.log.verdicts) && StillToCome(cfg, s) == 0
    requires Leads(cfg, s, v) && v.phase == Stopped && RemembersAll(v.log.verdicts)
    ensures AllWhole(cfg, v.output.written)
  {
    NothingToComeIff(cfg, s);
    forall t
      ensures Whole(cfg, v.output.written, t)
    {
      assert Whole(cfg, Handed(s), t);
      StoppedIsWhole(cfg, s, t, v);
    }
  }

  /** All but one of the jobs still to come can be handed over before `stop` begins. */
  lemma AllButOne(cfg: Config, s: State) returns (u: State)
    requires cfg.Valid() && Reachable(cfg, s) && s.phase == Running && ReaderDone(s) && KeepsAll(cfg, s)
    requires StillToCome(cfg, s) > 0
    ensures Reachable(cfg, u) && Quietly(cfg, s, u) && u.phase == Running && ReaderDone(u) && KeepsAll(cfg, u)
    ensures StillToCome(cfg, u) == 1
  {
    var limit := Through(cfg, Created(cfg.input)) - 1;
    u := RunsUntilExhausted(cfg, UpTo(limit, false), s);
    ReachedIsSound(cfg, u);
    QuietKeepsAll(cfg, s, u);
    ExhaustedRunning(cfg, limit, u);
    if Drained(u) {
      SettledCreated(cfg, u);
      EmptiedHanded(cfg, u);
    }
  }

  /** If anything is still to come when `stop` begins, a `stop` that completes can lose it. */
  lemma OneIsLost(cfg: Config, s: State) returns (v: State)
    requires cfg.Valid() && Reachable(cfg, s) && s.phase == Running && ReaderDone(s) && KeepsAll(cfg, s)
    requires StillToCome(cfg, s) > 0
    ensures Quietly(cfg, s, v) && v.phase == Stopped && RemembersAll(v.log.verdicts)
    ensures !AllWhole(cfg, v.output.written)
  {
    var u := AllButOne(cfg, s);
    v := EndsEarly(cfg, u);
    QuietOn(cfg, s, u, v);
    QuietKeepsAll(cfg, u, v);
    if Deadlocked(cfg, v) {
      ReachedIsSound(cfg, u);
      QuietLeads(cfg, u, v);
      DeadlockIsCrowded(cfg, u, v);
    }
    if AllWhole(cfg, v.output.written) {
      AllWholeIsLong(cfg, v.output.written);
    }
  }

  /** `stop` can come to its end, done or deadlocked, with nothing written but what had been
      handed over when it began. */
  lemma EndsEarly(cfg: Config, s: State) returns (v: State)
    requires cfg.Valid() && Reachable(cfg, s) && s.phase == Running && ReaderDone(s)
    ensures Quietly(cfg, s, v) && (v.phase == Stopped || Deadlocked(cfg, v)) && v.output.written == Handed(s)
  {
    var w := StopEarly(cfg, s);
    v := StopRunsToItsEnd(cfg, w);
    QuietOn(cfg, s, w, v);
  }

  /** The loss from the start by a stretch of the capture: if the last jobs of it fit into one
      balancer and one worker, and any of them is let through, some flow can be lost, whatever
      the jobs before them are. */
  lemma StretchLoses(cfg: Config, front: seq<Option<PacketJob>>) returns (v: State)
    requires cfg.Valid() && front <= cfg.input
    requires |Created(cfg.input)| - |Created(front)| <= cfg.balancerCap + cfg.workerCap + 2
    requires Through(cfg, Created(cfg.input)) > Through(cfg, Created(front))
    ensures Quietly(cfg, Initial(cfg), v) && v.phase == Stopped && RemembersAll(v.log.verdicts)
    ensures !AllWhole(cfg, v.output.written)
  {
    var s := CatchesUp(cfg, front);
    var u := LoadsStretch(cfg, s);
    v := OneIsLost(cfg, u);
    QuietOn(cfg, Initial(cfg), s, u);
    QuietOn(cfg, Initial(cfg), u, v);
  }

  // ---------------------------------------------------------------- captures of which nothing is dropped

  predicate AllIn(jobs: seq<PacketJob>, all: seq<PacketJob>, t: FiveTuple) {
    forall k :: 0 <= k < |jobs| ==> jobs[k] in all && jobs[k].tuple == t
  }

  lemma AdmittedOneMore(cfg: Config, ok: Allows, jobs: seq<PacketJob>, job: PacketJob)
    requires Admits(cfg, ok) && job in Created(cfg.input)
    requires ok(job.tuple, Alone(cfg.process, jobs).0) && Alone(cfg.process, jobs).1 == jobs
    ensures ok(job.tuple, Alone(cfg.process, jobs + [job]).0) && Alone(cfg.process, jobs + [job]).1 == jobs + [job]
  {
    AloneOneMore(cfg.process, jobs, job);
    assert Admitted(cfg.process, ok, Alone(cfg.process, jobs).0, job);
  }

  lemma {:induction false} AdmittedAlone(cfg: Config, ok: Allows, jobs: seq<PacketJob>, t: FiveTuple, n: nat)
    requires Admits(cfg, ok) && AllIn(jobs, Created(cfg.input), t) && n <= |jobs|
    ensures ok(t, Alone(cfg.process, jobs[..n]).0) && Alone(cfg.process, jobs[..n]).1 == jobs[..n]
    decreases n
  {
    if n == 0 {
    } else {
      AdmittedAlone(cfg, ok, jobs, t, n - 1);
      AdmittedOneMore(cfg, ok, jobs[..n - 1], jobs[n - 1]);
      assert jobs[..n] == jobs[..n - 1] + [jobs[n - 1]];
    }
  }

  lemma {:induction false} OfIsIn(jobs: seq<PacketJob>, t: FiveTuple)
    ensures AllIn(Of(jobs, t), jobs, t)
  {
    if jobs == [] {
    } else {
      OfIsIn(jobs[..|jobs| - 1], t);
    }
  }

  /** Of such a capture all is let through. */
  lemma AdmittedIsExpected(cfg: Config, ok: Allows, t: FiveTuple)
    requires Admits(cfg, ok)
    ensures Expected(cfg, t) == Of(Created(cfg.input), t)
    ensures Of(LetThrough(cfg.process, Created(cfg.input)).1, t) == Of(Created(cfg.input), t)
  {
    OfIsIn(Created(cfg.input), t);
    var own := Of(Created(cfg.input), t);
    AdmittedAlone(cfg, ok, own, t, |own|);
    assert own[..|own|] == own;
    LetThroughIsAlone(cfg.process, Created(cfg.input), t);
  }

  /** On all runs, whatever tables lose, what is handed over of a flow is a prefix of it, and
      all of it once nothing is on its way. */
  lemma AdmittedIsPrefix(cfg: Config, ok: Allows, s: State, t: FiveTuple)
    requires cfg.Valid() && Admits(cfg, ok) && Reachable(cfg, s)
    ensures Of(Handed(s), t) <= Expected(cfg, t) && Of(s.output.written, t) <= Expected(cfg, t)
    ensures Settled(s) ==> Whole(cfg, Handed(s), t)
  {
    ReachedIsFaithful(cfg, s, t);
    ReachedDropsNothing(cfg, ok, s);
    ReachedIsTallied(cfg, s);
    AdmittedIsExpected(cfg, ok, t);
    JudgedIsInput(cfg, s, t);
    OfPrefix(s.output.written, Handed(s), t);
    assert Of(Handed(s), t) <= Of(Passed(s.log.verdicts), t);
    if Settled(s) {
      SettledCreated(cfg, s);
      assert BalancerEmpty(s.balancers[cfg.balancerOf(t)]) && WorkerEmpty(s.workers[cfg.workerOf(t)]);
      SettledPath(s.log.verdicts, s.workers[cfg.workerOf(t)], s.balancers[cfg.balancerOf(t)], s.reader, s.output, t);
    }
  }

  lemma AdmittedIsLost(cfg: Config, ok: Allows, s: State, t: FiveTuple) returns (u: State)
    requires cfg.Valid() && Admits(cfg, ok) && OneFeeder(cfg) && cfg.outputCap >= 2
    requires Reachable(cfg, s) && s.phase == Running && ReaderDone(s) && !Whole(cfg, Handed(s), t)
    ensures Quietly(cfg, s, u) && u.phase == Stopped && !Whole(cfg, u.output.written, t)
  {
    AdmittedIsPrefix(cfg, ok, s, t);
    forall v | Quietly(cfg, s, v) && Settled(v)
      ensures Whole(cfg, Handed(v), t)
    {
      QuietReaches(cfg, s, v);
      AdmittedIsPrefix(cfg, ok, v, t);
    }
    u := StopsShort(cfg, s, t, |Expected(cfg, t)| - 1);
  }

  /** What was handed over whole is written whole, on every run. */
  lemma AdmittedIsWritten(cfg: Config, ok: Allows, s: State, t: FiveTuple, v: State)
    requires cfg.Valid() && Admits(cfg, ok) && Reachable(cfg, s) && s.phase == Running && Whole(cfg, Handed(s), t)
    requires Leads(cfg, s, v) && v.phase == Stopped
    ensures Whole(cfg, v.output.written, t)
  {
    ReachedIsSound(cfg, s);
    LeadsLater(cfg, s, v);
    LeadsReaches(cfg, s, v);
    StoppedHasLeft(cfg, v);
    OfPrefix(Handed(s), v.output.written, t);
    AdmittedIsPrefix(cfg, ok, v, t);
  }

  /** If a job is upstream of the output queue when `stop` begins, exactly one can be lost. */
  lemma AdmittedLosesOne(cfg: Config, ok: Allows, s: State) returns (v: State)
    requires cfg.Valid() && Admits(cfg, ok) && Reachable(cfg, s) && s.phase == Running && ReaderDone(s)
    requires Upstream(s) > 0
    ensures Quietly(cfg, s, v) && v.phase == Stopped && |v.output.written| == |Created(cfg.input)| - 1
  {
    var limit := |Created(cfg.input)| - 1;
    HandedIsWithin(cfg, s);
    ReachedDropsNothing(cfg, ok, s);
    var u := RunsUntilExhausted(cfg, UpTo(limit, false), s);
    ReachedDropsNothing(cfg, ok, u);
    OneIsLeft(cfg, u);
    v := LosesTheLast(cfg, ok, u);
    QuietOn(cfg, s, u, v);
  }

  lemma OneIsLeft(cfg: Config, s: State)
    requires cfg.Valid() && Reachable(cfg, s) && s.phase == Running && ReaderDone(s) && s.log.dropped == 0
    requires |Handed(s)| < |Created(cfg.input)| && Exhausted(cfg, UpTo(|Created(cfg.input)| - 1, false), s)
    ensures Upstream(s) == 1
  {
    ReachedIsSound(cfg, s);
    HandedIsWithin(cfg, s);
    ExhaustedRunning(cfg, |Created(cfg.input)| - 1, s);
    if Drained(s) {
      SettledCreated(cfg, s);
      EmptiedUpstream(s);
    }
  }

  lemma LosesTheLast(cfg: Config, ok: Allows, s: State) returns (v: State)
    requires cfg.Valid() && Admits(cfg, ok) && Reachable(cfg, s) && s.phase == Running && ReaderDone(s)
    requires Upstream(s) == 1
    ensures Quietly(cfg, s, v) && v.phase == Stopped && |v.output.written| == |Created(cfg.input)| - 1
  {
    v := EndsEarly(cfg, s);
    QuietLeads(cfg, s, v);
    RoomPreventsDeadlock(cfg, s, v);
    HandedIsWithin(cfg, s);
    ReachedDropsNothing(cfg, ok, s);
  }

  /** Of any such capture that has a job at all a packet can be lost, with any numbers of
      threads and any capacities. */
  lemma LosesFromStart(cfg: Config, ok: Allows) returns (v: State)
    requires cfg.Valid() && Admits(cfg, ok) && Created(cfg.input) != []
    ensures Quietly(cfg, Initial(cfg), v) && v.phase == Stopped
    ensures |v.output.written| == |Created(cfg.input)| - 1
  {
    var s := AllButAFew(cfg, ok, 1);
    v := LosesTheLast(cfg, ok, s);
    QuietOn(cfg, Initial(cfg), s, v);
  }

  // ---------------------------------------------------------------- where the lost jobs are

  function BalancerQueue(b: Balancer): nat {
    |b.input.queue|
  }

  function WorkerQueue(w: Worker): nat {
    |w.input.queue|
  }

  /** When `stop` is done every job of the capture is written, dropped, or left behind in the
      queue of a balancer, of a worker or of the writer. */
  lemma StoppedAccounts(cfg: Config, s: State)
    requires cfg.Valid() && Reachable(cfg, s) && s.phase == Stopped
    ensures |Created(cfg.input)| == |s.output.written| + s.log.dropped
      + Sum(BalancerQueue, s.balancers) + Sum(WorkerQueue, s.workers) + |s.output.queue.queue|
  {
    ReachedIsSound(cfg, s);
    HandedIsWithin(cfg, s);
    forall i | 0 <= i < |s.balancers|
      ensures BalancerLoad(s.balancers[i]) == BalancerQueue(s.balancers[i])
    {
      assert BalancerInPhase(s.phase, i, s.balancers[i]);
    }
    forall j | 0 <= j < |s.workers|
      ensures WorkerLoad(s.workers[j]) == WorkerQueue(s.workers[j]) && PushLoad(s.workers[j]) == 0
    {
      assert WorkerInPhase(s.phase, j, s.workers[j]);
    }
    SumAlike(BalancerLoad, BalancerQueue, s.balancers);
    SumAlike(WorkerLoad, WorkerQueue, s.workers);
    SumZero(PushLoad, s.workers);
  }

  lemma {:induction false} SumAlike<T>(f: T -> nat, g: T -> nat, xs: seq<T>)
    requires forall i :: 0 <= i < |xs| ==> f(xs[i]) == g(xs[i])
    ensures Sum(f, xs) == Sum(g, xs)
  {
    if xs == [] {
    } else {
      SumAlike(f, g, xs[..|xs| - 1]);
    }
  }
}
