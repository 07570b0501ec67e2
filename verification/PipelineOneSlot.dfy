/** Why the exact condition for a loss asks for room for two jobs in the output queue: with
    room for one only, `stop` can be forced to wait for a packet that was not handed over. */
module PipelineOneSlot {
  import opened Types
  import opened Pipeline
  import opened PipelineOrder
  import opened PipelineAccounts
  import opened PipelineProgress
  import opened PipelineRuns
  import opened PipelineMemory
  import opened PipelineStop
  import opened PipelineHang
  import opened PipelineLoss

  /** The balancer holds a job for the worker, whose queue is full. */
  predicate IsStuck(cfg: Config, s: State, i: nat, j: nat) {
    && i < |s.balancers| && j < |s.workers| && s.balancers[i].place.Holding?
    && cfg.workerOf(s.balancers[i].place.job.tuple) == j && |s.workers[j].input.queue| >= cfg.workerCap
  }

  /** The worker waits to push, the balancer waits for the worker, and the writer is there. */
  predicate Wedged(cfg: Config, s: State, i: nat, j: nat) {
    IsStuck(cfg, s, i, j) && s.workers[j].place.Pushing? && s.output.place != Exited
  }

  /** The writer has left before the worker's push, and the worker has to push twice before
      its balancer can leave, or has one push too many already. */
  predicate Jammed(cfg: Config, s: State, i: nat, j: nat) {
    s.output.place == Exited && j < |s.workers| &&
    match s.workers[j].place
    case Pushing(_) => IsStuck(cfg, s, i, j) || |s.output.queue.queue| >= cfg.outputCap
    case Holding(_) => |s.output.queue.queue| >= cfg.outputCap
    case Exited => false
    case _ => IsStuck(cfg, s, i, j) && |s.output.queue.queue| >= cfg.outputCap
  }

  lemma WorkStaysStuck(cfg: Config, s: State, i: nat, j: nat, k: nat, gone: set<FiveTuple>)
    requires IsStuck(cfg, s, i, j) && WorkEnabled(cfg, s, k, gone) && (k == j ==> !s.workers[j].place.Waiting?)
    ensures IsStuck(cfg, DoWork(cfg, s, k, gone), i, j)
  {
  }

  lemma BalanceStaysStuck(cfg: Config, s: State, i: nat, j: nat, k: nat)
    requires IsStuck(cfg, s, i, j) && BalanceEnabled(cfg, s, k) && !s.workers[j].input.shut
    ensures IsStuck(cfg, DoBalance(cfg, s, k), i, j)
  {
  }

  /** Behind a full queue nothing changes for the balancer and the worker's queue but by a
      turn of the worker. */
  lemma StaysStuck(cfg: Config, s: State, i: nat, j: nat, turn: Turn)
    requires Sound(cfg, s) && IsStuck(cfg, s, i, j) && Enabled(cfg, s, turn)
    requires turn.Work? && turn.j == j ==> !s.workers[j].place.Waiting?
    ensures IsStuck(cfg, Next(cfg, s, turn), i, j)
  {
    assert BalancerInPhase(s.phase, i, s.balancers[i]) && WorkerInPhase(s.phase, j, s.workers[j]);
    match turn
    case Work(k, gone) => WorkStaysStuck(cfg, s, i, j, k, gone);
    case Balance(k) => BalanceStaysStuck(cfg, s, i, j, k);
    case Stop => StopKeepsRest(cfg, s); StopKeepsBalancers(cfg, s, i); StopKeepsWorkers(cfg, s, j);
    case _ =>
  }

  lemma OthersLeaveWorker(cfg: Config, s: State, j: nat, turn: Turn)
    requires j < |s.workers| && Enabled(cfg, s, turn) && !(turn.Work? && turn.j == j)
    ensures j < |Next(cfg, s, turn).workers| && Next(cfg, s, turn).workers[j].place == s.workers[j].place
  {
  }

  lemma LeftOutputGrows(cfg: Config, s: State, turn: Turn)
    requires s.output.place == Exited && Enabled(cfg, s, turn)
    ensures var u := Next(cfg, s, turn);
      u.output.place == Exited && |u.output.queue.queue| >= |s.output.queue.queue|
  {
  }

  lemma WorkerStaysJammed(cfg: Config, s: State, i: nat, j: nat, gone: set<FiveTuple>)
    requires Sound(cfg, s) && Jammed(cfg, s, i, j) && cfg.outputCap == 1 && WorkEnabled(cfg, s, j, gone)
    requires DoWork(cfg, s, j, gone).log.dropped == s.log.dropped
    ensures Jammed(cfg, DoWork(cfg, s, j, gone), i, j)
  {
    assert WorkerInPhase(s.phase, j, s.workers[j]);
    if s.workers[j].place.AtHead? || s.workers[j].place.Pushing? {
      StaysStuck(cfg, s, i, j, Work(j, gone));
      assert BalancerInPhase(s.phase, i, s.balancers[i]);
    }
  }

  lemma StaysJammed(cfg: Config, s: State, i: nat, j: nat, turn: Turn)
    requires Sound(cfg, s) && Jammed(cfg, s, i, j) && cfg.outputCap == 1 && Enabled(cfg, s, turn)
    requires Next(cfg, s, turn).log.dropped == s.log.dropped
    ensures Jammed(cfg, Next(cfg, s, turn), i, j)
  {
    if turn.Work? && turn.j == j {
      WorkerStaysJammed(cfg, s, i, j, turn.gone);
    } else {
      LeftOutputGrows(cfg, s, turn);
      OthersLeaveWorker(cfg, s, j, turn);
      if IsStuck(cfg, s, i, j) {
        StaysStuck(cfg, s, i, j, turn);
      }
    }
  }

  lemma JammedIsNotStopped(cfg: Config, s: State, i: nat, j: nat)
    requires Sound(cfg, s) && Jammed(cfg, s, i, j)
    ensures s.phase != Stopped
  {
    assert WorkerInPhase(s.phase, j, s.workers[j]);
  }

  lemma {:induction false} PathStaysJammed(cfg: Config, ok: Allows, s: State, i: nat, j: nat, turns: seq<Turn>,
          u: State)
    requires cfg.Valid() && cfg.outputCap == 1 && Admits(cfg, ok) && Reachable(cfg, s) && Jammed(cfg, s, i, j)
    requires Path(cfg, s, turns, u)
    ensures u.phase != Stopped
    decreases |turns|
  {
    ReachedIsSound(cfg, s);
    if turns == [] {
      JammedIsNotStopped(cfg, s, i, j);
    } else {
      var v := Next(cfg, s, turns[0]);
      NextIsReachable(cfg, s, turns[0]);
      ReachedDropsNothing(cfg, ok, s);
      ReachedDropsNothing(cfg, ok, v);
      StaysJammed(cfg, s, i, j, turns[0]);
      PathStaysJammed(cfg, ok, v, i, j, turns[1..], u);
    }
  }

  /** As long as the worker has not pushed, the writer is there or the engine is jammed. */
  lemma WedgedGoesOn(cfg: Config, s: State, i: nat, j: nat, turn: Turn)
    requires Sound(cfg, s) && Wedged(cfg, s, i, j) && Enabled(cfg, s, turn)
    ensures var u := Next(cfg, s, turn);
      if turn.Work? && turn.j == j then u.output.place != Exited && Handed(u) == Handed(s) + [s.workers[j].place.job]
      else (Wedged(cfg, u, i, j) || Jammed(cfg, u, i, j)) && u.workers[j].place == s.workers[j].place
    ensures Handed(s) <= Handed(Next(cfg, s, turn))
  {
    if turn.Work? && turn.j == j {
      WorkerFacts(cfg, s, j);
      assert Handed(Next(cfg, s, turn)) == Handed(s) + [s.workers[j].place.job];
    } else {
      StaysStuck(cfg, s, i, j, turn);
      OthersLeaveWorker(cfg, s, j, turn);
    }
    StepIsLater(cfg, s, s, turn);
  }

  /** The job that the worker waits with is written by every `stop` that completes. */
  lemma {:induction false} WedgedIsWritten(cfg: Config, ok: Allows, s: State, i: nat, j: nat, turns: seq<Turn>,
          u: State,
          t: FiveTuple)
    requires cfg.Valid() && cfg.outputCap == 1 && Admits(cfg, ok) && Reachable(cfg, s) && Wedged(cfg, s, i, j)
    requires s.workers[j].place.job.tuple == t && Path(cfg, s, turns, u) && u.phase == Stopped
    ensures |Of(u.output.written, t)| > |Of(Handed(s), t)|
    decreases |turns|
  {
    ReachedIsSound(cfg, s);
    assert WorkerInPhase(s.phase, j, s.workers[j]);
    var v := Next(cfg, s, turns[0]);
    WedgedGoesOn(cfg, s, i, j, turns[0]);
    NextIsReachable(cfg, s, turns[0]);
    if turns[0].Work? && turns[0].j == j {
      PushedIsWritten(cfg, s, v, s.workers[j].place.job, u, turns[1..]);
    } else if Jammed(cfg, v, i, j) {
      PathStaysJammed(cfg, ok, v, i, j, turns[1..], u);
    } else {
      WedgedIsWritten(cfg, ok, v, i, j, turns[1..], u, t);
      OfPrefix(Handed(s), Handed(v), t);
    }
  }

  lemma PushedIsWritten(cfg: Config, s: State, v: State, job: PacketJob, u: State, turns: seq<Turn>)
    requires cfg.Valid() && Reachable(cfg, v) && v.output.place != Exited && Handed(v) == Handed(s) + [job]
    requires Path(cfg, v, turns, u) && u.phase == Stopped
    ensures |Of(u.output.written, job.tuple)| > |Of(Handed(s), job.tuple)|
  {
    assert Leads(cfg, v, u);
    LeadsLater(cfg, v, u);
    LeadsReaches(cfg, v, u);
    StoppedHasLeft(cfg, u);
    OfPrefix(Handed(v), u.output.written, job.tuple);
    OfOneMore(Handed(s), job, job.tuple);
  }

  // ---------------------------------------------------------------- such a state

  predicate Distinct(jobs: seq<PacketJob>) {
    forall a, b :: 0 <= a < b < |jobs| ==> jobs[a].tuple != jobs[b].tuple
  }

  lemma {:induction false} DistinctOf(jobs: seq<PacketJob>, t: FiveTuple)
    requires Distinct(jobs)
    ensures |Of(jobs, t)| <= 1 && (Of(jobs, t) != [] ==> exists k :: 0 <= k < |jobs| && jobs[k].tuple == t)
    decreases |jobs|
  {
    if jobs == [] {
    } else {
      DistinctOf(jobs[..|jobs| - 1], t);
    }
  }

  lemma SumOfOne<T>(f: T -> nat, x: T)
    ensures Sum(f, [x]) == f(x)
  {
    assert [x][..0] == [];
  }

  /** One worker and one balancer, with all three jobs as far as they get. */
  lemma ThreeAreWedged(cfg: Config, s: State)
    requires cfg.Valid() && cfg.balancers == 1 && cfg.workers == 1 && cfg.workerCap == 1
    requires Reachable(cfg, s) && s.phase == Running
    requires ReaderDone(s) && Upstream(s) == 3 && Exhausted(cfg, UpTo(0, false), s)
    ensures Wedged(cfg, s, 0, 0)
  {
    ReachedIsSound(cfg, s);
    ReachedFits(cfg, s);
    var b, w := s.balancers[0], s.workers[0];
    assert BalancerInPhase(s.phase, 0, b) && BalancerRouted(cfg, 0, b) && WorkerInPhase(s.phase, 0, w);
    assert s.balancers == [b] && s.workers == [w];
    SumOfOne(BalancerLoad, b);
    SumOfOne(WorkerLoad, w);
    SumOfOne(PushLoad, w);
    assert Upstream(s) == BalancerLoad(b) + WorkerLoad(w) + PushLoad(w);
    if !w.place.Pushing? {
      SettledOrReady(cfg, s);
    }
    NotReady(cfg, UpTo(0, false), s, TheBalancer(0));
  }

  lemma SettledOrReady(cfg: Config, s: State)
    requires Sound(cfg, s) && cfg.workers == 1 && s.phase == Running && Exhausted(cfg, UpTo(0, false), s)
    requires !s.workers[0].place.Pushing?
    ensures Upstream(s) == 0
  {
    if Drained(s) {
      EmptiedUpstream(s);
    } else {
      var thread := RunningReady(cfg, s);
      NotReady(cfg, UpTo(0, false), s, thread);
    }
  }

  /** With one balancer, one worker, room for one job in their queues and three packets of
      three flows, `stop` can begin when all three are stuck behind the worker's push. */
  lemma ThreeCanBeWedged(cfg: Config, ok: Allows) returns (s: State)
    requires cfg.Valid() && Admits(cfg, ok) && cfg.balancers == 1 && cfg.workers == 1
    requires cfg.workerCap == 1 && |Created(cfg.input)| == 3
    ensures Reachable(cfg, s) && Quietly(cfg, Initial(cfg), s) && s.phase == Running && ReaderDone(s)
    ensures Wedged(cfg, s, 0, 0) && Handed(s) == []
  {
    InitialIsReachable(cfg);
    s := RunsUntilExhausted(cfg, UpTo(0, false), Initial(cfg));
    ReachedDropsNothing(cfg, ok, s);
    FewAreLeft(cfg, 3, s);
    ThreeAreWedged(cfg, s);
  }

  /** The worker's job is not handed over then, */
  lemma WedgedIsNotWhole(cfg: Config, ok: Allows, s: State)
    requires cfg.Valid() && Admits(cfg, ok) && Reachable(cfg, s) && Wedged(cfg, s, 0, 0) && Handed(s) == []
    requires Distinct(Created(cfg.input))
    ensures var t := s.workers[0].place.job.tuple;
      |Expected(cfg, t)| == 1 && !Whole(cfg, Handed(s), t)
  {
    var w := s.workers[0];
    var t := w.place.job.tuple;
    ReachedIsSound(cfg, s);
    WorkerFacts(cfg, s, 0);
    ReachedIsFaithful(cfg, s, t);
    ReachedDropsNothing(cfg, ok, s);
    ReachedIsTallied(cfg, s);
    OneAlone(w.place.job, t);
    assert Of(Passed(s.log.verdicts), t) == [] + [w.place.job];
    JudgedIsInput(cfg, s, t);
    AdmittedIsExpected(cfg, ok, t);
    DistinctOf(Created(cfg.input), t);
  }

  /** and yet every `stop` that completes writes it. */
  lemma WedgedForcesWrite(cfg: Config, ok: Allows, s: State, v: State)
    requires cfg.Valid() && cfg.outputCap == 1 && Admits(cfg, ok) && Distinct(Created(cfg.input))
    requires Reachable(cfg, s) && Wedged(cfg, s, 0, 0) && Handed(s) == [] && Leads(cfg, s, v) && v.phase == Stopped
    ensures Whole(cfg, v.output.written, s.workers[0].place.job.tuple)
  {
    var t := s.workers[0].place.job.tuple;
    var turns :| Path(cfg, s, turns, v);
    WedgedIsWritten(cfg, ok, s, 0, 0, turns, v, t);
    LeadsReaches(cfg, s, v);
    AdmittedIsPrefix(cfg, ok, v, t);
    WedgedIsNotWhole(cfg, ok, s);
  }
}
