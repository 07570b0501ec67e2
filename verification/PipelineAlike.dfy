/** States that differ in nothing but what their tables hold and their logs say of it: the
    same threads can take the same turns in them. */
module PipelineAlike {
  import opened Types
  import opened Pipeline
  import opened PipelineOrder
  import opened PipelineProgress
  import opened PipelineRuns
  import opened PipelineStop
  import opened PipelineHang

  predicate SameButTable(w: Worker, x: Worker) {
    x == w.(table := x.table)
  }

  predicate Alike(s: State, u: State) {
    && u == s.(workers := u.workers, log := u.log)
    && u.log.forwarded == s.log.forwarded && u.log.dropped == s.log.dropped && |u.workers| == |s.workers|
    && forall j :: 0 <= j < |s.workers| ==> SameButTable(s.workers[j], u.workers[j])
  }

  /** A thread's turn, in which a worker's table may lose something. */
  function TurnWith(thread: Thread, gone: set<FiveTuple>): Turn {
    if thread.TheWorker? then Work(thread.j, gone) else TurnOf(thread)
  }

  /** Both tables lead to the same verdict. */
  predicate SameVerdict(cfg: Config, w: Worker, x: Worker) {
    w.place.Holding? ==> VerdictOn(cfg, w, w.place.job).action == VerdictOn(cfg, x, w.place.job).action
  }

  lemma WorkerAlike(cfg: Config, s: State, u: State, j: nat, gone: set<FiveTuple>)
    requires Alike(s, u) && WorkEnabled(cfg, s, j, {}) && WorkEnabled(cfg, u, j, gone)
    requires SameVerdict(cfg, s.workers[j], u.workers[j])
    ensures Alike(DoWork(cfg, s, j, {}), DoWork(cfg, u, j, gone))
  {
    var s1, u1 := DoWork(cfg, s, j, {}), DoWork(cfg, u, j, gone);
    assert SameButTable(s.workers[j], u.workers[j]);
    assert SameButTable(s1.workers[j], u1.workers[j]);
  }

  lemma BalancerAlike(cfg: Config, s: State, u: State, i: nat)
    requires Alike(s, u) && BalanceEnabled(cfg, s, i)
    ensures BalanceEnabled(cfg, u, i) && Alike(DoBalance(cfg, s, i), DoBalance(cfg, u, i))
  {
    if s.balancers[i].place.Holding? {
      var j := cfg.workerOf(s.balancers[i].place.job.tuple);
      assert SameButTable(s.workers[j], u.workers[j]);
    }
  }

  lemma StopAlike(cfg: Config, s: State, u: State)
    requires Alike(s, u) && StopEnabled(cfg, s)
    ensures StopEnabled(cfg, u) && Alike(DoStop(cfg, s), DoStop(cfg, u))
  {
    if s.phase.StopWorker? {
      assert SameButTable(s.workers[s.phase.j], u.workers[s.phase.j]);
    }
  }

  /** The same thread can go on in both, and leaves them alike. */
  lemma StepAlike(cfg: Config, s: State, u: State, thread: Thread, gone: set<FiveTuple>)
    requires Alike(s, u) && Enabled(cfg, s, TurnOf(thread))
    requires thread.TheWorker? ==>
      WorkEnabled(cfg, u, thread.j, gone) && SameVerdict(cfg, s.workers[thread.j], u.workers[thread.j])
    ensures Enabled(cfg, u, TurnWith(thread, gone))
    ensures Alike(Next(cfg, s, TurnOf(thread)), Next(cfg, u, TurnWith(thread, gone)))
  {
    match thread
    case TheBalancer(i) => BalancerAlike(cfg, s, u, i);
    case TheWorker(j) => WorkerAlike(cfg, s, u, j, gone);
    case TheStopper => StopAlike(cfg, s, u);
    case _ =>
  }

  /** The thread can take a turn in the one if it can in the other. */
  lemma AbleAlike(cfg: Config, s: State, u: State, thread: Thread)
    requires Alike(s, u) && Enabled(cfg, s, TurnOf(thread))
    ensures Able(cfg, u, thread)
  {
    if thread.TheWorker? {
      assert SameButTable(s.workers[thread.j], u.workers[thread.j]);
    } else if thread.TheBalancer? {
      BalancerAlike(cfg, s, u, thread.i);
    } else if thread.TheStopper? {
      StopAlike(cfg, s, u);
    }
  }

  lemma DeadlockAlike(cfg: Config, s: State, u: State)
    requires Alike(s, u) && Deadlocked(cfg, s)
    ensures Deadlocked(cfg, u)
  {
    assert forall j :: 0 <= j < |s.workers| ==> SameButTable(s.workers[j], u.workers[j]);
  }

  // ---------------------------------------------------------------- tables that still matter

  /** A worker that will judge no more packets. */
  predicate Retired(w: Worker) {
    !w.running && (w.place == AtHead || w.place == Exited)
  }

  predicate SameTable(w: Worker, x: Worker) {
    w.table == x.table || Retired(w)
  }

  predicate TablesAlike(s: State, u: State) {
    && |u.workers| == |s.workers| && u.log.verdicts == s.log.verdicts
    && forall j :: 0 <= j < |s.workers| ==> SameTable(s.workers[j], u.workers[j])
  }

  lemma WorkerTablesAlike(cfg: Config, s: State, u: State, j: nat, gone: set<FiveTuple>)
    requires Alike(s, u) && TablesAlike(s, u) && WorkEnabled(cfg, s, j, {}) && WorkEnabled(cfg, u, j, gone)
    requires gone == {} || (s.workers[j].place == Waiting && s.workers[j].input.queue == [] && !s.workers[j].running)
    ensures SameVerdict(cfg, s.workers[j], u.workers[j])
    ensures TablesAlike(DoWork(cfg, s, j, {}), DoWork(cfg, u, j, gone))
  {
    assert SameButTable(s.workers[j], u.workers[j]) && SameTable(s.workers[j], u.workers[j]);
    var s1, u1 := DoWork(cfg, s, j, {}), DoWork(cfg, u, j, gone);
    assert SameTable(s1.workers[j], u1.workers[j]);
  }

  lemma OthersKeepWorkers(cfg: Config, s: State, thread: Thread)
    requires !thread.TheWorker? && Enabled(cfg, s, TurnOf(thread))
    ensures var u := Next(cfg, s, TurnOf(thread));
      && |u.workers| == |s.workers| && u.log == s.log
      && forall j :: 0 <= j < |s.workers| ==>
           u.workers[j].table == s.workers[j].table && (Retired(s.workers[j]) ==> Retired(u.workers[j]))
  {
  }

  lemma OtherTablesAlike(cfg: Config, s: State, u: State, thread: Thread)
    requires TablesAlike(s, u) && !thread.TheWorker?
    requires Enabled(cfg, s, TurnOf(thread)) && Enabled(cfg, u, TurnOf(thread))
    ensures TablesAlike(Next(cfg, s, TurnOf(thread)), Next(cfg, u, TurnOf(thread)))
  {
    OthersKeepWorkers(cfg, s, thread);
    OthersKeepWorkers(cfg, u, thread);
    assert forall j :: 0 <= j < |s.workers| ==> SameTable(s.workers[j], u.workers[j]);
  }

  // ---------------------------------------------------------------- which tuples a table holds

  /** The tuples of the capture whose packets a worker gets. */
  function TuplesAt(cfg: Config, j: nat): set<FiveTuple> {
    set job | job in Created(cfg.input) && cfg.workerOf(job.tuple) == j :: job.tuple
  }

  predicate Homed(cfg: Config, s: State) {
    forall j :: 0 <= j < |s.workers| ==> s.workers[j].table.Keys <= TuplesAt(cfg, j)
  }

  lemma JudgeStaysHomed(cfg: Config, s: State, j: nat, gone: set<FiveTuple>, job: PacketJob)
    requires Homed(cfg, s) && WorkEnabled(cfg, s, j, gone) && s.workers[j].place == Holding(job)
    requires job in Created(cfg.input) && cfg.workerOf(job.tuple) == j
    ensures Homed(cfg, DoWork(cfg, s, j, gone))
  {
    assert s.workers[j].table.Keys <= TuplesAt(cfg, j) && job.tuple in TuplesAt(cfg, j);
    assert Judged(cfg, s.workers[j], job, gone).table.Keys <= s.workers[j].table.Keys + {job.tuple};
  }

  lemma OthersStayHomed(cfg: Config, s: State, turn: Turn)
    requires Homed(cfg, s) && Enabled(cfg, s, turn) && !(turn.Work? && s.workers[turn.j].place.Holding?)
    ensures Homed(cfg, Next(cfg, s, turn))
  {
    var u := Next(cfg, s, turn);
    OtherTurnsShrink(cfg, s, turn);
    forall j | 0 <= j < |u.workers|
      ensures u.workers[j].table.Keys <= TuplesAt(cfg, j)
    {
      assert s.workers[j].table.Keys <= TuplesAt(cfg, j);
    }
  }

  /** A job in a worker's hand is one of those it gets. */
  lemma HeldIsHome(cfg: Config, s: State, j: nat)
    requires cfg.Valid() && Reachable(cfg, s) && j < |s.workers| && s.workers[j].place.Holding?
    ensures var job := s.workers[j].place.job;
      job in Created(cfg.input) && cfg.workerOf(job.tuple) == j && job.tuple in TuplesAt(cfg, j)
  {
    var job := s.workers[j].place.job;
    ReachedIsSound(cfg, s);
    WorkerFacts(cfg, s, j);
    ReachedIsFaithful(cfg, s, job.tuple);
    HeldIsCreated(cfg, s, j, job);
  }

  lemma {:induction false} AlwaysHomed(cfg: Config, turns: seq<Turn>, states: seq<State>, n: nat)
    requires cfg.Valid() && IsRun(cfg, turns, states) && n < |states|
    ensures Homed(cfg, states[n])
  {
    if n == 0 {
    } else {
      var m := n - 1;
      AlwaysHomed(cfg, turns, states, m);
      RunLeads(cfg, turns, states, m, m);
      assert IsStep(cfg, turns, states, m);
      StepStaysHomed(cfg, states[m], turns[m]);
    }
  }

  lemma StepStaysHomed(cfg: Config, s: State, turn: Turn)
    requires cfg.Valid() && Reachable(cfg, s) && Homed(cfg, s) && Enabled(cfg, s, turn)
    ensures Homed(cfg, Next(cfg, s, turn))
  {
    if turn.Work? && s.workers[turn.j].place.Holding? {
      HeldIsHome(cfg, s, turn.j);
      JudgeStaysHomed(cfg, s, turn.j, turn.gone, s.workers[turn.j].place.job);
    } else {
      OthersStayHomed(cfg, s, turn);
    }
  }

  /** On every run a table holds only tuples of the capture that dispatch sends to it. */
  lemma ReachedIsHomed(cfg: Config, s: State)
    requires cfg.Valid() && Reachable(cfg, s)
    ensures Homed(cfg, s)
  {
    var turns, states :| EndsIn(cfg, turns, states, s);
    AlwaysHomed(cfg, turns, states, |turns|);
  }
}
