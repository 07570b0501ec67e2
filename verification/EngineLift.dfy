/** Runs of the pipeline whose tables lose nothing can be followed by the engine with its
    real tables, if these have room for the capture or if nothing of it is dropped. */
module EngineLift {
  import opened Types
  import opened Pipeline
  import opened PipelineProgress
  import opened PipelineRuns
  import opened PipelineStop
  import opened PipelineAlike
  import opened EngineTables
  import opened Engine
  import PipelineHang
  import ConnectionTable
  import FastPath
  import Rules

  // ---------------------------------------------------------------- real runs from state to state

  /** A real run ends in the state. */
  ghost predicate RealReachable(cfg: Config, rules: Rules.RuleSet, max: nat, r: Real) {
    exists moves, reals :: RealEndsIn(cfg, rules, max, moves, reals, r)
  }

  ghost predicate RealEndsIn(cfg: Config, rules: Rules.RuleSet, max: nat, moves: seq<Move>, reals: seq<Real>, r: Real) {
    RealRun(cfg, rules, max, moves, reals) && reals[|moves|] == r
  }

  ghost predicate RealPath(cfg: Config, rules: Rules.RuleSet, max: nat, r: Real, moves: seq<Move>, q: Real)
    decreases |moves|
  {
    if moves == [] then r == q
    else
      && Shaped(r) && LegalMove(cfg, max, r, moves[0])
      && RealPath(cfg, rules, max, RealNext(cfg, rules, r, moves[0]), moves[1..], q)
  }

  /** The engine with its real tables can get from one state to the other. */
  ghost predicate RealLeads(cfg: Config, rules: Rules.RuleSet, max: nat, r: Real, q: Real) {
    exists moves :: RealPath(cfg, rules, max, r, moves, q)
  }

  lemma RealLeadsNowhere(cfg: Config, rules: Rules.RuleSet, max: nat, r: Real)
    ensures RealLeads(cfg, rules, max, r, r)
  {
    assert RealPath(cfg, rules, max, r, [], r);
  }

  lemma RealLeadsFirst(cfg: Config, rules: Rules.RuleSet, max: nat, r: Real, move: Move, q: Real)
    requires Shaped(r) && LegalMove(cfg, max, r, move)
    requires RealLeads(cfg, rules, max, RealNext(cfg, rules, r, move), q)
    ensures RealLeads(cfg, rules, max, r, q)
  {
    var moves :| RealPath(cfg, rules, max, RealNext(cfg, rules, r, move), moves, q);
    var all := [move] + moves;
    assert all[0] == move && all[1..] == moves;
    assert RealPath(cfg, rules, max, r, all, q);
  }

  lemma StartIsReachable(cfg: Config, rules: Rules.RuleSet, max: nat)
    requires cfg.Valid() && cfg.process == Verdicts(rules)
    ensures RealReachable(cfg, rules, max, RealStart(cfg))
  {
    assert RealEndsIn(cfg, rules, max, [], [RealStart(cfg)], RealStart(cfg));
  }

  lemma RealNextIsReachable(cfg: Config, rules: Rules.RuleSet, max: nat, r: Real, move: Move)
    requires RealReachable(cfg, rules, max, r) && Shaped(r) && LegalMove(cfg, max, r, move)
    ensures RealReachable(cfg, rules, max, RealNext(cfg, rules, r, move))
  {
    var moves, reals :| RealEndsIn(cfg, rules, max, moves, reals, r);
    var u := RealNext(cfg, rules, r, move);
    var moves1, reals1 := moves + [move], reals + [u];
    forall i | 0 <= i < |moves1|
      ensures IsRealStep(cfg, rules, max, moves1, reals1, i)
    {
      if i < |moves| {
        assert IsRealStep(cfg, rules, max, moves, reals, i);
      }
    }
    assert RealEndsIn(cfg, rules, max, moves1, reals1, u);
  }

  lemma {:induction false} RealPathReaches(cfg: Config, rules: Rules.RuleSet, max: nat, r: Real, moves: seq<Move>,
          q: Real)
    requires RealReachable(cfg, rules, max, r) && RealPath(cfg, rules, max, r, moves, q)
    ensures RealReachable(cfg, rules, max, q)
    decreases |moves|
  {
    if moves == [] {
    } else {
      RealNextIsReachable(cfg, rules, max, r, moves[0]);
      RealPathReaches(cfg, rules, max, RealNext(cfg, rules, r, moves[0]), moves[1..], q);
    }
  }

  lemma RealLeadsReaches(cfg: Config, rules: Rules.RuleSet, max: nat, r: Real, q: Real)
    requires RealReachable(cfg, rules, max, r) && RealLeads(cfg, rules, max, r, q)
    ensures RealReachable(cfg, rules, max, q)
  {
    var moves :| RealPath(cfg, rules, max, r, moves, q);
    RealPathReaches(cfg, rules, max, r, moves, q);
  }

  // ---------------------------------------------------------------- what the pipeline sees of them

  /** A state of the engine is one of the pipeline. */
  lemma RealIsReachable(cfg: Config, rules: Rules.RuleSet, max: nat, r: Real)
    requires RealReachable(cfg, rules, max, r)
    ensures cfg.Valid() && cfg.process == Verdicts(rules) && Linked(r) && Reachable(cfg, r.state)
  {
    var moves, reals :| RealEndsIn(cfg, rules, max, moves, reals, r);
    RealRunIsRun(cfg, rules, max, moves, reals);
    AlwaysLinked(cfg, rules, max, moves, reals, |moves|);
    assert EndsIn(cfg, TurnsOf(reals, moves), StatesOf(reals), r.state);
  }

  lemma {:induction false} RealPathLeads(cfg: Config, rules: Rules.RuleSet, max: nat, r: Real, moves: seq<Move>,
          q: Real)
    requires cfg.process == Verdicts(rules) && Linked(r) && RealPath(cfg, rules, max, r, moves, q)
    ensures Leads(cfg, r.state, q.state)
    decreases |moves|
  {
    if moves == [] {
      LeadsNowhere(cfg, r.state);
    } else {
      var u := RealNext(cfg, rules, r, moves[0]);
      RealStepIsStep(cfg, rules, max, r, moves[0]);
      RealPathLeads(cfg, rules, max, u, moves[1..], q);
      LeadsFirst(cfg, r.state, TurnBy(r, moves[0]), q.state);
    }
  }

  /** And what it can do from there the pipeline can. */
  lemma RealLeadsLeads(cfg: Config, rules: Rules.RuleSet, max: nat, r: Real, q: Real)
    requires RealReachable(cfg, rules, max, r) && RealLeads(cfg, rules, max, r, q)
    ensures Leads(cfg, r.state, q.state)
  {
    RealIsReachable(cfg, rules, max, r);
    var moves :| RealPath(cfg, rules, max, r, moves, q);
    RealPathLeads(cfg, rules, max, r, moves, q);
  }

  // ---------------------------------------------------------------- a legal move for every thread

  /** A table that is not empty has an oldest entry. */
  lemma {:induction false} OldestExists(conns: map<FiveTuple, ConnectionTable.Connection>) returns (t: FiveTuple)
    requires conns != map[]
    ensures ConnectionTable.IsOldest(conns, t)
    decreases |conns|
  {
    t :| t in conns;
    var rest := conns - {t};
    if rest != map[] {
      ConnectionTable.RemoveSize(conns, t);
      var u := OldestExists(rest);
      assert forall k :: k in conns ==> k == t || k in rest;
      if rest[u].lastSeen < conns[t].lastSeen {
        t := u;
      }
    }
  }

  lemma VictimExists(conns: map<FiveTuple, ConnectionTable.Connection>, max: nat, t: FiveTuple)
    returns (victim: Option<FiveTuple>)
    ensures ConnectionTable.LegalVictim(conns, max, t, victim)
  {
    victim := None;
    if t !in conns && |conns| >= max && conns != map[] {
      var oldest := OldestExists(conns);
      victim := Some(oldest);
    }
  }

  /** Whatever its tables hold, the engine has a legal move for every thread that can go on. */
  lemma MoveExists(cfg: Config, max: nat, r: Real, thread: Thread) returns (move: Move)
    requires Shaped(r) && Able(cfg, r.state, thread)
    ensures move.thread == thread && LegalMove(cfg, max, r, move)
  {
    move := Move(thread, FastPath.Moment(0, 0, None));
    if thread.TheWorker? {
      var j, now := thread.j, r.clocks[thread.j];
      move := Move(thread, FastPath.Moment(now, now, None));
      if r.state.workers[j].place.Holding? {
        var victim := VictimExists(r.tables[j].connections, max, r.state.workers[j].place.job.tuple);
        move := Move(thread, FastPath.Moment(now, now, victim));
      }
    }
  }

  /** What the table loses by the move. */
  function Losses(r: Real, move: Move): set<FiveTuple>
    requires Shaped(r)
  {
    match EventOf(r.state, move)
    case Some(e) => Gone(r.tables[move.thread.j], e)
    case None => {}
  }

  /** To the pipeline the move is a turn of its thread. */
  lemma MoveIsTurn(cfg: Config, rules: Rules.RuleSet, max: nat, r: Real, move: Move)
    requires cfg.process == Verdicts(rules) && Linked(r) && LegalMove(cfg, max, r, move)
    ensures Becomes(cfg, r.state, TurnWith(move.thread, Losses(r, move)), RealNext(cfg, rules, r, move).state)
    ensures Linked(RealNext(cfg, rules, r, move))
  {
    RealStepIsStep(cfg, rules, max, r, move);
  }

  // ---------------------------------------------------------------- captures of which nothing is dropped

  lemma AdmittedVerdict(cfg: Config, ok: PipelineHang.Allows, s: State, j: nat)
    requires cfg.Valid() && PipelineHang.Admits(cfg, ok) && Reachable(cfg, s)
    requires j < |s.workers| && s.workers[j].place.Holding?
    ensures VerdictOn(cfg, s.workers[j], s.workers[j].place.job).action == Forward
  {
    HeldIsHome(cfg, s, j);
    PipelineHang.ReachedIsUnharmed(cfg, ok, s);
    var job := s.workers[j].place.job;
    assert PipelineHang.AllOk(ok, s.workers[j].table);
    assert PipelineHang.Admitted(cfg.process, ok, Lookup(s.workers[j].table, job.tuple), job);
  }

  /** However the tables differ, the verdicts do not. */
  lemma AdmittedAlike(cfg: Config, ok: PipelineHang.Allows, s: State, u: State, thread: Thread, gone: set<FiveTuple>)
    requires cfg.Valid() && PipelineHang.Admits(cfg, ok) && Reachable(cfg, s) && Reachable(cfg, u) && Alike(s, u)
    requires Enabled(cfg, s, TurnOf(thread)) && Enabled(cfg, u, TurnWith(thread, gone))
    ensures Alike(Next(cfg, s, TurnOf(thread)), Next(cfg, u, TurnWith(thread, gone)))
  {
    if thread.TheWorker? && s.workers[thread.j].place.Holding? {
      assert SameButTable(s.workers[thread.j], u.workers[thread.j]);
      AdmittedVerdict(cfg, ok, s, thread.j);
      AdmittedVerdict(cfg, ok, u, thread.j);
    }
    StepAlike(cfg, s, u, thread, gone);
  }

  lemma AdmittedFollows(cfg: Config, rules: Rules.RuleSet, max: nat, ok: PipelineHang.Allows, s: State, r: Real,
          thread: Thread)
    returns (move: Move)
    requires RealReachable(cfg, rules, max, r) && Reachable(cfg, s) && PipelineHang.Admits(cfg, ok)
    requires Alike(s, r.state) && Enabled(cfg, s, TurnOf(thread))
    ensures Shaped(r) && LegalMove(cfg, max, r, move)
    ensures Alike(Next(cfg, s, TurnOf(thread)), RealNext(cfg, rules, r, move).state)
  {
    RealIsReachable(cfg, rules, max, r);
    AbleAlike(cfg, s, r.state, thread);
    move := MoveExists(cfg, max, r, thread);
    MoveIsTurn(cfg, rules, max, r, move);
    AdmittedAlike(cfg, ok, s, r.state, thread, Losses(r, move));
  }

  /** If nothing of the capture is dropped the engine can follow, whatever its tables have to
      evict or to clean up. */
  lemma {:induction false} AdmittedPathFollows(cfg: Config, rules: Rules.RuleSet, max: nat, ok: PipelineHang.Allows,
          s: State, threads: seq<Thread>, v: State, r: Real)
    returns (q: Real)
    requires RealReachable(cfg, rules, max, r) && Reachable(cfg, s) && PipelineHang.Admits(cfg, ok)
    requires Alike(s, r.state) && QuietPath(cfg, s, threads, v)
    ensures RealLeads(cfg, rules, max, r, q) && Alike(v, q.state)
    decreases |threads|
  {
    if threads == [] {
      q := r;
      RealLeadsNowhere(cfg, rules, max, r);
    } else {
      var move := AdmittedFollows(cfg, rules, max, ok, s, r, threads[0]);
      var u := RealNext(cfg, rules, r, move);
      RealNextIsReachable(cfg, rules, max, r, move);
      NextIsReachable(cfg, s, TurnOf(threads[0]));
      q := AdmittedPathFollows(cfg, rules, max, ok, Next(cfg, s, TurnOf(threads[0])), threads[1..], v, u);
      RealLeadsFirst(cfg, rules, max, r, move, q);
    }
  }

  lemma AdmittedLift(cfg: Config, rules: Rules.RuleSet, max: nat, ok: PipelineHang.Allows, r: Real, v: State)
    returns (q: Real)
    requires RealReachable(cfg, rules, max, r) && PipelineHang.Admits(cfg, ok) && Quietly(cfg, r.state, v)
    ensures RealLeads(cfg, rules, max, r, q) && Alike(v, q.state)
  {
    RealIsReachable(cfg, rules, max, r);
    var threads :| QuietPath(cfg, r.state, threads, v);
    q := AdmittedPathFollows(cfg, rules, max, ok, r.state, threads, v, r);
  }

  // ---------------------------------------------------------------- tables with room

  /** Each table has room for all tuples of the capture that its worker gets. */
  predicate HasRoom(cfg: Config, max: nat) {
    forall j :: 0 <= j < cfg.workers ==> |TuplesAt(cfg, j)| <= max
  }

  lemma FewerEntries(T: ConnectionTable.Table, tuples: set<FiveTuple>, t: FiveTuple)
    requires Flows(T).Keys <= tuples && t in tuples && t !in T.connections
    ensures |T.connections| < |tuples|
  {
    assert Flows(T).Keys == T.connections.Keys;
    SubsetSize(T.connections.Keys + {t}, tuples);
  }

  /** Then a packet evicts nothing. */
  lemma RoomLosesNothing(cfg: Config, rules: Rules.RuleSet, max: nat, r: Real, move: Move)
    requires RealReachable(cfg, rules, max, r) && HasRoom(cfg, max) && Shaped(r) && LegalMove(cfg, max, r, move)
    requires move.thread.TheWorker? && r.state.workers[move.thread.j].place.Holding?
    ensures Losses(r, move) == {}
  {
    RealIsReachable(cfg, rules, max, r);
    ReachedIsHomed(cfg, r.state);
    ReachedIsSound(cfg, r.state);
    var j := move.thread.j;
    HeldIsHome(cfg, r.state, j);
    var job := r.state.workers[j].place.job;
    assert r.state.workers[j].table.Keys <= TuplesAt(cfg, j);
    if job.tuple !in r.tables[j].connections {
      FewerEntries(r.tables[j], TuplesAt(cfg, j), job.tuple);
      assert |TuplesAt(cfg, j)| <= max;
    }
  }

  lemma RoomyTablesAlike(cfg: Config, s: State, u: State, thread: Thread, gone: set<FiveTuple>)
    requires Alike(s, u) && TablesAlike(s, u) && !IdlesOn(s, thread)
    requires Enabled(cfg, s, TurnOf(thread)) && Enabled(cfg, u, TurnWith(thread, gone))
    requires thread.TheWorker? && gone != {} ==>
      u.workers[thread.j].place == Waiting && u.workers[thread.j].input.queue == []
    ensures Alike(Next(cfg, s, TurnOf(thread)), Next(cfg, u, TurnWith(thread, gone)))
    ensures TablesAlike(Next(cfg, s, TurnOf(thread)), Next(cfg, u, TurnWith(thread, gone)))
  {
    if thread.TheWorker? {
      assert SameButTable(s.workers[thread.j], u.workers[thread.j]);
      WorkerTablesAlike(cfg, s, u, thread.j, gone);
    } else {
      OtherTablesAlike(cfg, s, u, thread);
    }
    StepAlike(cfg, s, u, thread, gone);
  }

  lemma RoomyFollows(cfg: Config, rules: Rules.RuleSet, max: nat, s: State, r: Real, thread: Thread)
    returns (move: Move)
    requires RealReachable(cfg, rules, max, r) && HasRoom(cfg, max) && Alike(s, r.state) && TablesAlike(s, r.state)
    requires Enabled(cfg, s, TurnOf(thread)) && !IdlesOn(s, thread)
    ensures Shaped(r) && LegalMove(cfg, max, r, move)
    ensures Alike(Next(cfg, s, TurnOf(thread)), RealNext(cfg, rules, r, move).state)
    ensures TablesAlike(Next(cfg, s, TurnOf(thread)), RealNext(cfg, rules, r, move).state)
  {
    RealIsReachable(cfg, rules, max, r);
    AbleAlike(cfg, s, r.state, thread);
    move := MoveExists(cfg, max, r, thread);
    MoveIsTurn(cfg, rules, max, r, move);
    if thread.TheWorker? && r.state.workers[thread.j].place.Holding? {
      RoomLosesNothing(cfg, rules, max, r, move);
    }
    RoomyTablesAlike(cfg, s, r.state, thread, Losses(r, move));
  }

  /** If the tables have room the engine can follow, and agrees with the pipeline on all
      tables that still matter. */
  lemma {:induction false} RoomyPathFollows(cfg: Config, rules: Rules.RuleSet, max: nat, s: State,
          threads: seq<Thread>, v: State, r: Real)
    returns (q: Real)
    requires RealReachable(cfg, rules, max, r) && HasRoom(cfg, max)
    requires Alike(s, r.state) && TablesAlike(s, r.state) && QuietPath(cfg, s, threads, v)
    ensures RealLeads(cfg, rules, max, r, q) && Alike(v, q.state) && TablesAlike(v, q.state)
    decreases |threads|
  {
    if threads == [] {
      q := r;
      RealLeadsNowhere(cfg, rules, max, r);
    } else {
      var move := RoomyFollows(cfg, rules, max, s, r, threads[0]);
      var u := RealNext(cfg, rules, r, move);
      RealNextIsReachable(cfg, rules, max, r, move);
      q := RoomyPathFollows(cfg, rules, max, Next(cfg, s, TurnOf(threads[0])), threads[1..], v, u);
      RealLeadsFirst(cfg, rules, max, r, move, q);
    }
  }

  lemma RoomyLift(cfg: Config, rules: Rules.RuleSet, max: nat, r: Real, v: State) returns (q: Real)
    requires RealReachable(cfg, rules, max, r) && HasRoom(cfg, max) && Quietly(cfg, r.state, v)
    ensures RealLeads(cfg, rules, max, r, q) && Alike(v, q.state) && v.log.verdicts == q.state.log.verdicts
  {
    var threads :| QuietPath(cfg, r.state, threads, v);
    q := RoomyPathFollows(cfg, rules, max, r.state, threads, v, r);
  }
}
