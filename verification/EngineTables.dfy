/** The engine with the real tables of its workers: bounded, evicting and cleaned up. Its
    runs are runs of the pipeline, and under conditions that can be read off the capture and
    the clock no table ever loses a flow. */
module EngineTables {
  import opened Types
  import opened Pipeline
  import opened Engine
  import opened PipelineProgress
  import PipelineStop
  import PipelineHang
  import PipelineOrder
  import ConnectionTable
  import FastPath
  import FlowVerdict
  import Rules
  import Pcap

  type Tables = seq<ConnectionTable.Table>

  /** The engine's threads and queues, the tables, and the last reading that each worker took
      of the clock. What the pipeline holds for a worker's table is only a view of the real
      one. */
  datatype Real = Real(state: State, tables: Tables, clocks: seq<nat>)

  predicate Shaped(r: Real) {
    |r.tables| == |r.state.workers| == |r.clocks|
  }

  /** A turn of a thread, with the clock readings and the victim that a worker's turn needs.
      A cleanup reads the clock once. */
  datatype Move = Move(thread: Thread, m: FastPath.Moment)

  /** The event that a worker's turn is for its table, if any. */
  function EventOf(s: State, move: Move): Option<FastPath.Event> {
    match move.thread
    case TheWorker(j) =>
      if j >= |s.workers| then None
      else if s.workers[j].place.Holding? then Some(FastPath.Packet(s.workers[j].place.job, move.m))
      else if s.workers[j].place.Waiting? && s.workers[j].input.queue == [] then Some(FastPath.Idle(move.m.created))
      else None
    case _ => None
  }

  /** The clock is a steady one: no reading of a worker is before its last. */
  predicate Steady(clock: nat, e: FastPath.Event) {
    match e
    case Packet(_, m) => clock <= m.created <= m.updated
    case Idle(now) => clock <= now
  }

  function ClockAfter(e: FastPath.Event): nat {
    match e
    case Packet(_, m) => m.updated
    case Idle(now) => now
  }

  predicate LegalMove(cfg: Config, max: nat, r: Real, move: Move)
    requires Shaped(r)
  {
    Able(cfg, r.state, move.thread) &&
    match EventOf(r.state, move)
    case Some(e) =>
      FastPath.LegalEvent(max, r.tables[move.thread.j], e) && Steady(r.clocks[move.thread.j], e)
    case None => true
  }

  /** The table of a worker after an event, and the verdict on a packet. */
  function TableAfter(rules: Rules.RuleSet, T: ConnectionTable.Table, e: FastPath.Event): ConnectionTable.Table {
    match e
    case Packet(job, m) =>
      FastPath.Process(FlowVerdict.PolicyOf(rules, job.tuple), T, job.tuple, |job.data|, FlowVerdict.See(job), m).0
    case Idle(now) => ConnectionTable.Apply(T, ConnectionTable.Cleanup(FastPath.IDLE_TIMEOUT, now))
  }

  function ActionOn(rules: Rules.RuleSet, T: ConnectionTable.Table, job: PacketJob, m: FastPath.Moment): PacketAction {
    FastPath.Process(FlowVerdict.PolicyOf(rules, job.tuple), T, job.tuple, |job.data|, FlowVerdict.See(job), m).1
  }

  /** A worker after a verdict, with the new view of its table. */
  function Decided(w: Worker, table: map<FiveTuple, Flow>, job: PacketJob, action: PacketAction): Worker {
    if action == Drop then w.(place := AtHead, table := table, dropped := w.dropped + 1)
    else w.(place := Pushing(job), table := table)
  }

  /** A worker's turn that ends in a verdict, or in a cleanup, on its real table. */
  function Decide(rules: Rules.RuleSet, s: State, T: ConnectionTable.Table, j: nat, e: FastPath.Event): State
    requires j < |s.workers|
  {
    var w, table := s.workers[j], Flows(TableAfter(rules, T, e));
    match e
    case Packet(job, m) =>
      var action := ActionOn(rules, T, job, m);
      s.(workers := s.workers[j := Decided(w, table, job, action)],
         log := Recorded(s.log, Verdict(job, action, job.tuple !in T.connections), Gone(T, e)))
    case Idle(_) =>
      s.(workers := s.workers[j := w.(place := AtHead, table := table)], log := s.log.(lost := s.log.lost + Gone(T, e)))
  }

  function RealNext(cfg: Config, rules: Rules.RuleSet, r: Real, move: Move): Real
    requires Able(cfg, r.state, move.thread) && Shaped(r)
  {
    match EventOf(r.state, move)
    case Some(e) =>
      var j := move.thread.j;
      Real(Decide(rules, r.state, r.tables[j], j, e), r.tables[j := TableAfter(rules, r.tables[j], e)],
           r.clocks[j := ClockAfter(e)])
    case None => r.(state := AsBefore(cfg, r.state, move.thread))
  }

  /** Any other turn is one of the pipeline. */
  function AsBefore(cfg: Config, s: State, thread: Thread): State
    requires Able(cfg, s, thread)
  {
    Next(cfg, s, PipelineStop.TurnOf(thread))
  }

  /** What the pipeline sees of a move. */
  function TurnBy(r: Real, move: Move): Turn {
    match EventOf(r.state, move)
    case Some(e) => if move.thread.j < |r.tables| then Work(move.thread.j, Gone(r.tables[move.thread.j], e)) else Stop
    case None => PipelineStop.TurnOf(move.thread)
  }

  /** The pipeline's view of the tables is right. */
  ghost predicate Linked(r: Real) {
    Shaped(r) && forall j :: 0 <= j < |r.tables| ==>
        r.state.workers[j].table == Flows(r.tables[j])
  }

  ghost predicate RealStep(cfg: Config, rules: Rules.RuleSet, max: nat, r: Real, move: Move, u: Real) {
    Shaped(r) && LegalMove(cfg, max, r, move) && u == RealNext(cfg, rules, r, move)
  }

  function RealStart(cfg: Config): Real {
    Real(Initial(cfg), seq(cfg.workers, _ => ConnectionTable.EMPTY), seq(cfg.workers, _ => 0))
  }

  /** A run of the engine with its real tables, each bounded by `max`. */
  ghost predicate RealRun(cfg: Config, rules: Rules.RuleSet, max: nat, moves: seq<Move>, reals: seq<Real>) {
    && cfg.Valid() && cfg.process == Verdicts(rules) && |reals| == |moves| + 1 && reals[0] == RealStart(cfg)
    && forall i :: 0 <= i < |moves| ==> IsRealStep(cfg, rules, max, moves, reals, i)
  }

  ghost predicate IsRealStep(cfg: Config, rules: Rules.RuleSet, max: nat, moves: seq<Move>, reals: seq<Real>, i: nat)
    requires i < |moves| < |reals|
  {
    RealStep(cfg, rules, max, reals[i], moves[i], reals[i + 1])
  }

  // ---------------------------------------------------------------- a real run is a run

  lemma DecidedIsJudged(cfg: Config, rules: Rules.RuleSet, max: nat, w: Worker, T: ConnectionTable.Table,
          job: PacketJob,
          m: FastPath.Moment)
    requires cfg.process == Verdicts(rules) && w.table == Flows(T)
    requires ConnectionTable.LegalVictim(T.connections, max, job.tuple, m.victim)
    ensures var e := FastPath.Packet(job, m);
      var action := ActionOn(rules, T, job, m);
      && job.tuple !in Gone(T, e)
      && Judged(cfg, w, job, Gone(T, e)) == Decided(w, Flows(TableAfter(rules, T, e)), job, action)
      && VerdictOn(cfg, w, job) == Verdict(job, action, job.tuple !in T.connections)
  {
    FastPathIsPipeline(rules, T, max, job, m);
    assert job.tuple in Flows(T) <==> job.tuple in T.connections;
  }

  lemma PacketDecides(cfg: Config, rules: Rules.RuleSet, max: nat, r: Real, j: nat, job: PacketJob, m: FastPath.Moment)
    requires cfg.process == Verdicts(rules) && Linked(r) && j < |r.tables| && r.state.workers[j].place == Holding(job)
    requires ConnectionTable.LegalVictim(r.tables[j].connections, max, job.tuple, m.victim)
    ensures var e := FastPath.Packet(job, m);
      Becomes(cfg, r.state, Work(j, Gone(r.tables[j], e)), Decide(rules, r.state, r.tables[j], j, e))
  {
    DecidedIsJudged(cfg, rules, max, r.state.workers[j], r.tables[j], job, m);
  }

  lemma CleanupDecides(cfg: Config, rules: Rules.RuleSet, r: Real, j: nat, now: nat)
    requires Linked(r) && j < |r.tables| && r.state.workers[j].place == Waiting && r.state.workers[j].input.queue == []
    ensures var e := FastPath.Idle(now);
      Becomes(cfg, r.state, Work(j, Gone(r.tables[j], e)), Decide(rules, r.state, r.tables[j], j, e))
  {
    CleanupIsPipeline(r.tables[j], now);
  }

  lemma OthersKeepTables(cfg: Config, r: Real, move: Move)
    requires Able(cfg, r.state, move.thread) && EventOf(r.state, move) == None && Linked(r)
    ensures Linked(r.(state := AsBefore(cfg, r.state, move.thread)))
  {
    var s, u := r.state, AsBefore(cfg, r.state, move.thread);
    assert |u.workers| == |s.workers|;
    assert forall j :: 0 <= j < |s.workers| ==> u.workers[j].table == s.workers[j].table;
  }

  lemma DecidedIsLinked(rules: Rules.RuleSet, r: Real, j: nat, e: FastPath.Event)
    requires Linked(r) && j < |r.tables|
    ensures Linked(Real(Decide(rules, r.state, r.tables[j], j, e), r.tables[j := TableAfter(rules, r.tables[j], e)],
              r.clocks[j := ClockAfter(e)]))
  {
  }

  /** A move on the real tables is a turn of the pipeline, with the losses of the tables. */
  lemma RealStepIsStep(cfg: Config, rules: Rules.RuleSet, max: nat, r: Real, move: Move)
    requires cfg.process == Verdicts(rules) && Linked(r) && LegalMove(cfg, max, r, move)
    ensures Becomes(cfg, r.state, TurnBy(r, move), RealNext(cfg, rules, r, move).state)
    ensures Linked(RealNext(cfg, rules, r, move))
  {
    match EventOf(r.state, move)
    case Some(e) =>
      var j := move.thread.j;
      DecidedIsLinked(rules, r, j, e);
      if e.Packet? {
        PacketDecides(cfg, rules, max, r, j, e.job, e.m);
      } else {
        CleanupDecides(cfg, rules, r, j, e.now);
      }
    case None => OthersKeepTables(cfg, r, move);
  }

  function TurnsOf(reals: seq<Real>, moves: seq<Move>): (turns: seq<Turn>)
    requires |moves| < |reals|
    ensures |turns| == |moves|
    ensures forall i :: 0 <= i < |moves| ==> turns[i] == TurnBy(reals[i], moves[i])
  {
    seq(|moves|, i requires 0 <= i < |moves| < |reals| => TurnBy(reals[i], moves[i]))
  }

  function StatesOf(reals: seq<Real>): (states: seq<State>)
    ensures |states| == |reals|
    ensures forall i :: 0 <= i < |reals| ==> states[i] == reals[i].state
  {
    seq(|reals|, i requires 0 <= i < |reals| => reals[i].state)
  }

  lemma {:induction false} AlwaysLinked(cfg: Config, rules: Rules.RuleSet, max: nat, moves: seq<Move>,
          reals: seq<Real>, n: nat)
    requires RealRun(cfg, rules, max, moves, reals) && n < |reals|
    ensures Linked(reals[n])
  {
    if n == 0 {
    } else {
      AlwaysLinked(cfg, rules, max, moves, reals, n - 1);
      assert IsRealStep(cfg, rules, max, moves, reals, n - 1);
      RealStepIsStep(cfg, rules, max, reals[n - 1], moves[n - 1]);
    }
  }

  /** Every run of the engine with its real tables is a run of the pipeline whose workers
      lose exactly what the tables evict and clean up. */
  lemma RealRunIsRun(cfg: Config, rules: Rules.RuleSet, max: nat, moves: seq<Move>, reals: seq<Real>)
    requires RealRun(cfg, rules, max, moves, reals)
    ensures IsRun(cfg, TurnsOf(reals, moves), StatesOf(reals))
  {
    var turns, states := TurnsOf(reals, moves), StatesOf(reals);
    forall i | 0 <= i < |turns|
      ensures IsStep(cfg, turns, states, i)
    {
      AlwaysLinked(cfg, rules, max, moves, reals, i);
      assert IsRealStep(cfg, rules, max, moves, reals, i);
      RealStepIsStep(cfg, rules, max, reals[i], moves[i]);
    }
  }

  // ---------------------------------------------------------------- the tables' own histories

  /** The history of a table after one more move. */
  function Recall(es: seq<FastPath.Event>, e: Option<FastPath.Event>, own: bool): seq<FastPath.Event> {
    if e.Some? && own then es + [e.value] else es
  }

  /** What has happened to a worker's table. */
  function History(reals: seq<Real>, moves: seq<Move>, j: nat, n: nat): seq<FastPath.Event>
    requires n <= |moves| < |reals|
  {
    if n == 0 then []
    else
      var e := EventOf(reals[n - 1].state, moves[n - 1]);
      Recall(History(reals, moves, j, n - 1), e, e.Some? && moves[n - 1].thread.j == j)
  }

  predicate HasHistory(rules: Rules.RuleSet, max: nat, T: ConnectionTable.Table, es: seq<FastPath.Event>) {
    FastPath.LegalWork(FastPath.PoliciesOf(rules), max, es) && T == FastPath.Work(FastPath.PoliciesOf(rules), es).table
  }

  lemma HistoryGoesOn(rules: Rules.RuleSet, max: nat, T: ConnectionTable.Table, es: seq<FastPath.Event>,
          e: FastPath.Event)
    requires HasHistory(rules, max, T, es) && FastPath.LegalEvent(max, T, e)
    ensures HasHistory(rules, max, TableAfter(rules, T, e), es + [e])
  {
    var all, policies := es + [e], FastPath.PoliciesOf(rules);
    assert all[..|es|] == es;
    forall i | 0 <= i < |all|
      ensures FastPath.LegalEvent(max, FastPath.Work(policies, all[..i]).table, all[i])
    {
      if i < |es| {
        assert all[..i] == es[..i] && all[i] == es[i];
        assert FastPath.LegalEvent(max, FastPath.Work(policies, es[..i]).table, es[i]);
      }
    }
  }

  lemma StepHasHistory(cfg: Config, rules: Rules.RuleSet, max: nat, r: Real, move: Move, j: nat,
          es: seq<FastPath.Event>)
    requires Shaped(r) && LegalMove(cfg, max, r, move)
    requires j < |r.tables| && HasHistory(rules, max, r.tables[j], es)
    ensures var u, e := RealNext(cfg, rules, r, move), EventOf(r.state, move);
      j < |u.tables| && HasHistory(rules, max, u.tables[j], Recall(es, e, e.Some? && move.thread.j == j))
  {
    var e := EventOf(r.state, move);
    if e.Some? && move.thread.j == j {
      HistoryGoesOn(rules, max, r.tables[j], es, e.value);
    }
  }

  ghost predicate TableRecorded(rules: Rules.RuleSet, max: nat, moves: seq<Move>, reals: seq<Real>, j: nat, n: nat)
    requires n <= |moves| < |reals|
  {
    j < |reals[n].tables| && HasHistory(rules, max, reals[n].tables[j], History(reals, moves, j, n))
  }

  lemma StartIsRecorded(cfg: Config, rules: Rules.RuleSet, max: nat, moves: seq<Move>, reals: seq<Real>, j: nat)
    requires RealRun(cfg, rules, max, moves, reals) && j < cfg.workers
    ensures TableRecorded(rules, max, moves, reals, j, 0)
  {
    assert reals[0].tables[j] == ConnectionTable.EMPTY;
  }

  lemma NextIsRecorded(cfg: Config, rules: Rules.RuleSet, max: nat, moves: seq<Move>, reals: seq<Real>, j: nat, n: nat)
    requires RealRun(cfg, rules, max, moves, reals)
    requires 0 < n < |reals| && TableRecorded(rules, max, moves, reals, j, n - 1)
    ensures TableRecorded(rules, max, moves, reals, j, n)
  {
    var m := n - 1;
    assert IsRealStep(cfg, rules, max, moves, reals, m);
    StepHasHistory(cfg, rules, max, reals[m], moves[m], j, History(reals, moves, j, m));
  }

  /** Every real table is the table of a worker of the fast path with a history of its own,
      so that all laws of those hold for it. */
  lemma {:induction false} TablesHaveHistories(cfg: Config, rules: Rules.RuleSet, max: nat, moves: seq<Move>,
          reals: seq<Real>,
          j: nat, n: nat)
    requires RealRun(cfg, rules, max, moves, reals) && n < |reals| && j < cfg.workers
    ensures TableRecorded(rules, max, moves, reals, j, n)
  {
    if n == 0 {
      StartIsRecorded(cfg, rules, max, moves, reals, j);
    } else {
      TablesHaveHistories(cfg, rules, max, moves, reals, j, n - 1);
      NextIsRecorded(cfg, rules, max, moves, reals, j, n);
    }
  }

  // ---------------------------------------------------------------- when nothing is lost

  function TuplesOf(jobs: seq<PacketJob>): set<FiveTuple> {
    set job | job in jobs :: job.tuple
  }

  /** No packet resets or ends its connection. */
  predicate NoneEnds(jobs: seq<PacketJob>) {
    forall job :: job in jobs ==> !HasFlag(job.tcpFlags, RST) && !HasFlag(job.tcpFlags, FIN)
  }

  /** All clock readings lie within the time that an entry may be idle. */
  predicate WithinTimeout(moves: seq<Move>, start: nat) {
    forall i :: 0 <= i < |moves| ==>
      start <= moves[i].m.created <= moves[i].m.updated < start + 301_000_000_000
  }

  /** An entry that a cleanup will not touch. */
  predicate Lasting(c: ConnectionTable.Connection, start: nat) {
    c.flow.state != Closed && !c.flow.finSeen && c.lastSeen >= start
  }

  predicate Roomy(T: ConnectionTable.Table, tuples: set<FiveTuple>, start: nat) {
    forall t :: t in T.connections ==> t in tuples && Lasting(T.connections[t], start)
  }

  lemma FewerThan(T: ConnectionTable.Table, tuples: set<FiveTuple>, start: nat, t: FiveTuple)
    requires Roomy(T, tuples, start) && t in tuples && t !in T.connections
    ensures |T.connections| < |tuples|
  {
    SubsetSize(T.connections.Keys + {t}, tuples);
  }

  lemma SubsetSize(a: set<FiveTuple>, b: set<FiveTuple>)
    requires a <= b
    ensures |a| <= |b|
  {
    assert b == a + (b - a);
  }

  lemma StepLasts(policy: FlowVerdict.Policy, f: Flow, p: FlowVerdict.Seen)
    requires f.state != Closed && !f.finSeen && !HasFlag(p.flags, RST) && !HasFlag(p.flags, FIN)
    ensures var g := FlowVerdict.Step(policy, f, p).0; g.state != Closed && !g.finSeen
  {
    TcpLasts(f, p.flags);
  }

  lemma TcpLasts(f: Flow, flags: byte)
    requires f.state != Closed && !f.finSeen && !HasFlag(flags, RST) && !HasFlag(flags, FIN)
    ensures FlowVerdict.TcpStep(f, flags).state != Closed && !FlowVerdict.TcpStep(f, flags).finSeen
  {
  }

  lemma OwnEntryLasts(policy: FlowVerdict.Policy, T: ConnectionTable.Table, job: PacketJob, m: FastPath.Moment,
          start: nat)
    requires job.tuple in T.connections ==> Lasting(T.connections[job.tuple], start)
    requires !HasFlag(job.tcpFlags, RST) && !HasFlag(job.tcpFlags, FIN) && start <= m.updated
    ensures var U := FastPath.Process(policy, T, job.tuple, |job.data|, FlowVerdict.See(job), m).0;
      job.tuple in U.connections && Lasting(U.connections[job.tuple], start)
  {
    FastPath.ProcessIsStep(policy, T, job.tuple, |job.data|, FlowVerdict.See(job), m);
    FastPath.ProcessCounts(policy, T, job.tuple, |job.data|, FlowVerdict.See(job), m);
    StepLasts(policy, FastPath.FlowOf(T, job.tuple), FlowVerdict.See(job));
  }

  lemma PacketStaysRoomy(policy: FlowVerdict.Policy, T: ConnectionTable.Table, job: PacketJob, m: FastPath.Moment,
          tuples: set<FiveTuple>, start: nat)
    requires Roomy(T, tuples, start) && job.tuple in tuples
    requires !HasFlag(job.tcpFlags, RST) && !HasFlag(job.tcpFlags, FIN) && start <= m.updated
    ensures Roomy(FastPath.Process(policy, T, job.tuple, |job.data|, FlowVerdict.See(job), m).0, tuples, start)
  {
    var U := FastPath.Process(policy, T, job.tuple, |job.data|, FlowVerdict.See(job), m).0;
    OwnEntryLasts(policy, T, job, m, start);
    forall t | t in U.connections && t != job.tuple
      ensures t in tuples && Lasting(U.connections[t], start)
    {
      FastPath.ProcessIsolates(policy, T, job.tuple, |job.data|, FlowVerdict.See(job), m, t);
    }
  }

  /** A table with room for all tuples whose entries last loses nothing. */
  lemma RoomyLosesNothing(T: ConnectionTable.Table, tuples: set<FiveTuple>, start: nat, max: nat, e: FastPath.Event)
    requires Roomy(T, tuples, start) && |tuples| <= max && FastPath.LegalEvent(max, T, e)
    requires match e
      case Packet(job, _) => job.tuple in tuples
      case Idle(now) => now < start + 301_000_000_000
    ensures Gone(T, e) == {}
  {
    match e
    case Packet(job, m) => if job.tuple !in T.connections { FewerThan(T, tuples, start, job.tuple); }
    case Idle(now) =>
      forall t | t in T.connections
        ensures !ConnectionTable.Stale(T.connections[t], FastPath.IDLE_TIMEOUT, now)
      {
        ConnectionTable.StaleIff(T.connections[t], FastPath.IDLE_TIMEOUT, now);
      }
  }

  ghost predicate AllRoomy(r: Real, tuples: set<FiveTuple>, start: nat) {
    r.state.log.lost == {} && forall j :: 0 <= j < |r.tables| ==> Roomy(r.tables[j], tuples, start)
  }

  lemma HeldTuple(cfg: Config, rules: Rules.RuleSet, max: nat, moves: seq<Move>, reals: seq<Real>, n: nat, j: nat,
          job: PacketJob)
    requires RealRun(cfg, rules, max, moves, reals) && n < |reals| && j < |reals[n].state.workers|
    requires reals[n].state.workers[j].place == Holding(job)
    ensures job in PipelineOrder.Created(cfg.input)
  {
    RealRunIsRun(cfg, rules, max, moves, reals);
    PipelineOrder.AlwaysFaithful(cfg, TurnsOf(reals, moves), StatesOf(reals), n, job.tuple);
    PipelineHang.HeldIsCreated(cfg, reals[n].state, j, job);
  }

  lemma EventStaysRoomy(rules: Rules.RuleSet, T: ConnectionTable.Table, jobs: seq<PacketJob>, start: nat,
          e: FastPath.Event)
    requires Roomy(T, TuplesOf(jobs), start) && NoneEnds(jobs)
    requires e.Packet? ==> e.job in jobs && start <= e.m.updated
    ensures Roomy(TableAfter(rules, T, e), TuplesOf(jobs), start)
  {
    if e.Packet? {
      PacketStaysRoomy(FlowVerdict.PolicyOf(rules, e.job.tuple), T, e.job, e.m, TuplesOf(jobs), start);
    }
  }

  lemma OthersLoseNothing(cfg: Config, s: State, move: Move)
    requires Able(cfg, s, move.thread) && EventOf(s, move) == None
    ensures AsBefore(cfg, s, move.thread).log.lost == s.log.lost
  {
  }

  lemma StepStaysRoomy(cfg: Config, rules: Rules.RuleSet, max: nat, r: Real, move: Move, jobs: seq<PacketJob>,
          start: nat)
    requires Shaped(r) && LegalMove(cfg, max, r, move) && AllRoomy(r, TuplesOf(jobs), start)
    requires |TuplesOf(jobs)| <= max && NoneEnds(jobs) && WithinTimeout([move], start)
    requires EventOf(r.state, move).Some? && EventOf(r.state, move).value.Packet? ==>
      EventOf(r.state, move).value.job in jobs
    ensures AllRoomy(RealNext(cfg, rules, r, move), TuplesOf(jobs), start)
  {
    match EventOf(r.state, move)
    case Some(e) =>
      var T := r.tables[move.thread.j];
      assert [move][0] == move;
      RoomyLosesNothing(T, TuplesOf(jobs), start, max, e);
      EventStaysRoomy(rules, T, jobs, start, e);
    case None => OthersLoseNothing(cfg, r.state, move);
  }

  /** What a caller can check: the table has room for every tuple of the capture, no packet
      carries FIN or RST, and the run is over before an entry can be idle for too long. */
  predicate Forgetless(cfg: Config, max: nat, moves: seq<Move>, start: nat) {
    var jobs := PipelineOrder.Created(cfg.input);
    |TuplesOf(jobs)| <= max && NoneEnds(jobs) && WithinTimeout(moves, start)
  }

  lemma NextIsRoomy(cfg: Config, rules: Rules.RuleSet, max: nat, moves: seq<Move>, reals: seq<Real>, start: nat, n: nat)
    requires RealRun(cfg, rules, max, moves, reals) && n < |moves| && Forgetless(cfg, max, moves, start)
    requires AllRoomy(reals[n], TuplesOf(PipelineOrder.Created(cfg.input)), start)
    ensures AllRoomy(reals[n + 1], TuplesOf(PipelineOrder.Created(cfg.input)), start)
  {
    var r, move := reals[n], moves[n];
    assert IsRealStep(cfg, rules, max, moves, reals, n);
    var e := EventOf(r.state, move);
    if e.Some? && e.value.Packet? {
      HeldTuple(cfg, rules, max, moves, reals, n, move.thread.j, e.value.job);
    }
    StepStaysRoomy(cfg, rules, max, r, move, PipelineOrder.Created(cfg.input), start);
  }

  lemma {:induction false} AlwaysRoomy(cfg: Config, rules: Rules.RuleSet, max: nat, moves: seq<Move>, reals: seq<Real>,
          start: nat, n: nat)
    requires RealRun(cfg, rules, max, moves, reals) && n < |reals| && Forgetless(cfg, max, moves, start)
    ensures AllRoomy(reals[n], TuplesOf(PipelineOrder.Created(cfg.input)), start)
  {
    if n == 0 {
    } else {
      AlwaysRoomy(cfg, rules, max, moves, reals, start, n - 1);
      NextIsRoomy(cfg, rules, max, moves, reals, start, n - 1);
    }
  }

  /** Then no table ever loses a flow. */
  lemma NothingLost(cfg: Config, rules: Rules.RuleSet, max: nat, moves: seq<Move>, reals: seq<Real>, start: nat, n: nat)
    requires RealRun(cfg, rules, max, moves, reals) && n < |reals| && Forgetless(cfg, max, moves, start)
    ensures reals[n].state.log.lost == {}
  {
    AlwaysRoomy(cfg, rules, max, moves, reals, start, n);
  }

  /** And the file is what the verdicts on each flow alone let through: a prefix of it at
      every point, and all of it once nothing is on its way. */
  lemma RealEngineRefinesFilter(cfg: Config, rules: Rules.RuleSet, packets: seq<Pcap.RawPacket>, max: nat,
          moves: seq<Move>,
          reals: seq<Real>, start: nat, n: nat, t: FiveTuple)
    requires RealRun(cfg, rules, max, moves, reals) && n < |reals| && Forgetless(cfg, max, moves, start)
    requires cfg.input == InputOf(JobOfPacket, packets, 0)
    ensures PipelineOrder.Of(reals[n].state.output.written, t) <= LetThrough(rules, packets, t)
    ensures PipelineOrder.Drained(reals[n].state) ==>
      PipelineOrder.Of(reals[n].state.output.written, t) == LetThrough(rules, packets, t)
  {
    RealRunIsRun(cfg, rules, max, moves, reals);
    NothingLost(cfg, rules, max, moves, reals, start, n);
    EngineRefinesFilter(cfg, rules, packets, TurnsOf(reals, moves), StatesOf(reals), n, t);
  }
}
