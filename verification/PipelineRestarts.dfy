/** What comes out of the engine when tables forget: a filter that starts afresh each
    time a flow's entry is created anew. */
module PipelineRestarts {
  import opened Types
  import opened Pipeline
  import opened PipelineOrder
  import FlowVerdict

  // ---------------------------------------------------------------- what a log says of a flow

  /** The state of a flow's entry after some verdicts: each starts from the state the one
      before it left, or afresh if the entry was created for it. */
  function StateOf(process: Process, log: seq<Verdict>, t: FiveTuple): Flow
    decreases |log|, 0
  {
    if log == [] then FlowVerdict.FRESH
    else
      var front, last := log[..|log| - 1], log[|log| - 1];
      if last.job.tuple == t then process(Met(process, front, last), last.job).0 else StateOf(process, front, t)
  }

  /** The state that a packet meets. */
  function Met(process: Process, log: seq<Verdict>, v: Verdict): Flow
    decreases |log|, 1
  {
    if v.anew then FlowVerdict.FRESH else StateOf(process, log, v.job.tuple)
  }

  /** Every verdict is the one that its flow's earlier packets explain. */
  ghost predicate Follows(process: Process, log: seq<Verdict>) {
    forall p :: 0 <= p < |log| ==> VerdictFollows(process, log[..p], log[p])
  }

  predicate VerdictFollows(process: Process, log: seq<Verdict>, v: Verdict) {
    v.action == process(Met(process, log, v), v.job).1
  }

  lemma StateOneMore(process: Process, log: seq<Verdict>, v: Verdict, t: FiveTuple)
    ensures StateOf(process, log + [v], t) ==
      if v.job.tuple == t then process(Met(process, log, v), v.job).0 else StateOf(process, log, t)
  {
    assert (log + [v])[..|log|] == log;
  }

  lemma FollowsOneMore(process: Process, log: seq<Verdict>, v: Verdict)
    requires Follows(process, log) && VerdictFollows(process, log, v)
    ensures Follows(process, log + [v])
  {
    var all := log + [v];
    forall p | 0 <= p < |all|
      ensures VerdictFollows(process, all[..p], all[p])
    {
      if p < |log| {
        assert all[..p] == log[..p] && all[p] == log[p];
      } else {
        assert all[..p] == log && all[p] == v;
      }
    }
  }

  lemma FollowsFront(process: Process, log: seq<Verdict>)
    requires Follows(process, log) && log != []
    ensures Follows(process, log[..|log| - 1]) && VerdictFollows(process, log[..|log| - 1], log[|log| - 1])
  {
    var front := log[..|log| - 1];
    assert VerdictFollows(process, log[..|log| - 1], log[|log| - 1]);
    forall p | 0 <= p < |front|
      ensures VerdictFollows(process, front[..p], front[p])
    {
      assert VerdictFollows(process, log[..p], log[p]);
      assert front[..p] == log[..p];
    }
  }

  // ---------------------------------------------------------------- tables and their log

  predicate EntryFollows(process: Process, table: map<FiveTuple, Flow>, log: seq<Verdict>, t: FiveTuple) {
    t in table ==> table[t] == StateOf(process, log, t)
  }

  /** Every entry that a table holds is the state that the log gives its flow. */
  ghost predicate TablesFollow(cfg: Config, s: State) {
    && WellShaped(cfg, s) && Follows(cfg.process, s.log.verdicts)
    && forall t :: cfg.workerOf(t) < cfg.workers ==>
         EntryFollows(cfg.process, s.workers[cfg.workerOf(t)].table, s.log.verdicts, t)
  }

  lemma JudgedFollows(cfg: Config, w: Worker, job: PacketJob, gone: set<FiveTuple>, log: seq<Verdict>)
    requires EntryFollows(cfg.process, w.table, log, job.tuple)
    ensures VerdictFollows(cfg.process, log, VerdictOn(cfg, w, job))
    ensures Lookup(w.table, job.tuple) == Met(cfg.process, log, VerdictOn(cfg, w, job))
  {
  }

  lemma JudgedEntryFollows(cfg: Config, w: Worker, job: PacketJob, gone: set<FiveTuple>, log: seq<Verdict>,
          t: FiveTuple)
    requires EntryFollows(cfg.process, w.table, log, job.tuple) && EntryFollows(cfg.process, w.table, log, t)
    ensures EntryFollows(cfg.process, Judged(cfg, w, job, gone).table, log + [VerdictOn(cfg, w, job)], t)
  {
    StateOneMore(cfg.process, log, VerdictOn(cfg, w, job), t);
    JudgedFollows(cfg, w, job, gone, log);
  }

  lemma JudgeKeepsTables(cfg: Config, s: State, j: nat, gone: set<FiveTuple>, job: PacketJob)
    requires WorkEnabled(cfg, s, j, gone) && s.workers[j].place == Holding(job) && TablesFollow(cfg, s)
    requires cfg.workerOf(job.tuple) == j
    ensures TablesFollow(cfg, DoWork(cfg, s, j, gone))
  {
    var u, v, log := DoWork(cfg, s, j, gone), VerdictOn(cfg, s.workers[j], job), s.log.verdicts;
    assert EntryFollows(cfg.process, s.workers[j].table, log, job.tuple);
    JudgedFollows(cfg, s.workers[j], job, gone, log);
    FollowsOneMore(cfg.process, log, v);
    forall t | cfg.workerOf(t) < cfg.workers
      ensures EntryFollows(cfg.process, u.workers[cfg.workerOf(t)].table, u.log.verdicts, t)
    {
      assert EntryFollows(cfg.process, s.workers[cfg.workerOf(t)].table, log, t);
      if cfg.workerOf(t) == j {
        JudgedEntryFollows(cfg, s.workers[j], job, gone, log, t);
      } else {
        StateOneMore(cfg.process, log, v, t);
      }
    }
  }

  /** A step without a verdict leaves no table with an entry it did not have. */
  predicate TablesShrink(s: State, u: State) {
    && |u.workers| == |s.workers| && |u.balancers| == |s.balancers| && u.log.verdicts == s.log.verdicts
    && forall j, t :: 0 <= j < |s.workers| && t in u.workers[j].table ==>
         t in s.workers[j].table && u.workers[j].table[t] == s.workers[j].table[t]
  }

  lemma ShrunkFollow(cfg: Config, s: State, u: State)
    requires TablesFollow(cfg, s) && TablesShrink(s, u)
    ensures TablesFollow(cfg, u)
  {
    forall t | cfg.workerOf(t) < cfg.workers
      ensures EntryFollows(cfg.process, u.workers[cfg.workerOf(t)].table, u.log.verdicts, t)
    {
      assert EntryFollows(cfg.process, s.workers[cfg.workerOf(t)].table, s.log.verdicts, t);
    }
  }

  lemma WaitShrinks(cfg: Config, s: State, j: nat, gone: set<FiveTuple>)
    requires WorkEnabled(cfg, s, j, gone) && !s.workers[j].place.Holding?
    ensures TablesShrink(s, DoWork(cfg, s, j, gone))
  {
  }

  lemma OthersShrink(cfg: Config, s: State, turn: Turn)
    requires Enabled(cfg, s, turn) && !turn.Work?
    ensures TablesShrink(s, Next(cfg, s, turn))
  {
    var u := Next(cfg, s, turn);
    assert |u.workers| == |s.workers| && |u.balancers| == |s.balancers|;
    assert forall j :: 0 <= j < |s.workers| ==> u.workers[j].table == s.workers[j].table;
  }

  lemma StepKeepsTables(cfg: Config, s: State, turn: Turn)
    requires Sound(cfg, s) && Enabled(cfg, s, turn) && TablesFollow(cfg, s)
    ensures TablesFollow(cfg, Next(cfg, s, turn))
  {
    if turn.Work? {
      WorkerFacts(cfg, s, turn.j);
      if s.workers[turn.j].place.Holding? {
        JudgeKeepsTables(cfg, s, turn.j, turn.gone, s.workers[turn.j].place.job);
      } else {
        WaitShrinks(cfg, s, turn.j, turn.gone);
        ShrunkFollow(cfg, s, Next(cfg, s, turn));
      }
    } else {
      OthersShrink(cfg, s, turn);
      ShrunkFollow(cfg, s, Next(cfg, s, turn));
    }
  }

  /** On every run, whatever tables lose, every verdict is explained by the flow's packets
      since its entry was last created, and every entry is the state they lead to. */
  lemma {:induction false} AlwaysFollows(cfg: Config, turns: seq<Turn>, states: seq<State>, n: nat)
    requires cfg.Valid() && IsRun(cfg, turns, states) && n < |states|
    ensures TablesFollow(cfg, states[n])
  {
    if n == 0 {
    } else {
      var m := n - 1;
      AlwaysFollows(cfg, turns, states, m);
      AlwaysSound(cfg, turns, states, m);
      assert IsStep(cfg, turns, states, m);
      StepKeepsTables(cfg, states[m], turns[m]);
    }
  }

  // ---------------------------------------------------------------- the restarting filter

  /** A packet, and whether the filter starts afresh with it. */
  datatype Piece = Piece(job: PacketJob, restarts: bool)

  function PiecesOf(log: seq<Verdict>, t: FiveTuple): seq<Piece> {
    if log == [] then []
    else
      var before, last := PiecesOf(log[..|log| - 1], t), log[|log| - 1];
      if last.job.tuple == t then before + [Piece(last.job, last.anew)] else before
  }

  function JobsOfPieces(pieces: seq<Piece>): seq<PacketJob> {
    if pieces == [] then [] else JobsOfPieces(pieces[..|pieces| - 1]) + [pieces[|pieces| - 1].job]
  }

  /** One thread that folds the verdict over the packets of one flow and forgets the flow
      where it is told to: the state it ends in and the packets it lets through. */
  function Restarting(process: Process, pieces: seq<Piece>): (Flow, seq<PacketJob>) {
    if pieces == [] then (FlowVerdict.FRESH, [])
    else
      var (f, through) := Restarting(process, pieces[..|pieces| - 1]);
      var last := pieces[|pieces| - 1];
      var (g, action) := process(if last.restarts then FlowVerdict.FRESH else f, last.job);
      (g, if action == Drop then through else through + [last.job])
  }

  lemma RestartingOneMore(process: Process, pieces: seq<Piece>, last: Piece)
    ensures var (f, through) := Restarting(process, pieces);
      var (g, action) := process(if last.restarts then FlowVerdict.FRESH else f, last.job);
      Restarting(process, pieces + [last]) == (g, if action == Drop then through else through + [last.job])
    ensures JobsOfPieces(pieces + [last]) == JobsOfPieces(pieces) + [last.job]
  {
    assert (pieces + [last])[..|pieces|] == pieces;
  }

  lemma OfLogOneMore(front: seq<Verdict>, last: Verdict, t: FiveTuple)
    ensures Of(Jobs(front + [last]), t) == Of(Jobs(front), t) + One(last.job, t)
    ensures Of(Passed(front + [last]), t) ==
      if last.action == Drop then Of(Passed(front), t) else Of(Passed(front), t) + One(last.job, t)
  {
    VerdictsOneMore(front, last);
    OfOneMore(Jobs(front), last.job, t);
    OfOneMore(Passed(front), last.job, t);
  }

  /** The flow's part of a log. */
  predicate Restarts(process: Process, log: seq<Verdict>, t: FiveTuple) {
    && Restarting(process, PiecesOf(log, t)) == (StateOf(process, log, t), Of(Passed(log), t))
    && JobsOfPieces(PiecesOf(log, t)) == Of(Jobs(log), t)
  }

  lemma RestartsOneMore(process: Process, front: seq<Verdict>, last: Verdict, t: FiveTuple)
    requires Restarts(process, front, t) && VerdictFollows(process, front, last)
    ensures Restarts(process, front + [last], t)
  {
    OfLogOneMore(front, last, t);
    OneMorePiece(process, front, last, t);
  }

  lemma {:induction false} FollowsIsRestarting(process: Process, log: seq<Verdict>, t: FiveTuple)
    requires Follows(process, log)
    ensures Restarts(process, log, t)
    decreases |log|
  {
    if log == [] {
    } else {
      var front, last := log[..|log| - 1], log[|log| - 1];
      assert log == front + [last];
      FollowsFront(process, log);
      FollowsIsRestarting(process, front, t);
      RestartsOneMore(process, front, last, t);
    }
  }

  lemma OneMorePiece(process: Process, front: seq<Verdict>, last: Verdict, t: FiveTuple)
    requires VerdictFollows(process, front, last)
    requires Restarting(process, PiecesOf(front, t)) == (StateOf(process, front, t), Of(Passed(front), t))
    requires JobsOfPieces(PiecesOf(front, t)) == Of(Jobs(front), t)
    ensures var log := front + [last];
      Restarting(process, PiecesOf(log, t)) ==
        (StateOf(process, log, t), if last.action == Drop then Of(Passed(front), t)
            else Of(Passed(front), t) + One(last.job, t))
    ensures JobsOfPieces(PiecesOf(front + [last], t)) == Of(Jobs(front), t) + One(last.job, t)
  {
    var log := front + [last];
    assert log[..|log| - 1] == front;
    StateOneMore(process, front, last, t);
    if last.job.tuple == t {
      RestartingOneMore(process, PiecesOf(front, t), Piece(last.job, last.anew));
    } else {
      assert Of(Passed(front), t) + One(last.job, t) == Of(Passed(front), t);
      assert Of(Jobs(front), t) + One(last.job, t) == Of(Jobs(front), t);
    }
  }

  /** Every interleaving refines the restarting filter, for every flow and whatever the
      tables have lost: what has been written of a flow is, in order, a prefix of what a
      single thread lets through that sees the flow's packets in the order of the file and
      starts afresh where the flow's entry was created anew; and all of it once nothing is
      on its way. */
  lemma OutputRefinesRestartingFilter(cfg: Config, turns: seq<Turn>, states: seq<State>, n: nat, t: FiveTuple)
    requires cfg.Valid() && IsRun(cfg, turns, states) && n < |states|
    ensures var pieces := PiecesOf(states[n].log.verdicts, t);
      && JobsOfPieces(pieces) <= Of(Created(cfg.input), t)
      && Of(states[n].output.written, t) <= Restarting(cfg.process, pieces).1
      && (Drained(states[n]) ==> JobsOfPieces(pieces) == Of(Created(cfg.input), t))
      && (Drained(states[n]) ==> Of(states[n].output.written, t) == Restarting(cfg.process, pieces).1)
  {
    var s := states[n];
    AlwaysFaithful(cfg, turns, states, n, t);
    AlwaysFollows(cfg, turns, states, n);
    FollowsIsRestarting(cfg.process, s.log.verdicts, t);
    var w, b := s.workers[cfg.workerOf(t)], s.balancers[cfg.balancerOf(t)];
    WrittenIsPassed(s.log.verdicts, w, b, s.reader, s.output, t);
    JudgedIsCreated(s.log.verdicts, w, b, s.reader, s.output, t);
    OfJoin(s.reader.created, Created(s.reader.unread), t);
    if Drained(s) {
      DrainedPath(cfg, s, t);
    }
  }
}
