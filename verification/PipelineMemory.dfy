/** What it takes for a flow to be remembered: its entry is created once and is there for
    every later packet. */
module PipelineMemory {
  import opened Types
  import opened Pipeline
  import opened PipelineOrder
  import opened PipelineRestarts
  import opened PipelineRuns
  import FlowVerdict

  // ---------------------------------------------------------------- what a log remembers

  predicate JudgedAt(log: seq<Verdict>, t: FiveTuple, p: nat) {
    p < |log| && log[p].job.tuple == t
  }

  predicate WasJudged(log: seq<Verdict>, t: FiveTuple) {
    exists p :: 0 <= p < |log| && JudgedAt(log, t, p)
  }

  /** No packet of the flow but the first one had its entry created for it. */
  predicate Remembers(log: seq<Verdict>, t: FiveTuple) {
    forall p, q :: 0 <= p < q < |log| && JudgedAt(log, t, p) && JudgedAt(log, t, q) ==> !log[q].anew
  }

  ghost predicate RemembersAll(log: seq<Verdict>) {
    forall t :: Remembers(log, t)
  }

  lemma JudgedOneMore(log: seq<Verdict>, v: Verdict, t: FiveTuple)
    ensures WasJudged(log + [v], t) <==> WasJudged(log, t) || v.job.tuple == t
  {
    var all := log + [v];
    forall p | 0 <= p < |log| && JudgedAt(log, t, p)
      ensures JudgedAt(all, t, p)
    {
    }
    assert v.job.tuple == t ==> JudgedAt(all, t, |log|);
    forall p | 0 <= p < |all| && JudgedAt(all, t, p)
      ensures p < |log| ==> JudgedAt(log, t, p)
    {
    }
  }

  lemma RemembersOneMore(log: seq<Verdict>, v: Verdict, t: FiveTuple)
    ensures Remembers(log + [v], t) <==> Remembers(log, t) && (v.job.tuple == t && WasJudged(log, t) ==> !v.anew)
  {
    var all := log + [v];
    assert forall p :: 0 <= p < |log| ==> (JudgedAt(all, t, p) <==> JudgedAt(log, t, p));
    assert JudgedAt(all, t, |log|) <==> v.job.tuple == t;
    if Remembers(all, t) {
      forall p, q | 0 <= p < q < |log| && JudgedAt(log, t, p) && JudgedAt(log, t, q)
        ensures !log[q].anew
      {
        assert JudgedAt(all, t, p) && JudgedAt(all, t, q) && all[q] == log[q];
      }
      if v.job.tuple == t && WasJudged(log, t) {
        var p :| 0 <= p < |log| && JudgedAt(log, t, p);
        assert JudgedAt(all, t, p) && JudgedAt(all, t, |log|);
      }
    }
  }

  /** What a longer log remembers a shorter one does. */
  lemma {:induction false} RemembersLess(log: seq<Verdict>, more: seq<Verdict>, t: FiveTuple)
    requires log <= more && Remembers(more, t)
    ensures Remembers(log, t)
  {
    forall p, q | 0 <= p < q < |log| && JudgedAt(log, t, p) && JudgedAt(log, t, q)
      ensures !log[q].anew
    {
      assert JudgedAt(more, t, p) && JudgedAt(more, t, q) && more[q] == log[q];
    }
  }

  lemma {:induction false} UnjudgedIsFresh(process: Process, log: seq<Verdict>, t: FiveTuple)
    requires !WasJudged(log, t)
    ensures StateOf(process, log, t) == FlowVerdict.FRESH
    decreases |log|
  {
    if log == [] {
    } else {
      var front, last := log[..|log| - 1], log[|log| - 1];
      assert log == front + [last];
      JudgedOneMore(front, last, t);
      UnjudgedIsFresh(process, front, t);
    }
  }

  lemma RememberedMeets(process: Process, log: seq<Verdict>, v: Verdict)
    requires Remembers(log + [v], v.job.tuple)
    ensures Met(process, log, v) == StateOf(process, log, v.job.tuple)
  {
    RemembersOneMore(log, v, v.job.tuple);
    if v.anew {
      UnjudgedIsFresh(process, log, v.job.tuple);
    }
  }

  lemma MatchesOneMore(process: Process, log: seq<Verdict>, v: Verdict, t: FiveTuple)
    requires Matches(process, StateOf(process, log, t), log, t)
    requires VerdictFollows(process, log, v) && Remembers(log + [v], t)
    ensures Matches(process, StateOf(process, log + [v], t), log + [v], t)
  {
    StateOneMore(process, log, v, t);
    if v.job.tuple == t {
      RememberedMeets(process, log, v);
    }
    JudgedMatches(process, StateOf(process, log, t), log, t, v);
  }

  /** A remembered flow is treated as by a filter that sees it alone. */
  lemma {:induction false} RememberedMatches(process: Process, log: seq<Verdict>, t: FiveTuple)
    requires Follows(process, log) && Remembers(log, t)
    ensures Matches(process, StateOf(process, log, t), log, t)
    decreases |log|
  {
    if log == [] {
    } else {
      var front, last := log[..|log| - 1], log[|log| - 1];
      assert log == front + [last];
      FollowsFront(process, log);
      RemembersLess(front, log, t);
      RememberedMatches(process, front, t);
      MatchesOneMore(process, front, last, t);
    }
  }

  lemma ReachedFollows(cfg: Config, s: State)
    requires cfg.Valid() && Reachable(cfg, s)
    ensures TablesFollow(cfg, s)
  {
    var turns, states :| EndsIn(cfg, turns, states, s);
    AlwaysFollows(cfg, turns, states, |turns|);
  }

  // ---------------------------------------------------------------- what a state keeps

  predicate InTable(cfg: Config, s: State, t: FiveTuple) {
    cfg.workerOf(t) < |s.workers| && t in s.workers[cfg.workerOf(t)].table
  }

  /** The flow is remembered so far, and its entry is there if packets of it are still to be
      judged. */
  predicate Keeps(cfg: Config, s: State, t: FiveTuple) {
    && Remembers(s.log.verdicts, t)
    && (WasJudged(s.log.verdicts, t) && Of(Jobs(s.log.verdicts), t) != Of(Created(cfg.input), t) ==> InTable(cfg, s, t))
  }

  lemma TableStays(cfg: Config, s: State, turn: Turn, t: FiveTuple)
    requires Sound(cfg, s) && Enabled(cfg, s, turn) && InTable(cfg, s, t)
    requires turn.Work? ==> t !in turn.gone || (s.workers[turn.j].place.Waiting? && s.workers[turn.j].input.queue != [])
    ensures InTable(cfg, Next(cfg, s, turn), t)
  {
  }

  lemma JudgeIsInTable(cfg: Config, s: State, j: nat, gone: set<FiveTuple>)
    requires Sound(cfg, s) && WorkEnabled(cfg, s, j, gone) && s.workers[j].place.Holding?
    ensures var t := s.workers[j].place.job.tuple;
      && InTable(cfg, DoWork(cfg, s, j, gone), t)
      && (VerdictOn(cfg, s.workers[j], s.workers[j].place.job).anew <==> !InTable(cfg, s, t))
  {
    WorkerFacts(cfg, s, j);
  }

  lemma OnlyJudgingLogs(cfg: Config, s: State, turn: Turn)
    requires Enabled(cfg, s, turn) && !(turn.Work? && s.workers[turn.j].place.Holding?)
    ensures Next(cfg, s, turn).log.verdicts == s.log.verdicts
  {
  }

  /** As long as nothing is taken out of the tables, a kept flow stays kept. */
  lemma StepKeeps(cfg: Config, s: State, turn: Turn, t: FiveTuple)
    requires cfg.Valid() && Reachable(cfg, s) && Enabled(cfg, s, turn) && Keeps(cfg, s, t)
    requires turn.Work? ==> turn.gone == {}
    ensures Keeps(cfg, Next(cfg, s, turn), t)
  {
    ReachedIsSound(cfg, s);
    if turn.Work? && s.workers[turn.j].place.Holding? {
      JudgeKeeps(cfg, s, turn.j, t);
    } else {
      OnlyJudgingLogs(cfg, s, turn);
      if InTable(cfg, s, t) {
        TableStays(cfg, s, turn, t);
      }
    }
  }

  lemma JudgeKeeps(cfg: Config, s: State, j: nat, t: FiveTuple)
    requires cfg.Valid() && Reachable(cfg, s)
    requires WorkEnabled(cfg, s, j, {}) && s.workers[j].place.Holding? && Keeps(cfg, s, t)
    ensures Keeps(cfg, DoWork(cfg, s, j, {}), t)
  {
    ReachedIsSound(cfg, s);
    var log, job := s.log.verdicts, s.workers[j].place.job;
    var v := VerdictOn(cfg, s.workers[j], job);
    JudgeIsInTable(cfg, s, j, {});
    JudgedOneMore(log, v, t);
    RemembersOneMore(log, v, t);
    VerdictsOneMore(log, v);
    OfOneMore(Jobs(log), job, t);
    if job.tuple == t {
      NextIsReachable(cfg, s, Work(j, {}));
      JudgedIsInput(cfg, DoWork(cfg, s, j, {}), t);
    } else if InTable(cfg, s, t) {
      TableStays(cfg, s, Work(j, {}), t);
    }
  }

  lemma JudgedIsInput(cfg: Config, s: State, t: FiveTuple)
    requires cfg.Valid() && Reachable(cfg, s)
    ensures Of(Jobs(s.log.verdicts), t) <= Of(Created(cfg.input), t)
  {
    ReachedIsFaithful(cfg, s, t);
    JudgedIsCreated(s.log.verdicts, s.workers[cfg.workerOf(t)], s.balancers[cfg.balancerOf(t)], s.reader, s.output, t);
    OfJoin(s.reader.created, Created(s.reader.unread), t);
  }

  // ---------------------------------------------------------------- flows that no table has lost

  predicate Unforgotten(cfg: Config, s: State, t: FiveTuple) {
    t !in s.log.lost ==> Remembers(s.log.verdicts, t) && (WasJudged(s.log.verdicts, t) ==> InTable(cfg, s, t))
  }

  lemma JudgeUnforgotten(cfg: Config, s: State, j: nat, gone: set<FiveTuple>, t: FiveTuple)
    requires Sound(cfg, s) && WorkEnabled(cfg, s, j, gone) && s.workers[j].place.Holding? && Unforgotten(cfg, s, t)
    ensures Unforgotten(cfg, DoWork(cfg, s, j, gone), t)
  {
    var v := VerdictOn(cfg, s.workers[j], s.workers[j].place.job);
    JudgeIsInTable(cfg, s, j, gone);
    JudgedOneMore(s.log.verdicts, v, t);
    RemembersOneMore(s.log.verdicts, v, t);
    if v.job.tuple != t && t !in gone && InTable(cfg, s, t) {
      TableStays(cfg, s, Work(j, gone), t);
    }
  }

  lemma StepUnforgotten(cfg: Config, s: State, turn: Turn, t: FiveTuple)
    requires Sound(cfg, s) && Enabled(cfg, s, turn) && Unforgotten(cfg, s, t)
    ensures Unforgotten(cfg, Next(cfg, s, turn), t)
  {
    if turn.Work? && s.workers[turn.j].place.Holding? {
      JudgeUnforgotten(cfg, s, turn.j, turn.gone, t);
    } else {
      OnlyJudgingLogs(cfg, s, turn);
      if t !in Next(cfg, s, turn).log.lost && InTable(cfg, s, t) && LosesNot(s, turn, t) {
        TableStays(cfg, s, turn, t);
      }
    }
  }

  predicate LosesNot(s: State, turn: Turn, t: FiveTuple) {
    turn.Work? && turn.j < |s.workers| ==>
      t !in turn.gone || (s.workers[turn.j].place.Waiting? && s.workers[turn.j].input.queue != [])
  }

  lemma {:induction false} AlwaysUnforgotten(cfg: Config, turns: seq<Turn>, states: seq<State>, n: nat, t: FiveTuple)
    requires cfg.Valid() && IsRun(cfg, turns, states) && n < |states|
    ensures Unforgotten(cfg, states[n], t)
  {
    if n == 0 {
    } else {
      var m := n - 1;
      AlwaysUnforgotten(cfg, turns, states, m, t);
      AlwaysSound(cfg, turns, states, m);
      assert IsStep(cfg, turns, states, m);
      StepUnforgotten(cfg, states[m], turns[m], t);
    }
  }

  /** A flow that no table has lost is kept. */
  lemma UnlostIsKept(cfg: Config, s: State, t: FiveTuple)
    requires cfg.Valid() && Reachable(cfg, s) && t !in s.log.lost
    ensures Keeps(cfg, s, t)
  {
    var turns, states :| EndsIn(cfg, turns, states, s);
    AlwaysUnforgotten(cfg, turns, states, |turns|, t);
  }
}
