/** Which states the engine can reach, from the start and from one another, and what holds
    of all of them. */
module PipelineRuns {
  import opened Types
  import opened Pipeline
  import opened PipelineOrder
  import opened PipelineAccounts

  /** A run ends in the state. */
  ghost predicate Reachable(cfg: Config, s: State) {
    exists turns, states :: EndsIn(cfg, turns, states, s)
  }

  ghost predicate EndsIn(cfg: Config, turns: seq<Turn>, states: seq<State>, s: State) {
    IsRun(cfg, turns, states) && states[|turns|] == s
  }

  ghost predicate Path(cfg: Config, s: State, turns: seq<Turn>, u: State)
    decreases |turns|
  {
    if turns == [] then s == u
    else Enabled(cfg, s, turns[0]) && Path(cfg, Next(cfg, s, turns[0]), turns[1..], u)
  }

  /** The engine can get from one state to the other. */
  ghost predicate Leads(cfg: Config, s: State, u: State) {
    exists turns :: Path(cfg, s, turns, u)
  }

  lemma LeadsNowhere(cfg: Config, s: State)
    ensures Leads(cfg, s, s)
  {
    assert Path(cfg, s, [], s);
  }

  lemma LeadsFirst(cfg: Config, s: State, turn: Turn, u: State)
    requires Enabled(cfg, s, turn) && Leads(cfg, Next(cfg, s, turn), u)
    ensures Leads(cfg, s, u)
  {
    var turns :| Path(cfg, Next(cfg, s, turn), turns, u);
    var all := [turn] + turns;
    assert all[0] == turn && all[1..] == turns;
    assert Path(cfg, s, all, u);
  }

  lemma LeadsByOne(cfg: Config, s: State, turn: Turn)
    requires Enabled(cfg, s, turn)
    ensures Leads(cfg, s, Next(cfg, s, turn))
  {
    LeadsNowhere(cfg, Next(cfg, s, turn));
    LeadsFirst(cfg, s, turn, Next(cfg, s, turn));
  }

  lemma {:induction false} PathOn(cfg: Config, s: State, turns: seq<Turn>, u: State, v: State)
    requires Path(cfg, s, turns, u) && Leads(cfg, u, v)
    ensures Leads(cfg, s, v)
    decreases |turns|
  {
    if turns == [] {
    } else {
      PathOn(cfg, Next(cfg, s, turns[0]), turns[1..], u, v);
      LeadsFirst(cfg, s, turns[0], v);
    }
  }

  lemma LeadsOn(cfg: Config, s: State, u: State, v: State)
    requires Leads(cfg, s, u) && Leads(cfg, u, v)
    ensures Leads(cfg, s, v)
  {
    var turns :| Path(cfg, s, turns, u);
    PathOn(cfg, s, turns, u, v);
  }

  lemma InitialIsReachable(cfg: Config)
    ensures Reachable(cfg, Initial(cfg))
  {
    assert EndsIn(cfg, [], [Initial(cfg)], Initial(cfg));
  }

  lemma NextIsReachable(cfg: Config, s: State, turn: Turn)
    requires Reachable(cfg, s) && Enabled(cfg, s, turn)
    ensures Reachable(cfg, Next(cfg, s, turn))
  {
    var turns, states :| EndsIn(cfg, turns, states, s);
    RunExtends(cfg, turns, states, turn);
    assert EndsIn(cfg, turns + [turn], states + [Next(cfg, s, turn)], Next(cfg, s, turn));
  }

  lemma RunExtends(cfg: Config, turns: seq<Turn>, states: seq<State>, turn: Turn)
    requires IsRun(cfg, turns, states) && Enabled(cfg, states[|turns|], turn)
    ensures IsRun(cfg, turns + [turn], states + [Next(cfg, states[|turns|], turn)])
  {
    var turns1, states1 := turns + [turn], states + [Next(cfg, states[|turns|], turn)];
    forall i | 0 <= i < |turns1|
      ensures IsStep(cfg, turns1, states1, i)
    {
      if i < |turns| {
        assert IsStep(cfg, turns, states, i);
      }
    }
  }

  lemma {:induction false} PathReaches(cfg: Config, s: State, turns: seq<Turn>, u: State)
    requires Reachable(cfg, s) && Path(cfg, s, turns, u)
    ensures Reachable(cfg, u)
    decreases |turns|
  {
    if turns == [] {
    } else {
      NextIsReachable(cfg, s, turns[0]);
      PathReaches(cfg, Next(cfg, s, turns[0]), turns[1..], u);
    }
  }

  lemma LeadsReaches(cfg: Config, s: State, u: State)
    requires Reachable(cfg, s) && Leads(cfg, s, u)
    ensures Reachable(cfg, u)
  {
    var turns :| Path(cfg, s, turns, u);
    PathReaches(cfg, s, turns, u);
  }

  /** The states of a run are reachable, and each leads to the later ones. */
  lemma {:induction false} RunLeads(cfg: Config, turns: seq<Turn>, states: seq<State>, k: nat, n: nat)
    requires IsRun(cfg, turns, states) && k <= n <= |turns|
    ensures Reachable(cfg, states[k]) && Leads(cfg, states[k], states[n])
    decreases n
  {
    if k == n {
      RunStops(cfg, turns, states, k);
      LeadsNowhere(cfg, states[k]);
    } else {
      RunLeads(cfg, turns, states, k, n - 1);
      assert IsStep(cfg, turns, states, n - 1);
      LeadsByOne(cfg, states[n - 1], turns[n - 1]);
      LeadsOn(cfg, states[k], states[n - 1], states[n]);
    }
  }

  lemma RunStops(cfg: Config, turns: seq<Turn>, states: seq<State>, k: nat)
    requires IsRun(cfg, turns, states) && k <= |turns|
    ensures Reachable(cfg, states[k])
  {
    var turns1, states1 := turns[..k], states[..k + 1];
    forall i | 0 <= i < |turns1|
      ensures IsStep(cfg, turns1, states1, i)
    {
      assert IsStep(cfg, turns, states, i);
    }
    assert EndsIn(cfg, turns1, states1, states[k]);
  }

  // ---------------------------------------------------------------- what holds of reachable states

  lemma ReachedIsFaithful(cfg: Config, s: State, t: FiveTuple)
    requires cfg.Valid() && Reachable(cfg, s)
    ensures Faithful(cfg, s, t)
  {
    var turns, states :| EndsIn(cfg, turns, states, s);
    AlwaysFaithful(cfg, turns, states, |turns|, t);
  }

  lemma ReachedIsSound(cfg: Config, s: State)
    requires cfg.Valid() && Reachable(cfg, s)
    ensures Sound(cfg, s)
  {
    var turns, states :| EndsIn(cfg, turns, states, s);
    AlwaysSound(cfg, turns, states, |turns|);
  }

  lemma ReachedIsBalanced(cfg: Config, s: State)
    requires cfg.Valid() && Reachable(cfg, s)
    ensures Balanced(s)
  {
    var turns, states :| EndsIn(cfg, turns, states, s);
    AlwaysBalanced(cfg, turns, states, |turns|);
  }

  /** No queue is ever longer than its bound. */
  predicate Fits(cfg: Config, s: State) {
    && (forall i :: 0 <= i < |s.balancers| ==> |s.balancers[i].input.queue| <= cfg.balancerCap)
    && (forall j :: 0 <= j < |s.workers| ==> |s.workers[j].input.queue| <= cfg.workerCap)
    && |s.output.queue.queue| <= cfg.outputCap
  }

  lemma StepFits(cfg: Config, s: State, turn: Turn)
    requires Fits(cfg, s) && Enabled(cfg, s, turn)
    ensures Fits(cfg, Next(cfg, s, turn))
  {
    match turn
    case Balance(i) => BalanceFits(cfg, s, i);
    case Work(j, gone) => WorkFits(cfg, s, j, gone);
    case Stop => StopFits(cfg, s);
    case _ =>
  }

  lemma StopFits(cfg: Config, s: State)
    requires Fits(cfg, s) && StopEnabled(cfg, s)
    ensures Fits(cfg, DoStop(cfg, s))
  {
  }

  lemma BalanceFits(cfg: Config, s: State, i: nat)
    requires Fits(cfg, s) && BalanceEnabled(cfg, s, i)
    ensures Fits(cfg, DoBalance(cfg, s, i))
  {
  }

  lemma WorkFits(cfg: Config, s: State, j: nat, gone: set<FiveTuple>)
    requires Fits(cfg, s) && WorkEnabled(cfg, s, j, gone)
    ensures Fits(cfg, DoWork(cfg, s, j, gone))
  {
  }

  lemma {:induction false} AlwaysFits(cfg: Config, turns: seq<Turn>, states: seq<State>, n: nat)
    requires IsRun(cfg, turns, states) && n < |states|
    ensures Fits(cfg, states[n])
  {
    if n == 0 {
    } else {
      var m := n - 1;
      AlwaysFits(cfg, turns, states, m);
      assert IsStep(cfg, turns, states, m);
      StepFits(cfg, states[m], turns[m]);
    }
  }

  lemma ReachedFits(cfg: Config, s: State)
    requires Reachable(cfg, s)
    ensures Fits(cfg, s)
  {
    var turns, states :| EndsIn(cfg, turns, states, s);
    AlwaysFits(cfg, turns, states, |turns|);
  }

  /** The engine's counters are those of its log. */
  predicate Tallied(log: Log) {
    log.forwarded == |Passed(log.verdicts)| && (log.dropped == 0 ==> Passed(log.verdicts) == Jobs(log.verdicts))
  }

  lemma RecordedTallies(log: Log, v: Verdict, gone: set<FiveTuple>)
    requires Tallied(log)
    ensures Tallied(Recorded(log, v, gone))
  {
    VerdictsOneMore(log.verdicts, v);
  }

  lemma StepTallies(cfg: Config, s: State, turn: Turn)
    requires Tallied(s.log) && Enabled(cfg, s, turn)
    ensures Tallied(Next(cfg, s, turn).log)
  {
    if turn.Work? && s.workers[turn.j].place.Holding? {
      RecordedTallies(s.log, VerdictOn(cfg, s.workers[turn.j], s.workers[turn.j].place.job), turn.gone);
    }
  }

  lemma {:induction false} AlwaysTallied(cfg: Config, turns: seq<Turn>, states: seq<State>, n: nat)
    requires IsRun(cfg, turns, states) && n < |states|
    ensures Tallied(states[n].log)
  {
    if n == 0 {
    } else {
      var m := n - 1;
      AlwaysTallied(cfg, turns, states, m);
      assert IsStep(cfg, turns, states, m);
      StepTallies(cfg, states[m], turns[m]);
    }
  }

  lemma ReachedIsTallied(cfg: Config, s: State)
    requires Reachable(cfg, s)
    ensures Tallied(s.log)
  {
    var turns, states :| EndsIn(cfg, turns, states, s);
    AlwaysTallied(cfg, turns, states, |turns|);
  }

  // ---------------------------------------------------------------- one sequential filter of all flows

  /** One thread that judges all packets in order, with a table that forgets nothing. */
  function LetThrough(process: Process, jobs: seq<PacketJob>): (map<FiveTuple, Flow>, seq<PacketJob>) {
    if jobs == [] then (map[], [])
    else
      var (table, through) := LetThrough(process, jobs[..|jobs| - 1]);
      var job := jobs[|jobs| - 1];
      var (f, action) := process(Lookup(table, job.tuple), job);
      (table[job.tuple := f], if action == Drop then through else through + [job])
  }

  /** Flow by flow it is the filter of that flow alone. */
  lemma {:induction false} LetThroughIsAlone(process: Process, jobs: seq<PacketJob>, t: FiveTuple)
    ensures Lookup(LetThrough(process, jobs).0, t) == Alone(process, Of(jobs, t)).0
    ensures Of(LetThrough(process, jobs).1, t) == Alone(process, Of(jobs, t)).1
    decreases |jobs|
  {
    if jobs == [] {
    } else {
      var front, job := jobs[..|jobs| - 1], jobs[|jobs| - 1];
      LetThroughIsAlone(process, front, t);
      OfOneMore(LetThrough(process, front).1, job, t);
      if job.tuple == t {
        AloneOneMore(process, Of(front, t), job);
      } else {
        assert Of(LetThrough(process, front).1, t) + One(job, t) == Of(LetThrough(process, front).1, t);
        assert Of(front, t) + One(job, t) == Of(front, t);
      }
    }
  }

  // ---------------------------------------------------------------- lengths from flows

  lemma PrefixTimes(a: seq<PacketJob>, b: seq<PacketJob>, job: PacketJob)
    requires a <= b
    ensures Times(a, job) <= Times(b, job)
  {
    assert b == a + b[|a|..];
    TimesJoin(a, b[|a|..], job);
  }

  lemma MoreIsLonger(a: multiset<PacketJob>, b: multiset<PacketJob>)
    requires a <= b
    ensures |a| <= |b| && (|a| == |b| ==> a == b)
  {
    assert b == a + (b - a);
  }

  /** What holds no more of any flow is no longer. */
  lemma FlowwiseShorter(a: seq<PacketJob>, b: seq<PacketJob>)
    requires forall t :: Of(a, t) <= Of(b, t)
    ensures |a| <= |b|
  {
    forall job: PacketJob
      ensures multiset(a)[job] <= multiset(b)[job]
    {
      assert Of(a, job.tuple) <= Of(b, job.tuple);
      TimesOfOwn(a, job);
      TimesOfOwn(b, job);
      PrefixTimes(Of(a, job.tuple), Of(b, job.tuple), job);
    }
    MoreIsLonger(multiset(a), multiset(b));
  }

  /** As long and no more of any flow is the same of every flow. */
  lemma FlowwiseSame(a: seq<PacketJob>, b: seq<PacketJob>, t: FiveTuple)
    requires (forall t :: Of(a, t) <= Of(b, t)) && |a| == |b|
    ensures Of(a, t) == Of(b, t)
  {
    assert Of(a, t) <= Of(b, t);
    if |Of(a, t)| < |Of(b, t)| {
      SplitByFlow(a, t);
      SplitByFlow(b, t);
      forall u
        ensures Of(NotOf(a, t), u) <= Of(NotOf(b, t), u)
      {
        assert Of(a, u) <= Of(b, u);
        OthersOf(a, t, u);
        OthersOf(b, t, u);
      }
      FlowwiseShorter(NotOf(a, t), NotOf(b, t));
    }
  }

  /** All but one flow. */
  function NotOf(jobs: seq<PacketJob>, t: FiveTuple): seq<PacketJob> {
    if jobs == [] then []
    else NotOf(jobs[..|jobs| - 1], t) + (if jobs[|jobs| - 1].tuple == t then [] else [jobs[|jobs| - 1]])
  }

  lemma {:induction false} SplitByFlow(jobs: seq<PacketJob>, t: FiveTuple)
    ensures |jobs| == |Of(jobs, t)| + |NotOf(jobs, t)|
  {
    if jobs == [] {
    } else {
      SplitByFlow(jobs[..|jobs| - 1], t);
    }
  }

  lemma {:induction false} OthersOf(jobs: seq<PacketJob>, t: FiveTuple, u: FiveTuple)
    ensures Of(NotOf(jobs, t), u) == if u == t then [] else Of(jobs, u)
  {
    if jobs == [] {
    } else {
      var front, last := jobs[..|jobs| - 1], jobs[|jobs| - 1];
      OthersOf(front, t, u);
      if last.tuple == t {
        assert NotOf(front, t) + [] == NotOf(front, t);
        assert Of(front, u) + [] == Of(front, u);
      } else {
        OfOneMore(NotOf(front, t), last, u);
      }
    }
  }
}
