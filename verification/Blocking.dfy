/** How long blocking lasts, on any log of verdicts: with tables that evict and clean up,
    and for both directions of a connection. */
module Blocking {
  import opened Types
  import opened FlowVerdict
  import opened FastPath
  import Pipeline
  import PipelineRestarts
  import ConnectionTable
  import Rules

  type Log = seq<Pipeline.Verdict>

  function Judge(policies: Policies): Pipeline.Process {
    (f: Flow, job: PacketJob) => Step(policies(job.tuple), f, See(job))
  }

  /** A process that judges by policies. */
  ghost predicate Judges(process: Pipeline.Process, policies: Policies) {
    forall f: Flow, job: PacketJob :: process(f, job) == Step(policies(job.tuple), f, See(job))
  }

  /** The packets of one flow with the marks of their entries. */
  function MarksOf(log: Log, t: FiveTuple): seq<Marked> {
    if log == [] then []
    else
      var before, last := MarksOf(log[..|log| - 1], t), log[|log| - 1];
      if last.job.tuple == t then before + [Marked(See(last.job), last.anew)] else before
  }

  lemma MarksOneMore(log: Log, v: Pipeline.Verdict, t: FiveTuple)
    ensures MarksOf(log + [v], t) ==
      if v.job.tuple == t then MarksOf(log, t) + [Marked(See(v.job), v.anew)] else MarksOf(log, t)
  {
    assert (log + [v])[..|log|] == log;
  }

  lemma LiveOneMore(policy: Policy, ms: seq<Marked>, m: Marked)
    ensures Live(policy, ms + [m]) == Step(policy, Entry(policy, ms, m.anew), m.p).0
  {
    assert (ms + [m])[..|ms|] == ms;
  }

  lemma {:induction false} StateIsLive(process: Pipeline.Process, policies: Policies, log: Log, t: FiveTuple)
    requires Judges(process, policies)
    ensures PipelineRestarts.StateOf(process, log, t) == Live(policies(t), MarksOf(log, t))
    decreases |log|
  {
    if log == [] {
    } else {
      var front, last := log[..|log| - 1], log[|log| - 1];
      StateIsLive(process, policies, front, t);
      if last.job.tuple == t {
        LiveOneMore(policies(t), MarksOf(front, t), Marked(See(last.job), last.anew));
      }
    }
  }

  lemma MetIsEntry(process: Pipeline.Process, policies: Policies, log: Log, v: Pipeline.Verdict)
    requires Judges(process, policies)
    ensures PipelineRestarts.Met(process, log, v) == Entry(policies(v.job.tuple), MarksOf(log, v.job.tuple), v.anew)
  {
    StateIsLive(process, policies, log, v.job.tuple);
  }

  // ---------------------------------------------------------------- after a drop

  /** Seen from the packets alone: what a packet has to be that comes after a drop in its
      flow and gets through. With a live entry it closes the connection, by itself or with
      a FIN among the packets since the entry was created, and it is found harmless; with a
      new entry it is harmless by itself. */
  predicate GetsInAt(policies: Policies, log: Log, n: nat)
    requires n < |log|
  {
    var t, p := log[n].job.tuple, See(log[n].job);
    if log[n].anew then HarmlessAlone(policies(t), p)
    else p.isTcp && Closes(FinAmong(Since(MarksOf(log[..n], t))), p.flags) && FoundHarmless(policies(t), p)
  }

  predicate IsOf(log: Log, n: nat, t: FiveTuple) {
    n < |log| && log[n].job.tuple == t
  }

  lemma NextState(process: Pipeline.Process, log: Log, n: nat, t: FiveTuple)
    requires n < |log|
    ensures PipelineRestarts.StateOf(process, log[..n + 1], t) ==
      if log[n].job.tuple == t then process(PipelineRestarts.Met(process, log[..n], log[n]), log[n].job).0
      else PipelineRestarts.StateOf(process, log[..n], t)
  {
    assert log[..n + 1] == log[..n] + [log[n]];
    PipelineRestarts.StateOneMore(process, log[..n], log[n], t);
  }

  lemma DropBlocks(process: Pipeline.Process, policies: Policies, log: Log, n: nat)
    requires Judges(process, policies) && PipelineRestarts.Follows(process, log)
    requires n < |log| && log[n].action == Drop
    ensures PipelineRestarts.StateOf(process, log[..n + 1], log[n].job.tuple).state == Blocked
  {
    var t, v := log[n].job.tuple, log[n];
    assert PipelineRestarts.VerdictFollows(process, log[..n], v);
    NextState(process, log, n, t);
    MetIsEntry(process, policies, log[..n], v);
    LiveIsForCause(policies(t), MarksOf(log[..n], t));
    BlockedForCauseKept(policies(t), PipelineRestarts.Met(process, log[..n], v), See(v.job));
  }

  ghost predicate DroppedBetween(log: Log, t: FiveTuple, i: nat, n: nat) {
    forall p :: i < p < n && IsOf(log, p, t) ==> log[p].action == Drop
  }

  lemma {:induction false} StaysBlocked(process: Pipeline.Process, policies: Policies, log: Log, t: FiveTuple, i: nat,
          n: nat)
    requires Judges(process, policies) && PipelineRestarts.Follows(process, log)
    requires i < n <= |log| && IsOf(log, i, t) && log[i].action == Drop && DroppedBetween(log, t, i, n)
    ensures PipelineRestarts.StateOf(process, log[..n], t).state == Blocked
    decreases n
  {
    var m := n - 1;
    if m == i {
      DropBlocks(process, policies, log, m);
    } else if log[m].job.tuple == t {
      assert IsOf(log, m, t);
      DropBlocks(process, policies, log, m);
    } else {
      StaysBlocked(process, policies, log, t, i, m);
      NextState(process, log, m, t);
    }
  }

  lemma BlockedThenForwardIff(process: Pipeline.Process, policies: Policies, log: Log, n: nat)
    requires Judges(process, policies) && PipelineRestarts.Follows(process, log) && n < |log|
    requires !log[n].anew ==> PipelineRestarts.StateOf(process, log[..n], log[n].job.tuple).state == Blocked
    ensures log[n].action == Forward <==> GetsInAt(policies, log, n)
  {
    var t, v := log[n].job.tuple, log[n];
    assert PipelineRestarts.VerdictFollows(process, log[..n], v);
    if v.anew {
      FirstOfEntry(policies(t), See(v.job));
    } else {
      var ms := MarksOf(log[..n], t);
      StateIsLive(process, policies, log[..n], t);
      LiveIsForCause(policies(t), ms);
      LiveIsAfter(policies(t), ms);
      FinSeenIff(policies(t), Since(ms));
      ForwardAfterDropIff(policies(t), Live(policies(t), ms), See(v.job));
    }
  }

  lemma AfterDropIff(process: Pipeline.Process, policies: Policies, log: Log, t: FiveTuple, i: nat, n: nat)
    requires Judges(process, policies) && PipelineRestarts.Follows(process, log)
    requires i < n && IsOf(log, i, t) && IsOf(log, n, t) && log[i].action == Drop && DroppedBetween(log, t, i, n)
    ensures log[n].action == Forward <==> GetsInAt(policies, log, n)
  {
    StaysBlocked(process, policies, log, t, i, n);
    BlockedThenForwardIff(process, policies, log, n);
  }

  ghost predicate NoneGetsInAfter(policies: Policies, log: Log, t: FiveTuple, i: nat) {
    forall n :: i < n && IsOf(log, n, t) ==> !GetsInAt(policies, log, n)
  }

  lemma {:induction false} DroppedWhileNoneGetsIn(process: Pipeline.Process, policies: Policies, log: Log,
          t: FiveTuple, i: nat, n: nat)
    requires Judges(process, policies) && PipelineRestarts.Follows(process, log)
    requires IsOf(log, i, t) && log[i].action == Drop && NoneGetsInAfter(policies, log, t, i) && i < n <= |log|
    ensures DroppedBetween(log, t, i, n)
    decreases n
  {
    var m := n - 1;
    if m == i {
    } else {
      DroppedWhileNoneGetsIn(process, policies, log, t, i, m);
      if IsOf(log, m, t) {
        AfterDropIff(process, policies, log, t, i, m);
      }
    }
  }

  /** Blocking in one direction, on any log: after a drop all later packets of the flow are
      dropped exactly when none of them gets in, be it by reopening its entry or by coming
      when a table has forgotten the flow. */
  lemma LogBlockingIff(process: Pipeline.Process, policies: Policies, log: Log, t: FiveTuple, i: nat)
    requires Judges(process, policies) && PipelineRestarts.Follows(process, log)
    requires IsOf(log, i, t) && log[i].action == Drop
    ensures DroppedBetween(log, t, i, |log|) <==> NoneGetsInAfter(policies, log, t, i)
  {
    if DroppedBetween(log, t, i, |log|) {
      forall n | i < n && IsOf(log, n, t)
        ensures !GetsInAt(policies, log, n)
      {
        assert DroppedBetween(log, t, i, n);
        AfterDropIff(process, policies, log, t, i, n);
      }
    }
    if NoneGetsInAfter(policies, log, t, i) {
      DroppedWhileNoneGetsIn(process, policies, log, t, i, |log|);
    }
  }

  // ---------------------------------------------------------------- both directions

  /** The first packet of a flow from an index on. */
  ghost predicate IsFirst(log: Log, t: FiveTuple, k: nat, n: nat) {
    k <= n && IsOf(log, n, t) && forall p :: k <= p < n ==> !IsOf(log, p, t)
  }

  /** The application and the name that the flow holds with a packet, of those since its entry was
      created. */
  function HeldAt(policies: Policies, log: Log, n: nat): (AppType, string)
    requires n < |log|
  {
    var t := log[n].job.tuple;
    Held(policies(t), SinceEntry(MarksOf(log[..n], t), log[n].anew) + [See(log[n].job)])
  }

  /** Seen from the packets alone: the rules block what the flow holds with this packet. */
  predicate DropsAt(policies: Policies, log: Log, n: nat)
    requires n < |log|
  {
    var held := HeldAt(policies, log, n);
    policies(log[n].job.tuple)(held.0, held.1)
  }

  /** All packets of a flow from an index on are dropped. */
  ghost predicate DroppedFrom(log: Log, t: FiveTuple, k: nat) {
    forall n :: k <= n && IsOf(log, n, t) ==> log[n].action == Drop
  }

  /** Seen from the packets: the first one is dropped and none after it gets in. */
  ghost predicate KeptOut(policies: Policies, log: Log, t: FiveTuple, k: nat) {
    forall n :: IsFirst(log, t, k, n) ==> DropsAt(policies, log, n) && NoneGetsInAfter(policies, log, t, n)
  }

  lemma DropsAtIff(process: Pipeline.Process, policies: Policies, log: Log, n: nat)
    requires Judges(process, policies) && PipelineRestarts.Follows(process, log) && n < |log|
    ensures DropsAt(policies, log, n) <==> log[n].action == Drop
  {
    var t, v := log[n].job.tuple, log[n];
    var ms := MarksOf(log[..n], t);
    assert PipelineRestarts.VerdictFollows(process, log[..n], v);
    MetIsEntry(process, policies, log[..n], v);
    LiveIsAfter(policies(t), ms);
    EntryIsAfter(policies(t), ms, v.anew);
    var ps := SinceEntry(ms, v.anew) + [See(v.job)];
    DroppedIffHeldBlocked(policies(t), ps, |ps| - 1);
    assert ps[..|ps| - 1] == SinceEntry(ms, v.anew) && ps[..|ps|] == ps;
  }

  /** The packet before this one of its flow, if this one found its entry. */
  ghost predicate IsPrevious(log: Log, i: nat, n: nat) {
    i < n < |log| && !log[n].anew && IsOf(log, i, log[n].job.tuple)
    && forall p :: i < p < n ==> !IsOf(log, p, log[n].job.tuple)
  }

  /** The two cases in which the guards for getting in say it all: a packet with a new entry
      is dropped unless it is harmless by itself, and one whose predecessor was dropped
      unless it gets in. */
  lemma DropsAtCases(process: Pipeline.Process, policies: Policies, log: Log, n: nat)
    requires Judges(process, policies) && PipelineRestarts.Follows(process, log) && n < |log|
    ensures log[n].anew ==>
      (DropsAt(policies, log, n) <==> !HarmlessAlone(policies(log[n].job.tuple), See(log[n].job)))
    ensures forall i: nat :: IsPrevious(log, i, n) && log[i].action == Drop ==>
      (DropsAt(policies, log, n) <==> !GetsInAt(policies, log, n))
  {
    DropsAtIff(process, policies, log, n);
    if log[n].anew {
      BlockedThenForwardIff(process, policies, log, n);
    }
    forall i: nat | IsPrevious(log, i, n) && log[i].action == Drop
      ensures DropsAt(policies, log, n) <==> !GetsInAt(policies, log, n)
    {
      AfterDropIff(process, policies, log, log[n].job.tuple, i, n);
    }
  }

  lemma {:induction false} FirstExists(log: Log, t: FiveTuple, k: nat, n: nat) returns (f: nat)
    requires k <= n && IsOf(log, n, t)
    ensures f <= n && IsFirst(log, t, k, f)
    decreases n
  {
    if p :| k <= p < n && IsOf(log, p, t) {
      f := FirstExists(log, t, k, p);
    } else {
      f := n;
    }
  }

  lemma DroppedFromIff(process: Pipeline.Process, policies: Policies, log: Log, t: FiveTuple, k: nat)
    requires Judges(process, policies) && PipelineRestarts.Follows(process, log)
    ensures DroppedFrom(log, t, k) <==> KeptOut(policies, log, t, k)
  {
    if DroppedFrom(log, t, k) {
      forall n | IsFirst(log, t, k, n)
        ensures DropsAt(policies, log, n) && NoneGetsInAfter(policies, log, t, n)
      {
        DropsAtIff(process, policies, log, n);
        LogBlockingIff(process, policies, log, t, n);
      }
    }
    if KeptOut(policies, log, t, k) {
      forall n | k <= n && IsOf(log, n, t)
        ensures log[n].action == Drop
      {
        var f := FirstExists(log, t, k, n);
        DropsAtIff(process, policies, log, f);
        LogBlockingIff(process, policies, log, t, f);
      }
    }
  }

  /** All packets of a connection after an index are dropped, in either direction. */
  ghost predicate ConnectionStaysOut(log: Log, t: FiveTuple, i: nat) {
    DroppedFrom(log, t, i + 1) && DroppedFrom(log, t.Reverse(), i + 1)
  }

  /** Blocking of a whole connection, on any log: after a drop in one direction all later
      packets of both directions are dropped exactly when none of that direction gets in
      and the other direction is kept out by what its own packets say. */
  lemma ConnectionBlockingIff(process: Pipeline.Process, policies: Policies, log: Log, t: FiveTuple, i: nat)
    requires Judges(process, policies) && PipelineRestarts.Follows(process, log)
    requires IsOf(log, i, t) && log[i].action == Drop
    ensures ConnectionStaysOut(log, t, i) <==>
      NoneGetsInAfter(policies, log, t, i) && KeptOut(policies, log, t.Reverse(), i + 1)
  {
    LogBlockingIff(process, policies, log, t, i);
    DroppedFromIff(process, policies, log, t.Reverse(), i + 1);
    assert DroppedFrom(log, t, i + 1) <==> DroppedBetween(log, t, i, |log|);
  }

  /** No payload of the flow is ever classified. */
  ghost predicate NothingFound(log: Log, t: FiveTuple) {
    forall n :: 0 <= n < |log| && log[n].job.tuple == t ==> See(log[n].job).finding == None
  }

  lemma {:induction false} MarksHaveNoFinding(log: Log, t: FiveTuple)
    requires NothingFound(log, t)
    ensures forall k :: 0 <= k < |MarksOf(log, t)| ==> MarksOf(log, t)[k].p.finding == None
  {
    if log == [] {
    } else {
      var front := log[..|log| - 1];
      assert forall n :: 0 <= n < |front| ==> front[n] == log[n];
      MarksHaveNoFinding(front, t);
    }
  }

  /** The other direction of a blocked connection: a flow in whose packets nothing is ever
      found passes entirely, if the rules do not block its address, its port or what is
      unknown, and whatever happened to the opposite flow. */
  lemma UnfoundDirectionPasses(process: Pipeline.Process, policies: Policies, log: Log, t: FiveTuple, n: nat)
    requires Judges(process, policies) && PipelineRestarts.Follows(process, log)
    requires IsOf(log, n, t) && !policies(t)(Unknown, "")
    requires NothingFound(log, t)
    ensures log[n].action == Forward
  {
    var front, v := log[..n], log[n];
    assert forall k :: 0 <= k < |front| ==> front[k] == log[k];
    MarksHaveNoFinding(front, t);
    UnfoundStays(policies(t), MarksOf(front, t));
    assert PipelineRestarts.VerdictFollows(process, front, v);
    MetIsEntry(process, policies, front, v);
    UnfoundStep(policies(t), Entry(policies(t), MarksOf(front, t), v.anew), See(v.job));
  }

  // ---------------------------------------------------------------- a worker's runs

  /** The verdicts that a run of a worker reaches. */
  function LogOf(policies: Policies, es: seq<Event>): Log {
    if es == [] then []
    else
      var front, e := es[..|es| - 1], es[|es| - 1];
      match e
      case Idle(_) => LogOf(policies, front)
      case Packet(job, m) =>
        var T := Work(policies, front).table;
        LogOf(policies, front) +
        [Pipeline.Verdict(job, Process(policies(job.tuple), T, job.tuple, |job.data|, See(job), m).1,
            job.tuple !in T.connections)]
  }

  /** How many of the verdicts are this one. */
  function CountOf(log: Log, action: PacketAction): nat {
    if log == [] then 0
    else CountOf(log[..|log| - 1], action) + (if log[|log| - 1].action == action then 1 else 0)
  }

  lemma CountOneMore(log: Log, v: Pipeline.Verdict, action: PacketAction)
    ensures CountOf(log + [v], action) == CountOf(log, action) + (if v.action == action then 1 else 0)
  {
    assert (log + [v])[..|log|] == log;
  }

  /** The counters of a worker count its verdicts, each kind by itself. */
  lemma {:induction false} CountersCountVerdicts(policies: Policies, es: seq<Event>)
    ensures var w, log := Work(policies, es), LogOf(policies, es);
      w.processed == |log| && w.forwarded == CountOf(log, Forward) && w.dropped == CountOf(log, Drop)
  {
    if es == [] {
    } else {
      var front, e := es[..|es| - 1], es[|es| - 1];
      CountersCountVerdicts(policies, front);
      if e.Packet? {
        var v := LogOf(policies, es)[|LogOf(policies, front)|];
        CountOneMore(LogOf(policies, front), v, Forward);
        CountOneMore(LogOf(policies, front), v, Drop);
      }
    }
  }

  predicate EntryIs(T: ConnectionTable.Table, t: FiveTuple, f: Flow) {
    t in T.connections ==> T.connections[t].flow == f
  }

  lemma PacketEntryIs(policies: Policies, T: ConnectionTable.Table, log: Log, job: PacketJob, m: Moment, t: FiveTuple)
    requires EntryIs(T, t, PipelineRestarts.StateOf(Judge(policies), log, t))
    ensures var (U, action) := Process(policies(job.tuple), T, job.tuple, |job.data|, See(job), m);
      var v := Pipeline.Verdict(job, action, job.tuple !in T.connections);
      && EntryIs(U, t, PipelineRestarts.StateOf(Judge(policies), log + [v], t))
      && (t == job.tuple ==> PipelineRestarts.VerdictFollows(Judge(policies), log, v))
  {
    var (U, action) := Process(policies(job.tuple), T, job.tuple, |job.data|, See(job), m);
    var v := Pipeline.Verdict(job, action, job.tuple !in T.connections);
    PipelineRestarts.StateOneMore(Judge(policies), log, v, t);
    if t == job.tuple {
      ProcessIsStep(policies(t), T, t, |job.data|, See(job), m);
    } else {
      ProcessIsolates(policies(job.tuple), T, job.tuple, |job.data|, See(job), m, t);
    }
  }

  /** Every verdict of a worker is explained by the packets since its entry was created, and
      every entry is the state they lead to. */
  lemma {:induction false} WorkerFollows(policies: Policies, es: seq<Event>)
    ensures PipelineRestarts.Follows(Judge(policies), LogOf(policies, es))
    ensures forall t :: EntryIs(Work(policies, es).table, t,
      PipelineRestarts.StateOf(Judge(policies), LogOf(policies, es), t))
  {
    if es == [] {
    } else {
      var front, e := es[..|es| - 1], es[|es| - 1];
      WorkerFollows(policies, front);
      var T, log := Work(policies, front).table, LogOf(policies, front);
      match e
      case Idle(_) =>
      case Packet(job, m) =>
        forall t
          ensures EntryIs(Work(policies, es).table, t,
            PipelineRestarts.StateOf(Judge(policies), LogOf(policies, es), t))
        {
          PacketEntryIs(policies, T, log, job, m, t);
        }
        PacketEntryIs(policies, T, log, job, m, job.tuple);
        PipelineRestarts.FollowsOneMore(Judge(policies), log, LogOf(policies, es)[|log|]);
    }
  }

  /** Blocking over a worker's run, evictions and cleanups included. */
  lemma WorkerBlockingIff(policies: Policies, es: seq<Event>, t: FiveTuple, i: nat)
    requires IsOf(LogOf(policies, es), i, t) && LogOf(policies, es)[i].action == Drop
    ensures DroppedBetween(LogOf(policies, es), t, i, |LogOf(policies, es)|) <==>
      NoneGetsInAfter(policies, LogOf(policies, es), t, i)
  {
    WorkerFollows(policies, es);
    LogBlockingIff(Judge(policies), policies, LogOf(policies, es), t, i);
  }

  lemma {:induction false} SinceIsSinceCreation(policies: Policies, es: seq<Event>, t: FiveTuple)
    ensures Since(MarksOf(LogOf(policies, es), t)) == SeeAll(SinceCreation(policies, es, t))
  {
    if es == [] {
    } else {
      var front, e := es[..|es| - 1], es[|es| - 1];
      SinceIsSinceCreation(policies, front, t);
      if e.Packet? {
        var log := LogOf(policies, front);
        var v := LogOf(policies, es)[|log|];
        assert LogOf(policies, es) == log + [v];
        MarksOneMore(log, v, t);
        if e.job.tuple == t {
          var ms := MarksOf(log, t);
          assert (ms + [Marked(See(e.job), v.anew)])[..|ms|] == ms;
        }
      }
    }
  }

  /** Over every run of a worker a live entry is the state that the packets of its tuple
      since its creation lead to from a fresh one. */
  lemma LiveEntryIsAfter(policies: Policies, es: seq<Event>, t: FiveTuple)
    requires t in Work(policies, es).table.connections
    ensures Work(policies, es).table.connections[t].flow ==
      After(policies(t), FRESH, SeeAll(SinceCreation(policies, es, t)))
  {
    WorkerFollows(policies, es);
    assert EntryIs(Work(policies, es).table, t, PipelineRestarts.StateOf(Judge(policies), LogOf(policies, es), t));
    StateIsLive(Judge(policies), policies, LogOf(policies, es), t);
    LiveIsAfter(policies(t), MarksOf(LogOf(policies, es), t));
    SinceIsSinceCreation(policies, es, t);
  }

  /** When an entry goes: a cleanup finds it CLOSED or last seen 301 seconds ago, or a
      packet of a tuple without an entry evicts it. */
  lemma EntryGoesIff(policies: Policies, w: Worker, e: Event, t: FiveTuple)
    requires t in w.table.connections
    ensures t !in React(policies, w, e).table.connections <==>
      match e
      case Idle(now) =>
        var c := w.table.connections[t];
        c.flow.state == Closed || now >= c.lastSeen + 301_000_000_000
      case Packet(job, m) => job.tuple != t && job.tuple !in w.table.connections && m.victim == Some(t)
  {
    match e
    case Idle(now) => ConnectionTable.StaleIff(w.table.connections[t], IDLE_TIMEOUT, now);
    case Packet(job, m) =>
      if job.tuple == t {
        ProcessIsStep(policies(t), w.table, t, |job.data|, See(job), m);
      } else {
        ProcessIsolates(policies(job.tuple), w.table, job.tuple, |job.data|, See(job), m, t);
      }
  }

  /** A blocked flow that pauses for 301 seconds is forgotten: after a cleanup its next
      packet is judged by itself, without closing anything. */
  lemma ForgottenFlowGetsIn(policies: Policies, es: seq<Event>, job: PacketJob, m: Moment, now: nat)
    requires job.tuple in Work(policies, es).table.connections
    requires now >= Work(policies, es).table.connections[job.tuple].lastSeen + 301_000_000_000
    ensures var T := Work(policies, es + [Idle(now)]).table;
      && job.tuple !in T.connections
      && (Process(policies(job.tuple), T, job.tuple, |job.data|, See(job), m).1 == Forward <==>
            HarmlessAlone(policies(job.tuple), See(job)))
  {
    var all := es + [Idle(now)];
    assert all[..|es|] == es;
    EntryGoesIff(policies, Work(policies, es), Idle(now), job.tuple);
    ProcessIsStep(policies(job.tuple), Work(policies, all).table, job.tuple, |job.data|, See(job), m);
    FirstOfEntry(policies(job.tuple), See(job));
  }
}
