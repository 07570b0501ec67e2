/** How a shutdown can go: what the writer still writes, and how far the other threads can
    be brought after it has left. */
module PipelineStop {
  import opened Types
  import opened Pipeline
  import opened PipelineOrder
  import opened PipelineAccounts
  import opened PipelineProgress
  import opened PipelineRuns
  import opened PipelineMemory

  /** What the workers have handed over: written, in the writer's hand or queued for it. */
  function Handed(s: State): seq<PacketJob> {
    s.output.written + InHand(s.output.place) + s.output.queue.queue
  }

  /** How many jobs are still on their way to the output queue. */
  function Upstream(s: State): nat {
    Pending(s) + Sum(PushLoad, s.workers)
  }

  // ---------------------------------------------------------------- what the writer still writes

  /** What had been handed over stays so, and the writer does not leave before it is
      written; verdicts stay. */
  ghost predicate Later(s: State, u: State) {
    && Handed(s) <= Handed(u) && (u.output.place == Exited ==> Handed(s) <= u.output.written)
    && s.log.dropped <= u.log.dropped && s.log.verdicts <= u.log.verdicts
    && (ReaderDone(s) ==> u.reader == s.reader)
  }

  predicate OnlyQueued(o: Output, o1: Output) {
    o1.place == o.place && o1.written == o.written && o.queue.queue <= o1.queue.queue
  }

  lemma QueuedIsLater(s: State, u: State, v: State)
    requires Later(s, u) && OnlyQueued(u.output, v.output)
    requires u.log.dropped <= v.log.dropped && u.log.verdicts <= v.log.verdicts
    requires ReaderDone(u) ==> v.reader == u.reader
    ensures Later(s, v)
  {
    var o, o1 := u.output, v.output;
    assert o1.queue.queue == o.queue.queue + o1.queue.queue[|o.queue.queue|..];
    assert Handed(v) == Handed(u) + o1.queue.queue[|o.queue.queue|..];
  }

  lemma WriteIsLater(s: State, u: State)
    requires Later(s, u) && WriteEnabled(u)
    ensures Later(s, DoWrite(u))
  {
    var o := u.output;
    WriterTurns(u);
    if o.place.AtHead? && DoWrite(u).output.place == Exited {
      assert Handed(u) == o.written;
    }
  }

  lemma WorkIsLater(cfg: Config, s: State, u: State, j: nat, gone: set<FiveTuple>)
    requires Later(s, u) && WorkEnabled(cfg, u, j, gone)
    ensures Later(s, DoWork(cfg, u, j, gone))
  {
    QueuedIsLater(s, u, DoWork(cfg, u, j, gone));
  }

  lemma StepIsLater(cfg: Config, s: State, u: State, turn: Turn)
    requires Later(s, u) && Enabled(cfg, u, turn)
    ensures Later(s, Next(cfg, u, turn))
  {
    match turn
    case Write => WriteIsLater(s, u);
    case Work(j, gone) => WorkIsLater(cfg, s, u, j, gone);
    case Stop => StopKeepsRest(cfg, u); QueuedIsLater(s, u, DoStop(cfg, u));
    case _ => QueuedIsLater(s, u, Next(cfg, u, turn));
  }

  lemma {:induction false} PathIsLater(cfg: Config, s: State, u: State, turns: seq<Turn>, v: State)
    requires Later(s, u) && Path(cfg, u, turns, v)
    ensures Later(s, v)
    decreases |turns|
  {
    if turns == [] {
    } else {
      StepIsLater(cfg, s, u, turns[0]);
      PathIsLater(cfg, s, Next(cfg, u, turns[0]), turns[1..], v);
    }
  }

  /** The writer leaves nothing behind that it was handed before it left. */
  lemma LeadsLater(cfg: Config, s: State, v: State)
    requires Leads(cfg, s, v) && s.output.place != Exited
    ensures Later(s, v)
  {
    var turns :| Path(cfg, s, turns, v);
    PathIsLater(cfg, s, s, turns, v);
  }

  // ---------------------------------------------------------------- doomed states

  /** The worker will never get rid of its job. */
  predicate Doomed(cfg: Config, s: State, j: nat) {
    OutputStuck(cfg, s) && j < |s.workers| && s.workers[j].place.Pushing?
  }

  lemma DoomedOutputStays(cfg: Config, s: State, j: nat, turn: Turn)
    requires Sound(cfg, s) && Doomed(cfg, s, j) && Enabled(cfg, s, turn)
    ensures OutputStuck(cfg, Next(cfg, s, turn))
  {
    assert WorkerInPhase(s.phase, j, s.workers[j]);
  }

  lemma DoomedWorkerStays(cfg: Config, s: State, j: nat, turn: Turn)
    requires Sound(cfg, s) && Doomed(cfg, s, j) && Enabled(cfg, s, turn)
    ensures j < |Next(cfg, s, turn).workers| && Next(cfg, s, turn).workers[j].place.Pushing?
  {
  }

  lemma {:induction false} PathStaysDoomed(cfg: Config, s: State, j: nat, turns: seq<Turn>, u: State)
    requires cfg.Valid() && Sound(cfg, s) && Doomed(cfg, s, j) && Path(cfg, s, turns, u)
    ensures Doomed(cfg, u, j) && u.phase != Stopped
    decreases |turns|
  {
    if turns == [] {
      assert WorkerInPhase(s.phase, j, s.workers[j]);
    } else {
      DoomedOutputStays(cfg, s, j, turns[0]);
      DoomedWorkerStays(cfg, s, j, turns[0]);
      StepRoutes(cfg, s, turns[0]);
      StepInPhase(cfg, s, turns[0]);
      PathStaysDoomed(cfg, Next(cfg, s, turns[0]), j, turns[1..], u);
    }
  }

  // ---------------------------------------------------------------- letting threads run

  function TurnOf(thread: Thread): Turn {
    match thread
    case TheReader => Read
    case TheBalancer(i) => Balance(i)
    case TheWorker(j) => Work(j, {})
    case TheWriter => Write
    case TheStopper => Stop
  }

  /** A wait that ends without a job although the worker's flag is still set. */
  predicate IdlesOn(s: State, thread: Thread) {
    thread.TheWorker? && thread.j < |s.workers| && s.workers[thread.j].running
    && s.workers[thread.j].place == Waiting && s.workers[thread.j].input.queue == []
  }

  /** Such turns and no others: the tables lose nothing, and no worker that goes on has to
      wait in vain. */
  ghost predicate QuietPath(cfg: Config, s: State, threads: seq<Thread>, u: State)
    decreases |threads|
  {
    if threads == [] then s == u
    else
      && Enabled(cfg, s, TurnOf(threads[0])) && !IdlesOn(s, threads[0])
      && QuietPath(cfg, Next(cfg, s, TurnOf(threads[0])), threads[1..], u)
  }

  ghost predicate Quietly(cfg: Config, s: State, u: State) {
    exists threads :: QuietPath(cfg, s, threads, u)
  }

  lemma QuietNowhere(cfg: Config, s: State)
    ensures Quietly(cfg, s, s)
  {
    assert QuietPath(cfg, s, [], s);
  }

  lemma QuietFirst(cfg: Config, s: State, thread: Thread, u: State)
    requires Enabled(cfg, s, TurnOf(thread)) && !IdlesOn(s, thread)
    requires Quietly(cfg, Next(cfg, s, TurnOf(thread)), u)
    ensures Quietly(cfg, s, u)
  {
    var threads :| QuietPath(cfg, Next(cfg, s, TurnOf(thread)), threads, u);
    var all := [thread] + threads;
    assert all[0] == thread && all[1..] == threads;
    assert QuietPath(cfg, s, all, u);
  }

  lemma QuietByOne(cfg: Config, s: State, thread: Thread)
    requires Enabled(cfg, s, TurnOf(thread)) && !IdlesOn(s, thread)
    ensures Quietly(cfg, s, Next(cfg, s, TurnOf(thread)))
  {
    QuietNowhere(cfg, Next(cfg, s, TurnOf(thread)));
    QuietFirst(cfg, s, thread, Next(cfg, s, TurnOf(thread)));
  }

  lemma {:induction false} QuietPathOn(cfg: Config, s: State, threads: seq<Thread>, u: State, v: State)
    requires QuietPath(cfg, s, threads, u) && Quietly(cfg, u, v)
    ensures Quietly(cfg, s, v)
    decreases |threads|
  {
    if threads == [] {
    } else {
      QuietPathOn(cfg, Next(cfg, s, TurnOf(threads[0])), threads[1..], u, v);
      QuietFirst(cfg, s, threads[0], v);
    }
  }

  lemma QuietOn(cfg: Config, s: State, u: State, v: State)
    requires Quietly(cfg, s, u) && Quietly(cfg, u, v)
    ensures Quietly(cfg, s, v)
  {
    var threads :| QuietPath(cfg, s, threads, u);
    QuietPathOn(cfg, s, threads, u, v);
  }

  lemma {:induction false} QuietPathLeads(cfg: Config, s: State, threads: seq<Thread>, u: State)
    requires QuietPath(cfg, s, threads, u)
    ensures Leads(cfg, s, u)
    decreases |threads|
  {
    if threads == [] {
      LeadsNowhere(cfg, s);
    } else {
      QuietPathLeads(cfg, Next(cfg, s, TurnOf(threads[0])), threads[1..], u);
      LeadsFirst(cfg, s, TurnOf(threads[0]), u);
    }
  }

  lemma QuietLeads(cfg: Config, s: State, u: State)
    requires Quietly(cfg, s, u)
    ensures Leads(cfg, s, u)
  {
    var threads :| QuietPath(cfg, s, threads, u);
    QuietPathLeads(cfg, s, threads, u);
  }

  lemma QuietReaches(cfg: Config, s: State, u: State)
    requires Reachable(cfg, s) && Quietly(cfg, s, u)
    ensures Reachable(cfg, u)
  {
    QuietLeads(cfg, s, u);
    LeadsReaches(cfg, s, u);
  }

  lemma {:induction false} QuietPathKeeps(cfg: Config, s: State, threads: seq<Thread>, u: State, t: FiveTuple)
    requires cfg.Valid() && Reachable(cfg, s) && QuietPath(cfg, s, threads, u) && Keeps(cfg, s, t)
    ensures Keeps(cfg, u, t)
    decreases |threads|
  {
    if threads == [] {
    } else {
      StepKeeps(cfg, s, TurnOf(threads[0]), t);
      NextIsReachable(cfg, s, TurnOf(threads[0]));
      QuietPathKeeps(cfg, Next(cfg, s, TurnOf(threads[0])), threads[1..], u, t);
    }
  }

  /** On such a path kept flows stay kept. */
  lemma QuietKeeps(cfg: Config, s: State, u: State, t: FiveTuple)
    requires cfg.Valid() && Reachable(cfg, s) && Quietly(cfg, s, u) && Keeps(cfg, s, t)
    ensures Keeps(cfg, u, t)
  {
    var threads :| QuietPath(cfg, s, threads, u);
    QuietPathKeeps(cfg, s, threads, u, t);
  }

  /** Which threads get turns. A schedule may hold back workers once so many jobs are handed
      over, of all flows or of one, and the stopper; or the reader once so many jobs are
      made; or let only those threads go on whose flag is cleared. */
  datatype Schedule =
    | UpTo(limit: nat, stopper: bool)
    | FlowUpTo(flow: FiveTuple, count: nat)
    | Reading(made: nat)
    | OnlyLeaving

  predicate Allowed(schedule: Schedule, s: State, thread: Thread) {
    match schedule
    case UpTo(limit, stopper) =>
      if thread == TheStopper then stopper else WaitsToPush(s, thread) ==> |Handed(s)| < limit
    case FlowUpTo(t, count) =>
      thread != TheStopper && (WaitsToPush(s, thread) && s.workers[thread.j].place.job.tuple == t ==>
          |Of(Handed(s), t)| < count)
    case Reading(made) =>
      thread != TheStopper && (thread == TheReader ==> s.reader.hand.Some? || |s.reader.created| < made)
    case OnlyLeaving =>
      match thread
      case TheBalancer(i) => i < |s.balancers| && !s.balancers[i].running
      case TheWorker(j) => j < |s.workers| && !s.workers[j].running
      case TheStopper => true
      case _ => false
  }

  predicate WaitsToPush(s: State, thread: Thread) {
    thread.TheWorker? && thread.j < |s.workers| && s.workers[thread.j].place.Pushing?
  }

  /** A thread that is at no job. */
  predicate AtRest(place: Place, queue: seq<PacketJob>) {
    place == AtHead || place == Exited || (place == Waiting && queue == [])
  }

  predicate Idle(s: State) {
    && (forall i :: 0 <= i < |s.balancers| ==> AtRest(s.balancers[i].place, s.balancers[i].input.queue))
    && (forall j :: 0 <= j < |s.workers| ==> AtRest(s.workers[j].place, s.workers[j].input.queue))
  }

  predicate Respects(schedule: Schedule, s: State, u: State) {
    match schedule
    case UpTo(limit, stopper) => (|Handed(s)| <= limit ==> |Handed(u)| <= limit) && (stopper || u.phase == s.phase)
    case FlowUpTo(t, count) => (|Of(Handed(s), t)| <= count ==> |Of(Handed(u), t)| <= count) && u.phase == s.phase
    case Reading(made) => (|s.reader.created| <= made ==> |u.reader.created| <= made) && u.phase == s.phase
    case OnlyLeaving => Idle(s) ==> Idle(u)
  }

  /** What no schedule changes. */
  predicate Unswayed(s: State, u: State) {
    && (s.phase != Running ==> u.phase != Running) && (ReaderDone(s) ==> u.reader == s.reader)
    && (s.output.place == Exited ==> u.output.place == Exited && u.output.written == s.output.written)
  }

  predicate Onward(schedule: Schedule, s: State, u: State) {
    Unswayed(s, u) && Respects(schedule, s, u)
  }

  lemma WorkRespects(cfg: Config, schedule: Schedule, s: State, j: nat)
    requires WorkEnabled(cfg, s, j, {}) && Allowed(schedule, s, TheWorker(j)) && !schedule.OnlyLeaving?
    ensures Respects(schedule, s, DoWork(cfg, s, j, {}))
  {
    var u := DoWork(cfg, s, j, {});
    if s.workers[j].place.Pushing? && !s.output.queue.shut {
      assert Handed(u) == Handed(s) + [s.workers[j].place.job];
      if schedule.FlowUpTo? {
        OfOneMore(Handed(s), s.workers[j].place.job, schedule.flow);
      }
    } else {
      assert Handed(u) == Handed(s);
    }
  }

  lemma BalancerLeavingRespects(cfg: Config, s: State, i: nat)
    requires BalanceEnabled(cfg, s, i) && !s.balancers[i].running && Idle(s)
    ensures Idle(DoBalance(cfg, s, i))
  {
  }

  lemma WorkerLeavingRespects(cfg: Config, s: State, j: nat)
    requires WorkEnabled(cfg, s, j, {}) && !s.workers[j].running && Idle(s)
    ensures Idle(DoWork(cfg, s, j, {}))
  {
  }

  lemma StopStaysIdle(cfg: Config, s: State)
    requires StopEnabled(cfg, s) && Idle(s)
    ensures Idle(DoStop(cfg, s))
  {
  }

  lemma LeavingRespects(cfg: Config, s: State, thread: Thread)
    requires Enabled(cfg, s, TurnOf(thread)) && Allowed(OnlyLeaving, s, thread)
    ensures Respects(OnlyLeaving, s, Next(cfg, s, TurnOf(thread)))
  {
    if Idle(s) {
      match thread
      case TheBalancer(i) => BalancerLeavingRespects(cfg, s, i);
      case TheWorker(j) => WorkerLeavingRespects(cfg, s, j);
      case _ => StopStaysIdle(cfg, s);
    }
  }

  lemma OthersRespect(cfg: Config, schedule: Schedule, s: State, thread: Thread)
    requires Enabled(cfg, s, TurnOf(thread))
    requires Allowed(schedule, s, thread) && !schedule.OnlyLeaving? && !thread.TheWorker?
    ensures Respects(schedule, s, Next(cfg, s, TurnOf(thread)))
  {
    if thread == TheWriter {
      WriterTurns(s);
    }
    assert Handed(Next(cfg, s, TurnOf(thread))) == Handed(s);
  }

  lemma AlwaysUnswayed(cfg: Config, s: State, thread: Thread)
    requires Enabled(cfg, s, TurnOf(thread))
    ensures Unswayed(s, Next(cfg, s, TurnOf(thread)))
  {
  }

  lemma GoesOnward(cfg: Config, schedule: Schedule, s: State, thread: Thread)
    requires Enabled(cfg, s, TurnOf(thread)) && Allowed(schedule, s, thread)
    ensures Onward(schedule, s, Next(cfg, s, TurnOf(thread)))
  {
    AlwaysUnswayed(cfg, s, thread);
    if schedule.OnlyLeaving? {
      LeavingRespects(cfg, s, thread);
    } else if thread.TheWorker? {
      WorkRespects(cfg, schedule, s, thread.j);
    } else {
      OthersRespect(cfg, schedule, s, thread);
    }
  }

  lemma OnwardOn(schedule: Schedule, s: State, u: State, v: State)
    requires Onward(schedule, s, u) && Onward(schedule, u, v)
    ensures Onward(schedule, s, v)
  {
  }

  lemma CirclingStaysAllowed(cfg: Config, schedule: Schedule, s: State, thread: Thread)
    requires Enabled(cfg, s, TurnOf(thread)) && Allowed(schedule, s, thread) && Circles(s, thread)
    ensures Allowed(schedule, Next(cfg, s, TurnOf(thread)), thread)
  {
  }

  /** A ready thread lowers the weight within two turns. */
  lemma ReadyMoves(cfg: Config, schedule: Schedule, s: State, thread: Thread) returns (u: State)
    requires cfg.Valid() && Reachable(cfg, s) && Ready(cfg, s, thread) && Allowed(schedule, s, thread)
    ensures Quietly(cfg, s, u) && Onward(schedule, s, u) && 0 <= Weight(cfg, u) < Weight(cfg, s)
  {
    var turn := TurnOf(thread);
    ReachedIsSound(cfg, s);
    ReadyIsAble(cfg, s, thread);
    StepWeighs(cfg, s, turn);
    GoesOnward(cfg, schedule, s, thread);
    QuietByOne(cfg, s, thread);
    u := Next(cfg, s, turn);
    if Circles(s, thread) {
      u := SecondMoves(cfg, schedule, s, thread);
    }
  }

  lemma SecondMoves(cfg: Config, schedule: Schedule, s: State, thread: Thread) returns (u: State)
    requires cfg.Valid() && Reachable(cfg, s) && Ready(cfg, s, thread) && Allowed(schedule, s, thread)
    requires Circles(s, thread) && Enabled(cfg, s, TurnOf(thread))
    ensures Quietly(cfg, s, u) && Onward(schedule, s, u)
    ensures 0 <= Weight(cfg, u) < Weight(cfg, Next(cfg, s, TurnOf(thread)))
  {
    var turn := TurnOf(thread);
    var v := Next(cfg, s, turn);
    RoundMakesHot(cfg, s, turn);
    CirclingStaysAllowed(cfg, schedule, s, thread);
    GoesOnward(cfg, schedule, s, thread);
    QuietByOne(cfg, s, thread);
    NextIsReachable(cfg, s, turn);
    u := HotMoves(cfg, schedule, v, thread);
    QuietOn(cfg, s, v, u);
    OnwardOn(schedule, s, v, u);
  }

  lemma HotMoves(cfg: Config, schedule: Schedule, s: State, thread: Thread) returns (u: State)
    requires cfg.Valid() && Reachable(cfg, s) && Hot(cfg, s, thread) && Allowed(schedule, s, thread)
    ensures Quietly(cfg, s, u) && Onward(schedule, s, u) && 0 <= Weight(cfg, u) < Weight(cfg, s)
  {
    var turn := TurnOf(thread);
    ReachedIsSound(cfg, s);
    ReadyIsAble(cfg, s, thread);
    StepWeighs(cfg, s, turn);
    GoesOnward(cfg, schedule, s, thread);
    QuietByOne(cfg, s, thread);
    u := Next(cfg, s, turn);
  }

  /** No thread that the schedule allows is ready. */
  ghost predicate Exhausted(cfg: Config, schedule: Schedule, s: State) {
    forall thread :: Allowed(schedule, s, thread) ==> !Ready(cfg, s, thread)
  }

  lemma NotReady(cfg: Config, schedule: Schedule, s: State, thread: Thread)
    requires Exhausted(cfg, schedule, s) && Allowed(schedule, s, thread)
    ensures !Ready(cfg, s, thread)
  {
  }

  lemma {:induction false} Exhaust(cfg: Config, schedule: Schedule, s: State) returns (u: State)
    requires cfg.Valid() && Reachable(cfg, s) && 0 <= Weight(cfg, s)
    ensures Quietly(cfg, s, u) && Onward(schedule, s, u) && Exhausted(cfg, schedule, u)
    decreases Weight(cfg, s)
  {
    if thread :| Allowed(schedule, s, thread) && Ready(cfg, s, thread) {
      var v := ReadyMoves(cfg, schedule, s, thread);
      QuietReaches(cfg, s, v);
      u := Exhaust(cfg, schedule, v);
      QuietOn(cfg, s, v, u);
      OnwardOn(schedule, s, v, u);
    } else {
      u := s;
      QuietNowhere(cfg, s);
    }
  }

  /** Under any schedule the engine comes to a rest. */
  lemma RunsUntilExhausted(cfg: Config, schedule: Schedule, s: State) returns (u: State)
    requires cfg.Valid() && Reachable(cfg, s)
    ensures Reachable(cfg, u) && Quietly(cfg, s, u) && Onward(schedule, s, u) && Exhausted(cfg, schedule, u)
  {
    ReachedIsSound(cfg, s);
    WeightIsNatural(cfg, s);
    u := Exhaust(cfg, schedule, s);
    QuietReaches(cfg, s, u);
  }

  // ---------------------------------------------------------------- the writer leaves first

  function WriterRank(o: Output): nat {
    4 * |o.queue.queue| +
    match o.place
    case AtHead => 2
    case Waiting => if o.queue.queue == [] then 3 else 1
    case Holding(_) => 3
    case _ => 0
  }

  /** Alone, the writer writes all it has been handed, and leaves. */
  lemma {:induction false} WriterLeaves(cfg: Config, s: State) returns (u: State)
    requires !s.running && !s.output.place.Pushing? && (s.output.place == Exited ==> s.output.queue.queue == [])
    ensures Quietly(cfg, s, u) && u == s.(output := u.output)
    ensures u.output == s.output.(queue := s.output.queue.(queue := []), place := Exited, written := Handed(s))
    decreases WriterRank(s.output)
  {
    if s.output.place == Exited {
      u := s;
      QuietNowhere(cfg, s);
    } else {
      WriterTurns(s);
      u := WriterLeaves(cfg, DoWrite(s));
      QuietFirst(cfg, s, TheWriter, u);
    }
  }

  /** `stop` begins, and the writer is the first to leave. */
  lemma StopEarly(cfg: Config, s: State) returns (u: State)
    requires cfg.Valid() && Reachable(cfg, s) && s.phase == Running && ReaderDone(s)
    ensures Reachable(cfg, u) && Quietly(cfg, s, u)
    ensures u.phase == StopBalancer(0, Clear) && u.log == s.log && u.reader == s.reader
    ensures u.balancers == s.balancers && u.workers == s.workers
    ensures u.output.place == Exited && u.output.written == Handed(s) && u.output.queue.queue == []
  {
    ReachedIsSound(cfg, s);
    var v := DoStop(cfg, s);
    QuietByOne(cfg, s, TheStopper);
    assert v.output == s.output && s.output.place != Exited;
    u := WriterLeaves(cfg, v);
    QuietOn(cfg, s, v, u);
    QuietReaches(cfg, s, u);
  }

  /** With the writer gone and all flags of balancers and workers still set, either all
      upstream jobs get as far as the output queue or a worker waits for it for ever. */
  lemma ExhaustedUpstream(cfg: Config, limit: nat, s: State) returns (j: nat)
    requires Sound(cfg, s) && Exhausted(cfg, UpTo(limit, false), s) && |Handed(s)| < limit
    requires s.phase == StopBalancer(0, Clear) && s.output.place == Exited
    ensures Settled(s) || Doomed(cfg, s, j)
  {
    j := 0;
    if k :| 0 <= k < |s.workers| && !WorkerEmpty(s.workers[k]) {
      j := k;
      if !Doomed(cfg, s, j) {
        assert WorkerInPhase(s.phase, j, s.workers[j]);
        var thread := WorkerReady(cfg, s, j);
        assert Allowed(UpTo(limit, false), s, thread);
      }
    } else if i :| 0 <= i < |s.balancers| && !BalancerEmpty(s.balancers[i]) {
      assert BalancerInPhase(s.phase, i, s.balancers[i]) && BalancerRouted(cfg, i, s.balancers[i]);
      if s.balancers[i].place.Holding? {
        assert WorkerEmpty(s.workers[cfg.workerOf(s.balancers[i].place.job.tuple)]);
      }
      var thread := BalancerReady(cfg, s, i);
    }
  }

  /** More than can ever be handed over. */
  function NoLimit(cfg: Config): nat {
    |Created(cfg.input)| + 1
  }

  lemma HandedIsWithin(cfg: Config, s: State)
    requires cfg.Valid() && Reachable(cfg, s)
    ensures |Handed(s)| < NoLimit(cfg)
    ensures |s.reader.created| == |Handed(s)| + Upstream(s) + s.log.dropped
    ensures |s.reader.created| <= |Created(cfg.input)|
    ensures s.reader.unread == [] ==> s.reader.created == Created(cfg.input)
    ensures s.log.forwarded == |Handed(s)| + Sum(PushLoad, s.workers)
  {
    ReachedIsBalanced(cfg, s);
    ReachedIsFaithful(cfg, s, FiveTuple(0, 0, 0, 0, 0));
    assert s.reader.created + Created(s.reader.unread) == Created(cfg.input);
  }

  /** `stop` can begin in such a way that the writer leaves with what has been handed over,
      and everything else gets to the output queue or a worker waits for ever. */
  lemma StopAfterWriter(cfg: Config, s: State) returns (u: State, j: nat)
    requires cfg.Valid() && Reachable(cfg, s) && s.phase == Running && ReaderDone(s)
    ensures Reachable(cfg, u) && Quietly(cfg, s, u) && u.phase == StopBalancer(0, Clear) && u.reader == s.reader
    ensures u.output.place == Exited && u.output.written == Handed(s)
    ensures Settled(u) || Doomed(cfg, u, j)
  {
    var v := StopEarly(cfg, s);
    u := RunsUntilExhausted(cfg, UpTo(NoLimit(cfg), false), v);
    QuietOn(cfg, s, v, u);
    HandedIsWithin(cfg, u);
    ReachedIsSound(cfg, u);
    j := ExhaustedUpstream(cfg, NoLimit(cfg), u);
  }

  /** And from there it ends, done or deadlocked. */
  lemma StopRunsToItsEnd(cfg: Config, s: State) returns (u: State)
    requires cfg.Valid() && Reachable(cfg, s) && s.phase != Running && s.output.place == Exited && ReaderDone(s)
    ensures Reachable(cfg, u) && Quietly(cfg, s, u) && (u.phase == Stopped || Deadlocked(cfg, u))
    ensures u.output.written == s.output.written && u.reader == s.reader
  {
    u := RunsUntilExhausted(cfg, UpTo(NoLimit(cfg), true), s);
    HandedIsWithin(cfg, u);
    ReachedIsSound(cfg, u);
    if u.phase != Stopped && !Deadlocked(cfg, u) {
      var thread := StoppingReady(cfg, u);
      assert Allowed(UpTo(NoLimit(cfg), true), u, thread);
    }
  }

  lemma DoomedDeadlocks(cfg: Config, s: State, j: nat) returns (u: State)
    requires cfg.Valid() && Reachable(cfg, s) && s.phase != Running && ReaderDone(s) && Doomed(cfg, s, j)
    ensures Quietly(cfg, s, u) && Deadlocked(cfg, u)
  {
    u := StopRunsToItsEnd(cfg, s);
    ReachedIsSound(cfg, s);
    QuietLeads(cfg, s, u);
    var turns :| Path(cfg, s, turns, u);
    PathStaysDoomed(cfg, s, j, turns, u);
  }
}
