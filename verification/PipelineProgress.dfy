/** The engine goes on: on every run only so many steps move anything, and on every run
    that gives each thread its turns the engine drains, and `stop` completes unless it is
    deadlocked. */
module PipelineProgress {
  import opened Types
  import opened Pipeline
  import PipelineOrder
  import PipelineAccounts

  // ---------------------------------------------------------------- threads and turns

  datatype Thread = TheReader | TheBalancer(i: nat) | TheWorker(j: nat) | TheWriter | TheStopper

  function ThreadOf(turn: Turn): Thread {
    match turn
    case Read => TheReader
    case Balance(i) => TheBalancer(i)
    case Work(j, _) => TheWorker(j)
    case Write => TheWriter
    case Stop => TheStopper
  }

  /** The thread can take a turn. */
  predicate Able(cfg: Config, s: State, thread: Thread) {
    match thread
    case TheReader => ReadEnabled(cfg, s)
    case TheBalancer(i) => BalanceEnabled(cfg, s, i)
    case TheWorker(j) => WorkEnabled(cfg, s, j, {})
    case TheWriter => WriteEnabled(s)
    case TheStopper => StopEnabled(cfg, s)
  }

  /** A thread in its loop that will only go round: it looks at its flag and goes on to
      wait, or its wait ends without a job. */
  predicate GoesRound(place: Place, queue: seq<PacketJob>, stays: bool) {
    (place == AtHead && stays) || (place == Waiting && queue == [])
  }

  predicate Circles(s: State, thread: Thread) {
    match thread
    case TheReader => false
    case TheBalancer(i) => i < |s.balancers| &&
        GoesRound(s.balancers[i].place, s.balancers[i].input.queue, s.balancers[i].running)
    case TheWorker(j) => j < |s.workers| &&
        GoesRound(s.workers[j].place, s.workers[j].input.queue, s.workers[j].running)
    case TheWriter => GoesRound(s.output.place, s.output.queue.queue, s.running || s.output.queue.queue != [])
    case TheStopper => false
  }

  // ---------------------------------------------------------------- the weight

  /** A thread that has not left yet. */
  function Alive(place: Place): nat {
    if place == Exited then 0 else 1
  }

  /** A job weighs the more the further it is from the file. */
  function BalancerWeight(b: Balancer): nat {
    7 * |b.input.queue| + 6 * |InHand(b.place)| + Alive(b.place)
  }

  function WorkerWeight(w: Worker): nat {
    5 * |w.input.queue| + 4 * |InHand(w.place)| + 3 * |InPush(w.place)| + Alive(w.place)
  }

  function OutputWeight(o: Output): nat {
    2 * |o.queue.queue| + |InHand(o.place)| + Alive(o.place)
  }

  function ReaderWeight(r: Reader): nat {
    9 * |r.unread| + 8 * |PipelineOrder.Hand(r.hand)|
  }

  function PartsLeft(part: Part): nat {
    match part
    case Clear => 3
    case Shut => 2
    case Join => 1
  }

  /** How many steps of `stop` are still to come. */
  function StopsLeft(cfg: Config, phase: Phase): int {
    match phase
    case Running => 3 * cfg.balancers + 3 * cfg.workers + 3
    case StopBalancer(i, part) => 3 * (cfg.balancers - i - 1) + PartsLeft(part) + 3 * cfg.workers + 2
    case StopWorker(j, part) => 3 * (cfg.workers - j - 1) + PartsLeft(part) + 2
    case CloseOutput => 2
    case JoinWriter => 1
    case Stopped => 0
  }

  function Weight(cfg: Config, s: State): int {
    ReaderWeight(s.reader) + PipelineAccounts.Sum(BalancerWeight, s.balancers) +
        PipelineAccounts.Sum(WorkerWeight, s.workers)
    + OutputWeight(s.output) + StopsLeft(cfg, s.phase)
  }

  lemma WeightIsNatural(cfg: Config, s: State)
    requires PhaseInRange(cfg, s.phase)
    ensures Weight(cfg, s) >= 0
  {
  }

  lemma BalancerReweighed(s: State, i: nat, b: Balancer)
    requires i < |s.balancers|
    ensures PipelineAccounts.Sum(BalancerWeight, s.balancers[i := b]) + BalancerWeight(s.balancers[i]) ==
      PipelineAccounts.Sum(BalancerWeight, s.balancers) + BalancerWeight(b)
  {
    PipelineAccounts.SumUpdate(BalancerWeight, s.balancers, i, b);
  }

  lemma WorkerReweighed(s: State, j: nat, w: Worker)
    requires j < |s.workers|
    ensures PipelineAccounts.Sum(WorkerWeight, s.workers[j := w]) + WorkerWeight(s.workers[j]) ==
      PipelineAccounts.Sum(WorkerWeight, s.workers) + WorkerWeight(w)
  {
    PipelineAccounts.SumUpdate(WorkerWeight, s.workers, j, w);
  }

  lemma ReadFalls(cfg: Config, s: State)
    requires ReadEnabled(cfg, s)
    ensures Weight(cfg, DoRead(cfg, s)) < Weight(cfg, s)
  {
    if s.reader.hand.Some? {
      var i := cfg.balancerOf(s.reader.hand.value.tuple);
      BalancerReweighed(s, i, DoRead(cfg, s).balancers[i]);
    }
  }

  lemma SendFalls(cfg: Config, s: State, i: nat)
    requires BalanceEnabled(cfg, s, i) && s.balancers[i].place.Holding?
    ensures Weight(cfg, DoBalance(cfg, s, i)) < Weight(cfg, s)
  {
    var u := DoBalance(cfg, s, i);
    var j := cfg.workerOf(s.balancers[i].place.job.tuple);
    BalancerReweighed(s, i, u.balancers[i]);
    WorkerReweighed(s, j, u.workers[j]);
  }

  /** Going round leaves the weight as it is; leaving or taking a job lowers it. */
  lemma BalancerTurnWeighs(cfg: Config, s: State, i: nat)
    requires BalanceEnabled(cfg, s, i) && !s.balancers[i].place.Holding?
    ensures if Circles(s, TheBalancer(i)) then Weight(cfg, DoBalance(cfg, s, i)) == Weight(cfg, s)
      else Weight(cfg, DoBalance(cfg, s, i)) < Weight(cfg, s)
  {
    BalancerReweighed(s, i, DoBalance(cfg, s, i).balancers[i]);
  }

  lemma JudgeFalls(cfg: Config, s: State, j: nat, gone: set<FiveTuple>)
    requires WorkEnabled(cfg, s, j, gone) && s.workers[j].place.Holding?
    ensures Weight(cfg, DoWork(cfg, s, j, gone)) < Weight(cfg, s)
  {
    WorkerReweighed(s, j, Judged(cfg, s.workers[j], s.workers[j].place.job, gone));
  }

  lemma HandOverFalls(cfg: Config, s: State, j: nat, gone: set<FiveTuple>)
    requires WorkEnabled(cfg, s, j, gone) && s.workers[j].place.Pushing?
    ensures Weight(cfg, DoWork(cfg, s, j, gone)) < Weight(cfg, s)
  {
    WorkerReweighed(s, j, DoWork(cfg, s, j, gone).workers[j]);
  }

  lemma WorkerTurnWeighs(cfg: Config, s: State, j: nat, gone: set<FiveTuple>)
    requires WorkEnabled(cfg, s, j, gone) && (s.workers[j].place.AtHead? || s.workers[j].place.Waiting?)
    ensures if Circles(s, TheWorker(j)) then Weight(cfg, DoWork(cfg, s, j, gone)) == Weight(cfg, s)
      else Weight(cfg, DoWork(cfg, s, j, gone)) < Weight(cfg, s)
  {
    WorkerReweighed(s, j, DoWork(cfg, s, j, gone).workers[j]);
  }

  lemma WriteWeighs(cfg: Config, s: State)
    requires WriteEnabled(s)
    ensures if Circles(s, TheWriter) then Weight(cfg, DoWrite(s)) == Weight(cfg, s)
      else Weight(cfg, DoWrite(s)) < Weight(cfg, s)
  {
  }

  lemma StopBalancerFalls(cfg: Config, s: State, i: nat, part: Part)
    requires cfg.Valid() && StopEnabled(cfg, s) && s.phase == StopBalancer(i, part) && i < cfg.balancers
    ensures Weight(cfg, DoStop(cfg, s)) < Weight(cfg, s)
  {
    if part != Join {
      BalancerReweighed(s, i, DoStop(cfg, s).balancers[i]);
    }
  }

  lemma StopWorkerFalls(cfg: Config, s: State, j: nat, part: Part)
    requires cfg.Valid() && StopEnabled(cfg, s) && s.phase == StopWorker(j, part) && j < cfg.workers
    ensures Weight(cfg, DoStop(cfg, s)) < Weight(cfg, s)
  {
    if part != Join {
      WorkerReweighed(s, j, DoStop(cfg, s).workers[j]);
    }
  }

  lemma StopFalls(cfg: Config, s: State)
    requires cfg.Valid() && StopEnabled(cfg, s) && PhaseInRange(cfg, s.phase)
    ensures Weight(cfg, DoStop(cfg, s)) < Weight(cfg, s)
  {
    match s.phase
    case StopBalancer(i, part) => StopBalancerFalls(cfg, s, i, part);
    case StopWorker(j, part) => StopWorkerFalls(cfg, s, j, part);
    case _ =>
  }

  lemma BalanceWeighs(cfg: Config, s: State, i: nat)
    requires BalanceEnabled(cfg, s, i)
    ensures if Circles(s, TheBalancer(i)) then Weight(cfg, DoBalance(cfg, s, i)) == Weight(cfg, s)
      else Weight(cfg, DoBalance(cfg, s, i)) < Weight(cfg, s)
  {
    if s.balancers[i].place.Holding? {
      SendFalls(cfg, s, i);
    } else {
      BalancerTurnWeighs(cfg, s, i);
    }
  }

  lemma WorkWeighs(cfg: Config, s: State, j: nat, gone: set<FiveTuple>)
    requires WorkEnabled(cfg, s, j, gone)
    ensures if Circles(s, TheWorker(j)) then Weight(cfg, DoWork(cfg, s, j, gone)) == Weight(cfg, s)
      else Weight(cfg, DoWork(cfg, s, j, gone)) < Weight(cfg, s)
  {
    if s.workers[j].place.Holding? {
      JudgeFalls(cfg, s, j, gone);
    } else if s.workers[j].place.Pushing? {
      HandOverFalls(cfg, s, j, gone);
    } else {
      WorkerTurnWeighs(cfg, s, j, gone);
    }
  }

  /** Every step either moves a job, a thread or `stop` towards its end and lowers the
      weight, or it is one turn round a loop and leaves the weight as it is. */
  lemma StepWeighs(cfg: Config, s: State, turn: Turn)
    requires Sound(cfg, s) && Enabled(cfg, s, turn)
    ensures 0 <= Weight(cfg, Next(cfg, s, turn))
    ensures if Circles(s, ThreadOf(turn)) then Weight(cfg, Next(cfg, s, turn)) == Weight(cfg, s)
      else Weight(cfg, Next(cfg, s, turn)) < Weight(cfg, s)
  {
    StepInPhase(cfg, s, turn);
    WeightIsNatural(cfg, Next(cfg, s, turn));
    match turn
    case Read => ReadFalls(cfg, s);
    case Balance(i) => BalanceWeighs(cfg, s, i);
    case Work(j, gone) => WorkWeighs(cfg, s, j, gone);
    case Write => WriteWeighs(cfg, s);
    case Stop => StopFalls(cfg, s);
  }

  /** How many steps of a stretch move anything. */
  function Moves(turns: seq<Turn>, states: seq<State>, k: nat, n: nat): nat
    requires k <= n <= |turns| < |states|
  {
    if k == n then 0
    else Moves(turns, states, k, n - 1) + (if Circles(states[n - 1], ThreadOf(turns[n - 1])) then 0 else 1)
  }

  ghost predicate Bounds(cfg: Config, turns: seq<Turn>, states: seq<State>, k: nat, n: nat)
    requires k <= n <= |turns| < |states|
  {
    0 <= Weight(cfg, states[n]) && Moves(turns, states, k, n) + Weight(cfg, states[n]) <= Weight(cfg, states[k])
  }

  lemma BoundsOneMore(cfg: Config, turns: seq<Turn>, states: seq<State>, k: nat, m: nat)
    requires cfg.Valid() && IsRun(cfg, turns, states) && k <= m < |turns| && Bounds(cfg, turns, states, k, m)
    ensures Bounds(cfg, turns, states, k, m + 1)
  {
    AlwaysSound(cfg, turns, states, m);
    assert IsStep(cfg, turns, states, m);
    StepWeighs(cfg, states[m], turns[m]);
  }

  lemma BoundsAtFirst(cfg: Config, turns: seq<Turn>, states: seq<State>, k: nat)
    requires cfg.Valid() && IsRun(cfg, turns, states) && k <= |turns|
    ensures Bounds(cfg, turns, states, k, k)
  {
    AlwaysSound(cfg, turns, states, k);
    WeightIsNatural(cfg, states[k]);
  }

  lemma {:induction false} AlwaysBounds(cfg: Config, turns: seq<Turn>, states: seq<State>, k: nat, n: nat)
    requires cfg.Valid() && IsRun(cfg, turns, states) && k <= n <= |turns|
    ensures Bounds(cfg, turns, states, k, n)
    decreases n
  {
    if k == n {
      BoundsAtFirst(cfg, turns, states, k);
    } else {
      AlwaysBounds(cfg, turns, states, k, n - 1);
      BoundsOneMore(cfg, turns, states, k, n - 1);
    }
  }

  /** On every run, idle waits and all, the steps that move anything are no more than the
      weight at the start. */
  lemma MovesAreBounded(cfg: Config, turns: seq<Turn>, states: seq<State>, k: nat, n: nat)
    requires cfg.Valid() && IsRun(cfg, turns, states) && k <= n <= |turns|
    ensures Moves(turns, states, k, n) + Weight(cfg, states[n]) <= Weight(cfg, states[k])
    ensures Moves(turns, states, k, n) <= Weight(cfg, states[k])
  {
    AlwaysBounds(cfg, turns, states, k, n);
  }

  // ---------------------------------------------------------------- who can go on

  predicate LoopReady(queue: seq<PacketJob>, running: bool) {
    queue != [] || !running
  }

  /** The thread can take a turn, and at the latest with its second one it moves. */
  predicate Ready(cfg: Config, s: State, thread: Thread) {
    match thread
    case TheReader => ReadEnabled(cfg, s)
    case TheBalancer(i) =>
      BalanceEnabled(cfg, s, i) && (s.balancers[i].place.Holding? ||
          LoopReady(s.balancers[i].input.queue, s.balancers[i].running))
    case TheWorker(j) =>
      && WorkEnabled(cfg, s, j, {})
      && (s.workers[j].place.Holding? || s.workers[j].place.Pushing? ||
          LoopReady(s.workers[j].input.queue, s.workers[j].running))
    case TheWriter => WriteEnabled(s) && (s.output.place.Holding? || LoopReady(s.output.queue.queue, s.running))
    case TheStopper => StopEnabled(cfg, s)
  }

  /** Ready, and moving with its next turn. */
  predicate Hot(cfg: Config, s: State, thread: Thread) {
    Ready(cfg, s, thread) && !Circles(s, thread)
  }

  /** Going round, a thread changes nothing but its own place, and a worker its table. */
  predicate OnlyRound(s: State, u: State, thread: Thread) {
    && |u.balancers| == |s.balancers| && |u.workers| == |s.workers|
    && u.reader == s.reader && u.running == s.running && u.phase == s.phase && u.output.queue == s.output.queue
    && (thread != TheWriter ==> u.output.place == s.output.place)
    && (forall i :: 0 <= i < |s.balancers| ==>
          u.balancers[i].input == s.balancers[i].input && u.balancers[i].running == s.balancers[i].running)
    && (forall i :: 0 <= i < |s.balancers| && thread != TheBalancer(i) ==> u.balancers[i].place == s.balancers[i].place)
    && (forall j :: 0 <= j < |s.workers| ==>
          u.workers[j].input == s.workers[j].input && u.workers[j].running == s.workers[j].running)
    && (forall j :: 0 <= j < |s.workers| && thread != TheWorker(j) ==> u.workers[j].place == s.workers[j].place)
  }

  lemma BalancerOnlyRound(cfg: Config, s: State, i: nat)
    requires BalanceEnabled(cfg, s, i) && Circles(s, TheBalancer(i))
    ensures OnlyRound(s, DoBalance(cfg, s, i), TheBalancer(i))
  {
  }

  lemma WorkerOnlyRound(cfg: Config, s: State, j: nat, gone: set<FiveTuple>)
    requires WorkEnabled(cfg, s, j, gone) && Circles(s, TheWorker(j))
    ensures OnlyRound(s, DoWork(cfg, s, j, gone), TheWorker(j))
  {
  }

  lemma CircleIsOnlyRound(cfg: Config, s: State, turn: Turn)
    requires Enabled(cfg, s, turn) && Circles(s, ThreadOf(turn))
    ensures OnlyRound(s, Next(cfg, s, turn), ThreadOf(turn))
  {
    match turn
    case Balance(i) => BalancerOnlyRound(cfg, s, i);
    case Work(j, gone) => WorkerOnlyRound(cfg, s, j, gone);
    case _ =>
  }

  /** A stopper that waits for a thread to leave is not disturbed by one that goes round. */
  lemma StopperUndisturbed(cfg: Config, s: State, u: State, other: Thread)
    requires OnlyRound(s, u, other) && Circles(s, other) && StopEnabled(cfg, s)
    ensures StopEnabled(cfg, u)
  {
  }

  lemma OthersStayReady(cfg: Config, s: State, u: State, other: Thread, thread: Thread)
    requires OnlyRound(s, u, other) && Circles(s, other) && thread != other && Ready(cfg, s, thread)
    ensures Ready(cfg, u, thread) && (Hot(cfg, s, thread) ==> Hot(cfg, u, thread))
  {
    if thread == TheStopper {
      StopperUndisturbed(cfg, s, u, other);
    }
  }

  /** One turn round makes a ready thread hot. */
  lemma RoundMakesHot(cfg: Config, s: State, turn: Turn)
    requires Enabled(cfg, s, turn) && Ready(cfg, s, ThreadOf(turn)) && Circles(s, ThreadOf(turn))
    ensures Hot(cfg, Next(cfg, s, turn), ThreadOf(turn))
  {
  }

  lemma ReadyIsAble(cfg: Config, s: State, thread: Thread)
    requires Ready(cfg, s, thread)
    ensures Able(cfg, s, thread)
  {
  }

  /** A worker with something to do is ready, or the writer is, unless the output is stuck
      and the worker waits for it. */
  lemma WorkerReady(cfg: Config, s: State, j: nat) returns (thread: Thread)
    requires Sound(cfg, s) && j < cfg.workers && s.workers[j].place != Exited
    requires !PipelineOrder.WorkerEmpty(s.workers[j]) || !s.workers[j].running
    requires !(OutputStuck(cfg, s) && s.workers[j].place.Pushing?)
    ensures Ready(cfg, s, thread) && (thread == TheWriter || thread == TheWorker(j))
  {
    var w := s.workers[j];
    if w.place.Pushing? && !CanPush(cfg.outputCap, s.output.queue) {
      thread := TheWriter;
    } else {
      thread := TheWorker(j);
    }
  }

  /** The writer has left and the output queue is full and open. */
  predicate OutputStuck(cfg: Config, s: State) {
    s.output.place == Exited && !CanPush(cfg.outputCap, s.output.queue)
  }

  lemma BalancerReady(cfg: Config, s: State, i: nat) returns (thread: Thread)
    requires Sound(cfg, s) && i < cfg.balancers && s.balancers[i].place != Exited
    requires !PipelineOrder.BalancerEmpty(s.balancers[i]) || !s.balancers[i].running
    requires OutputStuck(cfg, s) && s.balancers[i].place.Holding? ==>
      !s.workers[cfg.workerOf(s.balancers[i].place.job.tuple)].place.Pushing?
    ensures Ready(cfg, s, thread) && (thread == TheWriter || thread.TheWorker? || thread == TheBalancer(i))
  {
    assert BalancerInPhase(s.phase, i, s.balancers[i]) && BalancerRouted(cfg, i, s.balancers[i]);
    thread := TheBalancer(i);
    if s.balancers[i].place.Holding? {
      var j := cfg.workerOf(s.balancers[i].place.job.tuple);
      assert WorkerInPhase(s.phase, j, s.workers[j]);
      if !CanPush(cfg.workerCap, s.workers[j].input) {
        thread := WorkerReady(cfg, s, j);
      }
    }
  }

  /** Before `stop`, as long as any frame is unread or any job in flight, some thread other
      than the stopper is ready, whatever queues are full. */
  lemma RunningReady(cfg: Config, s: State) returns (thread: Thread)
    requires Sound(cfg, s) && s.phase == Running && !PipelineOrder.Drained(s)
    ensures Ready(cfg, s, thread) && thread != TheStopper
    ensures thread == TheReader ==>
      && s.output.queue.queue == [] && !s.output.place.Holding?
      && (forall i :: 0 <= i < |s.balancers| ==> PipelineOrder.BalancerEmpty(s.balancers[i]))
      && (forall j :: 0 <= j < |s.workers| ==> PipelineOrder.WorkerEmpty(s.workers[j]))
  {
    if s.output.queue.queue != [] || s.output.place.Holding? {
      thread := TheWriter;
    } else if j :| 0 <= j < |s.workers| && !PipelineOrder.WorkerEmpty(s.workers[j]) {
      assert WorkerInPhase(s.phase, j, s.workers[j]);
      thread := WorkerReady(cfg, s, j);
    } else if i :| 0 <= i < |s.balancers| && !PipelineOrder.BalancerEmpty(s.balancers[i]) {
      assert BalancerInPhase(s.phase, i, s.balancers[i]);
      thread := BalancerReady(cfg, s, i);
    } else {
      thread := TheReader;
      if s.reader.hand.Some? {
        assert PipelineOrder.BalancerEmpty(s.balancers[cfg.balancerOf(s.reader.hand.value.tuple)]);
      }
    }
  }

  /** `stop` waits for a thread that waits for room in the output queue, and the writer
      has already left. */
  predicate Deadlocked(cfg: Config, s: State) {
    WellShaped(cfg, s) && PhaseInRange(cfg, s.phase) && OutputStuck(cfg, s) &&
    match s.phase
    case StopBalancer(i, Join) =>
      s.balancers[i].place.Holding? &&
      var j := cfg.workerOf(s.balancers[i].place.job.tuple);
      j < cfg.workers && s.workers[j].place.Pushing? && !CanPush(cfg.workerCap, s.workers[j].input)
    case StopWorker(j, Join) => s.workers[j].place.Pushing?
    case _ => false
  }

  /** Once `stop` has begun, some thread is ready unless `stop` is done or deadlocked. */
  lemma StoppingReady(cfg: Config, s: State) returns (thread: Thread)
    requires Sound(cfg, s) && s.phase != Running && s.phase != Stopped && !Deadlocked(cfg, s)
    ensures Ready(cfg, s, thread)
  {
    thread := TheStopper;
    match s.phase
    case StopBalancer(i, part) =>
      assert BalancerInPhase(s.phase, i, s.balancers[i]);
      if part == Join && s.balancers[i].place != Exited {
        thread := JoinedBalancerReady(cfg, s, i);
      }
    case StopWorker(j, part) =>
      assert WorkerInPhase(s.phase, j, s.workers[j]);
      if part == Join && s.workers[j].place != Exited {
        thread := WorkerReady(cfg, s, j);
      }
    case CloseOutput =>
    case JoinWriter =>
      if s.output.place != Exited {
        thread := TheWriter;
      }
  }

  lemma JoinedBalancerReady(cfg: Config, s: State, i: nat) returns (thread: Thread)
    requires Sound(cfg, s) && s.phase == StopBalancer(i, Join) && s.balancers[i].place != Exited && !Deadlocked(cfg, s)
    ensures Ready(cfg, s, thread)
  {
    assert BalancerInPhase(s.phase, i, s.balancers[i]) && BalancerRouted(cfg, i, s.balancers[i]);
    thread := TheBalancer(i);
    if s.balancers[i].place.Holding? {
      var j := cfg.workerOf(s.balancers[i].place.job.tuple);
      assert WorkerInPhase(s.phase, j, s.workers[j]);
      if !CanPush(cfg.workerCap, s.workers[j].input) {
        thread := WorkerReady(cfg, s, j);
      }
    }
  }

  /** A deadlock is for ever: no step of any thread ends it, so `stop` never returns. */
  lemma DeadlockStays(cfg: Config, s: State, turn: Turn)
    requires Sound(cfg, s) && Deadlocked(cfg, s) && Enabled(cfg, s, turn)
    ensures Deadlocked(cfg, Next(cfg, s, turn))
  {
    match turn
    case Read =>
    case Balance(i) => BalanceKeepsDeadlock(cfg, s, i);
    case Work(j, gone) => WorkKeepsDeadlock(cfg, s, j, gone);
    case Write =>
    case Stop =>
  }

  lemma BalanceKeepsDeadlock(cfg: Config, s: State, i: nat)
    requires Sound(cfg, s) && Deadlocked(cfg, s) && BalanceEnabled(cfg, s, i)
    ensures Deadlocked(cfg, DoBalance(cfg, s, i))
  {
  }

  lemma WorkKeepsDeadlock(cfg: Config, s: State, j: nat, gone: set<FiveTuple>)
    requires Sound(cfg, s) && Deadlocked(cfg, s) && WorkEnabled(cfg, s, j, gone)
    ensures Deadlocked(cfg, DoWork(cfg, s, j, gone))
  {
  }

  lemma {:induction false} DeadlockedForEver(cfg: Config, turns: seq<Turn>, states: seq<State>, k: nat, n: nat)
    requires cfg.Valid() && IsRun(cfg, turns, states) && k <= n < |states| && Deadlocked(cfg, states[k])
    ensures Deadlocked(cfg, states[n]) && states[n].phase != Stopped
    decreases n
  {
    if k == n {
    } else {
      var m := n - 1;
      DeadlockedForEver(cfg, turns, states, k, m);
      AlwaysSound(cfg, turns, states, m);
      assert IsStep(cfg, turns, states, m);
      DeadlockStays(cfg, states[m], turns[m]);
    }
  }

  // ---------------------------------------------------------------- rounds

  predicate HasTurn(turns: seq<Turn>, thread: Thread, k: nat, n: nat)
    requires k <= n <= |turns|
  {
    exists m :: k <= m < n && ThreadOf(turns[m]) == thread
  }

  predicate IsBlocked(cfg: Config, states: seq<State>, thread: Thread, k: nat, n: nat)
    requires k <= n <= |states|
  {
    exists m :: k <= m < n && !Able(cfg, states[m], thread)
  }

  /** A stretch of a run in which every thread gets a turn or is at some moment unable to
      take one. Whether the stopper must get its turns too is a choice: before `stop` it
      need not. */
  ghost predicate Round(cfg: Config, turns: seq<Turn>, states: seq<State>, stopper: bool, k: nat, n: nat)
    requires k <= n <= |turns| < |states|
  {
    forall thread ::
      (thread == TheStopper && !stopper) || HasTurn(turns, thread, k, n) || IsBlocked(cfg, states, thread, k, n)
  }

  ghost predicate AllCircle(turns: seq<Turn>, states: seq<State>, k: nat, n: nat)
    requires k <= n <= |turns| < |states|
  {
    forall m :: k <= m < n ==> Circles(states[m], ThreadOf(turns[m]))
  }

  lemma CirclingKeepsReady(cfg: Config, turns: seq<Turn>, states: seq<State>, thread: Thread, m: nat)
    requires cfg.Valid() && IsRun(cfg, turns, states) && m < |turns|
    requires Ready(cfg, states[m], thread) && Circles(states[m], ThreadOf(turns[m]))
    ensures Ready(cfg, states[m + 1], thread)
    ensures Hot(cfg, states[m], thread) || ThreadOf(turns[m]) == thread ==> Hot(cfg, states[m + 1], thread)
  {
    assert IsStep(cfg, turns, states, m);
    if ThreadOf(turns[m]) == thread {
      RoundMakesHot(cfg, states[m], turns[m]);
    } else {
      CircleIsOnlyRound(cfg, states[m], turns[m]);
      OthersStayReady(cfg, states[m], states[m + 1], ThreadOf(turns[m]), thread);
    }
  }

  /** As long as threads only go round, a ready thread stays ready and is hot from its first
      turn on. */
  lemma {:induction false} ReadyUnlessMoved(cfg: Config, turns: seq<Turn>, states: seq<State>, thread: Thread, k: nat,
          n: nat)
    requires cfg.Valid() && IsRun(cfg, turns, states) && k <= n <= |turns|
    requires Ready(cfg, states[k], thread) && AllCircle(turns, states, k, n)
    ensures Ready(cfg, states[n], thread)
    ensures HasTurn(turns, thread, k, n) || Hot(cfg, states[k], thread) ==> Hot(cfg, states[n], thread)
    decreases n
  {
    if k == n {
    } else {
      var m := n - 1;
      assert AllCircle(turns, states, k, m);
      ReadyUnlessMoved(cfg, turns, states, thread, k, m);
      CirclingKeepsReady(cfg, turns, states, thread, m);
      assert HasTurn(turns, thread, k, n) && ThreadOf(turns[m]) != thread ==> HasTurn(turns, thread, k, m);
    }
  }

  lemma ReadyGetsTurn(cfg: Config, turns: seq<Turn>, states: seq<State>, stopper: bool, thread: Thread, k: nat, n: nat)
    requires cfg.Valid() && IsRun(cfg, turns, states) && k <= n <= |turns|
    requires Ready(cfg, states[k], thread) && AllCircle(turns, states, k, n)
    requires Round(cfg, turns, states, stopper, k, n) && (thread == TheStopper ==> stopper)
    ensures HasTurn(turns, thread, k, n)
  {
    forall m | k <= m < n
      ensures Able(cfg, states[m], thread)
    {
      assert AllCircle(turns, states, k, m);
      ReadyUnlessMoved(cfg, turns, states, thread, k, m);
      ReadyIsAble(cfg, states[m], thread);
    }
    assert !IsBlocked(cfg, states, thread, k, n);
  }

  /** Two rounds with a ready thread at their start move something. */
  lemma TwoRoundsMove(cfg: Config, turns: seq<Turn>, states: seq<State>, stopper: bool, thread: Thread, a: nat,
          b: nat, c: nat)
    requires cfg.Valid() && IsRun(cfg, turns, states) && a <= b <= c <= |turns|
    requires Round(cfg, turns, states, stopper, a, b) && Round(cfg, turns, states, stopper, b, c)
    requires Ready(cfg, states[a], thread) && (thread == TheStopper ==> stopper)
    ensures !AllCircle(turns, states, a, c)
  {
    if AllCircle(turns, states, a, c) {
      assert AllCircle(turns, states, a, b) && AllCircle(turns, states, b, c);
      ReadyGetsTurn(cfg, turns, states, stopper, thread, a, b);
      ReadyUnlessMoved(cfg, turns, states, thread, a, b);
      ReadyGetsTurn(cfg, turns, states, stopper, thread, b, c);
      var m :| b <= m < c && ThreadOf(turns[m]) == thread;
      assert AllCircle(turns, states, b, m);
      ReadyUnlessMoved(cfg, turns, states, thread, b, m);
    }
  }

  lemma {:induction false} NoMoveCircles(turns: seq<Turn>, states: seq<State>, k: nat, n: nat)
    requires k <= n <= |turns| < |states| && Moves(turns, states, k, n) == 0
    ensures AllCircle(turns, states, k, n)
    decreases n
  {
    if k == n {
    } else {
      NoMoveCircles(turns, states, k, n - 1);
    }
  }

  lemma TwoRoundsFall(cfg: Config, turns: seq<Turn>, states: seq<State>, stopper: bool, thread: Thread, a: nat,
          b: nat, c: nat)
    requires cfg.Valid() && IsRun(cfg, turns, states) && a <= b <= c <= |turns|
    requires Round(cfg, turns, states, stopper, a, b) && Round(cfg, turns, states, stopper, b, c)
    requires Ready(cfg, states[a], thread) && (thread == TheStopper ==> stopper)
    ensures Weight(cfg, states[c]) < Weight(cfg, states[a])
  {
    TwoRoundsMove(cfg, turns, states, stopper, thread, a, b, c);
    if Moves(turns, states, a, c) == 0 {
      NoMoveCircles(turns, states, a, c);
    }
    MovesAreBounded(cfg, turns, states, a, c);
  }

  // ---------------------------------------------------------------- fair runs

  /** The run goes through so many rounds, one after the other, from one cut to the next. */
  ghost predicate Rounds(cfg: Config, turns: seq<Turn>, states: seq<State>, stopper: bool, cuts: seq<nat>) {
    && |turns| < |states| && cuts != [] && (forall c :: 0 <= c < |cuts| ==> cuts[c] <= |turns|)
    && forall c :: 0 <= c < |cuts| - 1 ==> IsRound(cfg, turns, states, stopper, cuts, c)
  }

  ghost predicate IsRound(cfg: Config, turns: seq<Turn>, states: seq<State>, stopper: bool, cuts: seq<nat>, c: nat)
    requires c + 1 < |cuts| && |turns| < |states| && cuts[c] <= |turns| && cuts[c + 1] <= |turns|
  {
    cuts[c] <= cuts[c + 1] && Round(cfg, turns, states, stopper, cuts[c], cuts[c + 1])
  }

  lemma {:induction false} CutsAscend(cfg: Config, turns: seq<Turn>, states: seq<State>, stopper: bool,
          cuts: seq<nat>, c: nat, d: nat)
    requires Rounds(cfg, turns, states, stopper, cuts) && c <= d < |cuts|
    ensures cuts[c] <= cuts[d]
    decreases d
  {
    if c == d {
    } else {
      CutsAscend(cfg, turns, states, stopper, cuts, c, d - 1);
      assert IsRound(cfg, turns, states, stopper, cuts, d - 1);
    }
  }

  lemma {:induction false} PhasesStay(cfg: Config, turns: seq<Turn>, states: seq<State>, k: nat, n: nat)
    requires cfg.Valid() && IsRun(cfg, turns, states) && k <= n < |states|
    ensures states[n].phase == Running ==> states[k].phase == Running
    ensures states[k].phase == Stopped ==> states[n].phase == Stopped
    decreases n
  {
    if k == n {
    } else {
      PhasesStay(cfg, turns, states, k, n - 1);
      var m := n - 1;
      assert IsStep(cfg, turns, states, m);
      PhaseStep(cfg, states[m], turns[m]);
    }
  }

  lemma PhaseStep(cfg: Config, s: State, turn: Turn)
    requires Enabled(cfg, s, turn)
    ensures Next(cfg, s, turn).phase == Running ==> s.phase == Running
    ensures s.phase == Stopped ==> Next(cfg, s, turn).phase == Stopped
  {
  }

  lemma {:induction false} DrainsBy(cfg: Config, turns: seq<Turn>, states: seq<State>, cuts: seq<nat>, r: nat)
    requires cfg.Valid() && IsRun(cfg, turns, states) && Rounds(cfg, turns, states, false, cuts)
    requires 2 * r < |cuts| && states[cuts[2 * r]].phase == Running
    ensures PipelineOrder.Drained(states[cuts[2 * r]]) ||
      Weight(cfg, states[cuts[2 * r]]) + r <= Weight(cfg, states[cuts[0]])
    decreases r
  {
    if r == 0 {
    } else {
      var a, b, c := cuts[2 * r - 2], cuts[2 * r - 1], cuts[2 * r];
      assert IsRound(cfg, turns, states, false, cuts, 2 * r - 2) && IsRound(cfg, turns, states, false, cuts, 2 * r - 1);
      PhasesStay(cfg, turns, states, a, c);
      DrainsBy(cfg, turns, states, cuts, r - 1);
      if PipelineOrder.Drained(states[a]) {
        PipelineOrder.SettledFromThenOn(cfg, turns, states, a, c);
      } else {
        AlwaysSound(cfg, turns, states, a);
        var thread := RunningReady(cfg, states[a]);
        TwoRoundsFall(cfg, turns, states, false, thread, a, b, c);
      }
    }
  }

  /** The engine drains: on every run, however long its threads idle, as many rounds as
      twice the weight at their start leave nothing unread and nothing in flight, if `stop`
      does not begin before. */
  lemma FairRunDrains(cfg: Config, turns: seq<Turn>, states: seq<State>, cuts: seq<nat>)
    requires cfg.Valid() && IsRun(cfg, turns, states) && Rounds(cfg, turns, states, false, cuts)
    requires |cuts| > 2 * Weight(cfg, states[cuts[0]]) && states[cuts[|cuts| - 1]].phase == Running
    ensures PipelineOrder.Drained(states[cuts[|cuts| - 1]])
  {
    AlwaysSound(cfg, turns, states, cuts[0]);
    WeightIsNatural(cfg, states[cuts[0]]);
    var r := Weight(cfg, states[cuts[0]]);
    var n, last := cuts[2 * r], cuts[|cuts| - 1];
    CutsAscend(cfg, turns, states, false, cuts, 2 * r, |cuts| - 1);
    PhasesStay(cfg, turns, states, n, last);
    DrainsBy(cfg, turns, states, cuts, r);
    AlwaysSound(cfg, turns, states, n);
    RunningIsHeavy(cfg, states[n]);
    PipelineOrder.SettledFromThenOn(cfg, turns, states, n, last);
  }

  lemma RunningIsHeavy(cfg: Config, s: State)
    requires cfg.Valid() && s.phase == Running
    ensures Weight(cfg, s) > 0
  {
  }

  /** What such a run leaves behind: every job written or dropped, and for every flow that
      no table has lost the whole of what the sequential filter lets through. */
  lemma FairRunIsComplete(cfg: Config, turns: seq<Turn>, states: seq<State>, cuts: seq<nat>, t: FiveTuple)
    requires cfg.Valid() && IsRun(cfg, turns, states) && Rounds(cfg, turns, states, false, cuts)
    requires |cuts| > 2 * Weight(cfg, states[cuts[0]]) && states[cuts[|cuts| - 1]].phase == Running
    ensures var s := states[cuts[|cuts| - 1]];
      && s.reader.created == PipelineOrder.Created(cfg.input)
      && |s.reader.created| == |s.output.written| + s.log.dropped
      && (t !in s.log.lost ==> PipelineOrder.Of(s.output.written, t) == PipelineOrder.Expected(cfg, t))
  {
    var n := cuts[|cuts| - 1];
    FairRunDrains(cfg, turns, states, cuts);
    PipelineOrder.AlwaysFaithful(cfg, turns, states, n, t);
    PipelineAccounts.AlwaysBalanced(cfg, turns, states, n);
    DrainedCarriesNothing(states[n]);
    if t !in states[n].log.lost {
      PipelineOrder.DrainedIsWhole(cfg, states[n], t);
    }
  }

  lemma DrainedCarriesNothing(s: State)
    requires PipelineOrder.Drained(s)
    ensures PipelineAccounts.Pending(s) == 0 && PipelineAccounts.Leaving(s) == 0
  {
    forall i | 0 <= i < |s.balancers|
      ensures PipelineAccounts.BalancerLoad(s.balancers[i]) == 0
    {
      assert PipelineOrder.BalancerEmpty(s.balancers[i]);
    }
    forall j | 0 <= j < |s.workers|
      ensures PipelineAccounts.WorkerLoad(s.workers[j]) == 0 && PipelineAccounts.PushLoad(s.workers[j]) == 0
    {
      assert PipelineOrder.WorkerEmpty(s.workers[j]);
    }
    PipelineAccounts.SumZero(PipelineAccounts.BalancerLoad, s.balancers);
    PipelineAccounts.SumZero(PipelineAccounts.WorkerLoad, s.workers);
    PipelineAccounts.SumZero(PipelineAccounts.PushLoad, s.workers);
  }

  /** `stop` is over, one way or the other. */
  predicate Over(cfg: Config, s: State) {
    s.phase == Stopped || Deadlocked(cfg, s)
  }

  lemma OverStays(cfg: Config, turns: seq<Turn>, states: seq<State>, k: nat, n: nat)
    requires cfg.Valid() && IsRun(cfg, turns, states) && k <= n < |states| && Over(cfg, states[k])
    ensures Over(cfg, states[n])
  {
    PhasesStay(cfg, turns, states, k, n);
    if Deadlocked(cfg, states[k]) {
      DeadlockedForEver(cfg, turns, states, k, n);
    }
  }

  ghost predicate NearlyOver(cfg: Config, states: seq<State>, cuts: seq<nat>, r: nat)
    requires 2 * r < |cuts| && cuts[0] < |states| && cuts[2 * r] < |states|
  {
    Over(cfg, states[cuts[2 * r]]) || Weight(cfg, states[cuts[2 * r]]) + r <= Weight(cfg, states[cuts[0]])
  }

  lemma StoppingFalls(cfg: Config, turns: seq<Turn>, states: seq<State>, a: nat, b: nat, c: nat)
    requires cfg.Valid() && IsRun(cfg, turns, states) && a <= b <= c <= |turns|
    requires Round(cfg, turns, states, true, a, b) && Round(cfg, turns, states, true, b, c)
    requires states[a].phase != Running && !Over(cfg, states[a])
    ensures Weight(cfg, states[c]) < Weight(cfg, states[a])
  {
    AlwaysSound(cfg, turns, states, a);
    var thread := StoppingReady(cfg, states[a]);
    TwoRoundsFall(cfg, turns, states, true, thread, a, b, c);
  }

  lemma TwoRoundsEnd(cfg: Config, turns: seq<Turn>, states: seq<State>, cuts: seq<nat>, r: nat)
    requires cfg.Valid() && IsRun(cfg, turns, states) && Rounds(cfg, turns, states, true, cuts)
    requires 2 * r + 2 < |cuts| && states[cuts[0]].phase != Running && NearlyOver(cfg, states, cuts, r)
    ensures NearlyOver(cfg, states, cuts, r + 1)
  {
    var a, b, c := cuts[2 * r], cuts[2 * r + 1], cuts[2 * r + 2];
    assert IsRound(cfg, turns, states, true, cuts, 2 * r) && IsRound(cfg, turns, states, true, cuts, 2 * r + 1);
    if Over(cfg, states[a]) {
      OverStays(cfg, turns, states, a, c);
    } else {
      CutsAscend(cfg, turns, states, true, cuts, 0, 2 * r);
      PhasesStay(cfg, turns, states, cuts[0], a);
      StoppingFalls(cfg, turns, states, a, b, c);
    }
  }

  lemma {:induction false} OverBy(cfg: Config, turns: seq<Turn>, states: seq<State>, cuts: seq<nat>, r: nat)
    requires cfg.Valid() && IsRun(cfg, turns, states) && Rounds(cfg, turns, states, true, cuts)
    requires 2 * r < |cuts| && states[cuts[0]].phase != Running
    ensures NearlyOver(cfg, states, cuts, r)
    decreases r
  {
    if r == 0 {
    } else {
      OverBy(cfg, turns, states, cuts, r - 1);
      TwoRoundsEnd(cfg, turns, states, cuts, r - 1);
    }
  }

  /** `stop` ends: on every run, once it has begun, as many rounds as twice the weight at
      their start bring it to its end or into a deadlock. */
  lemma FairStopEnds(cfg: Config, turns: seq<Turn>, states: seq<State>, cuts: seq<nat>)
    requires cfg.Valid() && IsRun(cfg, turns, states) && Rounds(cfg, turns, states, true, cuts)
    requires |cuts| > 2 * Weight(cfg, states[cuts[0]]) && states[cuts[0]].phase != Running
    ensures Over(cfg, states[cuts[|cuts| - 1]])
  {
    AlwaysSound(cfg, turns, states, cuts[0]);
    WeightIsNatural(cfg, states[cuts[0]]);
    var r := Weight(cfg, states[cuts[0]]);
    var n, last := cuts[2 * r], cuts[|cuts| - 1];
    OverBy(cfg, turns, states, cuts, r);
    if !Over(cfg, states[n]) {
      AlwaysSound(cfg, turns, states, n);
      CutsAscend(cfg, turns, states, true, cuts, 0, 2 * r);
      PhasesStay(cfg, turns, states, cuts[0], n);
      StoppingIsHeavy(cfg, states[n]);
    }
    CutsAscend(cfg, turns, states, true, cuts, 2 * r, |cuts| - 1);
    OverStays(cfg, turns, states, n, last);
  }

  lemma StoppingIsHeavy(cfg: Config, s: State)
    requires cfg.Valid() && PhaseInRange(cfg, s.phase) && s.phase != Stopped
    ensures Weight(cfg, s) > 0
  {
  }
}
