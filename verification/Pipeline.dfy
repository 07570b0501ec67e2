/** The four stages of the engine as a system of steps: one reader, load balancers,
    fast-path workers, one writer and the thread that calls `stop`, joined by bounded
    queues of any positive capacity and interleaved in any way. */
module Pipeline {
  import opened Types
  import opened QueueMonitor
  import FlowVerdict

  type Flow = FlowVerdict.Flow

  /** What a packet does to the state of its flow, and the verdict on it. */
  type Process = (Flow, PacketJob) -> (Flow, PacketAction)

  /** What a run of the engine is given. `balancerOf` and `workerOf` are the two
      tiers of dispatch, the second as an index among all workers; `process` is the
      verdict on a packet of a flow; the input holds a job for every frame that the
      reader does not skip. */
  datatype Config = Config(
    balancers: nat, workers: nat, balancerOf: FiveTuple -> nat, workerOf: FiveTuple -> nat,
    process: Process,
    balancerCap: nat, workerCap: nat, outputCap: nat, input: seq<Option<PacketJob>>)
  {
    ghost predicate Valid() {
      && balancers > 0 && workers > 0 && balancerCap > 0 && workerCap > 0 && outputCap > 0
      && (forall t :: balancerOf(t) < balancers) && (forall t :: workerOf(t) < workers)
    }
  }

  /** Where a thread is in its loop: at the test of its flag, waiting for its queue,
      with a job in hand, pushing a job that it has dealt with, or gone. */
  datatype Place =
    | AtHead
    | Waiting
    | Holding(job: PacketJob)
    | Pushing(job: PacketJob)
    | Exited

  datatype Reader = Reader(
    unread: seq<Option<PacketJob>>, hand: Option<PacketJob>, created: seq<PacketJob>, total: nat, tcp: nat, udp: nat)

  datatype Balancer = Balancer(
    input: Core<PacketJob>, running: bool, place: Place, received: nat, dispatched: nat)

  datatype Worker = Worker(
    input: Core<PacketJob>, running: bool, place: Place, table: map<FiveTuple, Flow>,
    processed: nat, forwarded: nat, dropped: nat)

  datatype Output = Output(queue: Core<PacketJob>, place: Place, written: seq<PacketJob>)

  /** A verdict, and whether the packet's entry had to be created for it. */
  datatype Verdict = Verdict(job: PacketJob, action: PacketAction, anew: bool)

  /** The verdicts in the order in which they were reached, the tuples that a table
      has ever lost to an eviction or a cleanup, and the engine's two counters. */
  datatype Log = Log(verdicts: seq<Verdict>, lost: set<FiveTuple>, forwarded: nat, dropped: nat)

  datatype Part = Clear | Shut | Join

  /** How far `stop` has come. It stops one thread after the other, and for each
      clears its flag, shuts its queue and joins it. */
  datatype Phase =
    | Running
    | StopBalancer(i: nat, part: Part)
    | StopWorker(j: nat, part: Part)
    | CloseOutput
    | JoinWriter
    | Stopped

  /** `vanished` holds the jobs that were pushed on a queue already shut. */
  datatype State = State(
    reader: Reader, balancers: seq<Balancer>, workers: seq<Worker>, output: Output,
    log: Log, running: bool, phase: Phase, vanished: seq<PacketJob>)

  function Initial(cfg: Config): State {
    State(
      Reader(cfg.input, None, [], 0, 0, 0),
      seq(cfg.balancers, _ => Balancer(Core([], false), true, AtHead, 0, 0)),
      seq(cfg.workers, _ => Worker(Core([], false), true, AtHead, map[], 0, 0, 0)),
      Output(Core([], false), AtHead, []),
      Log([], {}, 0, 0), true, Running, [])
  }

  /** Whose turn it is. A turn of a worker also fixes what its table loses: the victim
      of an eviction, or what a cleanup removes. */
  datatype Turn =
    | Read
    | Balance(i: nat)
    | Work(j: nat, gone: set<FiveTuple>)
    | Write
    | Stop

  predicate WellShaped(cfg: Config, s: State) {
    |s.balancers| == cfg.balancers && |s.workers| == cfg.workers
  }

  // ---------------------------------------------------------------- the reader

  predicate CanPush(cap: nat, queue: Core<PacketJob>) {
    queue.shut || |queue.queue| < cap
  }

  function Pushed(cap: nat, queue: Core<PacketJob>, job: PacketJob): Core<PacketJob> {
    PushCore(cap, queue, job).0
  }

  /** A job pushed on a queue that is shut is gone. */
  function Lost(queue: Core<PacketJob>, job: PacketJob): seq<PacketJob> {
    if queue.shut then [job] else []
  }

  predicate ReadEnabled(cfg: Config, s: State) {
    match s.reader.hand
    case None => s.reader.unread != []
    case Some(job) =>
      var i := cfg.balancerOf(job.tuple);
      i < |s.balancers| && CanPush(cfg.balancerCap, s.balancers[i].input)
  }

  function TakeFrame(r: Reader): Reader
    requires r.unread != []
  {
    match r.unread[0]
    case None => r.(unread := r.unread[1..])
    case Some(job) =>
      Reader(r.unread[1..], Some(job), r.created + [job], r.total + 1,
             r.tcp + (if job.tuple.protocol == TCP then 1 else 0), r.udp + (if job.tuple.protocol == TCP then 0 else 1))
  }

  function DoRead(cfg: Config, s: State): State
    requires ReadEnabled(cfg, s)
  {
    match s.reader.hand
    case None => s.(reader := TakeFrame(s.reader))
    case Some(job) =>
      var i := cfg.balancerOf(job.tuple);
      var b := s.balancers[i];
      s.(reader := s.reader.(hand := None),
         balancers := s.balancers[i := b.(input := Pushed(cfg.balancerCap, b.input, job))],
         vanished := s.vanished + Lost(b.input, job))
  }

  predicate ReaderDone(s: State) {
    s.reader.unread == [] && s.reader.hand == None
  }

  // ---------------------------------------------------------------- a balancer

  predicate BalanceEnabled(cfg: Config, s: State, i: nat) {
    i < |s.balancers| &&
    match s.balancers[i].place
    case AtHead => true
    case Waiting => true
    case Holding(job) =>
      var j := cfg.workerOf(job.tuple);
      j < |s.workers| && CanPush(cfg.workerCap, s.workers[j].input)
    case _ => false
  }

  /** The wait ends with a job, or with none because of a timeout or a shutdown. */
  function Popped(b: Balancer): Balancer {
    match PopCore(b.input).1
    case Item(job) => Balancer(PopCore(b.input).0, b.running, Holding(job), b.received + 1, b.dispatched)
    case _ => b.(place := AtHead)
  }

  function DoBalance(cfg: Config, s: State, i: nat): State
    requires BalanceEnabled(cfg, s, i)
  {
    var b := s.balancers[i];
    match b.place
    case AtHead => s.(balancers := s.balancers[i := b.(place := if b.running then Waiting else Exited)])
    case Waiting => s.(balancers := s.balancers[i := Popped(b)])
    case Holding(job) =>
      var j := cfg.workerOf(job.tuple);
      var w := s.workers[j];
      s.(balancers := s.balancers[i := b.(place := AtHead, dispatched := b.dispatched + 1)],
         workers := s.workers[j := w.(input := Pushed(cfg.workerCap, w.input, job))],
         vanished := s.vanished + Lost(w.input, job))
    case _ => s
  }

  // ---------------------------------------------------------------- a worker

  predicate WorkEnabled(cfg: Config, s: State, j: nat, gone: set<FiveTuple>) {
    j < |s.workers| &&
    match s.workers[j].place
    case AtHead => true
    case Waiting => true
    case Holding(job) => job.tuple !in gone
    case Pushing(job) => CanPush(cfg.outputCap, s.output.queue)
    case Exited => false
  }

  function Taken(w: Worker, gone: set<FiveTuple>): Worker {
    match PopCore(w.input).1
    case Item(job) => w.(input := PopCore(w.input).0, place := Holding(job), processed := w.processed + 1)
    case _ => w.(place := AtHead, table := w.table - gone)
  }

  /** What a wait that brings no job takes out of the table. */
  function Swept(w: Worker, gone: set<FiveTuple>): set<FiveTuple> {
    if w.input.queue == [] then gone else {}
  }

  function Lookup(table: map<FiveTuple, Flow>, t: FiveTuple): Flow {
    if t in table then table[t] else FlowVerdict.FRESH
  }

  function Judged(cfg: Config, w: Worker, job: PacketJob, gone: set<FiveTuple>): Worker {
    var (flow, action) := cfg.process(Lookup(w.table, job.tuple), job);
    var table := (w.table - gone)[job.tuple := flow];
    if action == Drop then w.(place := AtHead, table := table, dropped := w.dropped + 1)
    else w.(place := Pushing(job), table := table)
  }

  function VerdictOn(cfg: Config, w: Worker, job: PacketJob): Verdict {
    Verdict(job, cfg.process(Lookup(w.table, job.tuple), job).1, job.tuple !in w.table)
  }

  function Recorded(log: Log, v: Verdict, gone: set<FiveTuple>): Log {
    Log(log.verdicts + [v], log.lost + gone,
        log.forwarded + (if v.action == Drop then 0 else 1), log.dropped + (if v.action == Drop then 1 else 0))
  }

  function DoWork(cfg: Config, s: State, j: nat, gone: set<FiveTuple>): State
    requires WorkEnabled(cfg, s, j, gone)
  {
    var w := s.workers[j];
    match w.place
    case AtHead => s.(workers := s.workers[j := w.(place := if w.running then Waiting else Exited)])
    case Waiting =>
      s.(workers := s.workers[j := Taken(w, gone)], log := s.log.(lost := s.log.lost + Swept(w, gone)))
    case Holding(job) =>
      s.(workers := s.workers[j := Judged(cfg, w, job, gone)], log := Recorded(s.log, VerdictOn(cfg, w, job), gone))
    case Pushing(job) =>
      s.(workers := s.workers[j := w.(place := AtHead, forwarded := w.forwarded + 1)],
         output := s.output.(queue := Pushed(cfg.outputCap, s.output.queue, job)),
         vanished := s.vanished + Lost(s.output.queue, job))
    case Exited => s
  }

  // ---------------------------------------------------------------- the writer

  /** The writer stops once the engine does not run and its queue is empty at the
      moment it looks. */
  function DoWrite(s: State): State {
    var o := s.output;
    match o.place
    case AtHead => s.(output := o.(place := if s.running || o.queue.queue != [] then Waiting else Exited))
    case Waiting =>
      (match PopCore(o.queue).1
       case Item(job) => s.(output := Output(PopCore(o.queue).0, Holding(job), o.written))
       case _ => s.(output := o.(place := AtHead)))
    case Holding(job) => s.(output := o.(place := AtHead, written := o.written + [job]))
    case _ => s
  }

  predicate WriteEnabled(s: State) {
    s.output.place.AtHead? || s.output.place.Waiting? || s.output.place.Holding?
  }

  // ---------------------------------------------------------------- stop

  /** The caller of `stop` has joined the reader. */
  predicate StopEnabled(cfg: Config, s: State) {
    match s.phase
    case Running => ReaderDone(s)
    case StopBalancer(i, part) => i < |s.balancers| && (part == Join ==> s.balancers[i].place == Exited)
    case StopWorker(j, part) => j < |s.workers| && (part == Join ==> s.workers[j].place == Exited)
    case CloseOutput => true
    case JoinWriter => s.output.place == Exited
    case Stopped => false
  }

  function AfterBalancer(cfg: Config, i: nat): Phase {
    if i + 1 < cfg.balancers then StopBalancer(i + 1, Clear) else StopWorker(0, Clear)
  }

  function AfterWorker(cfg: Config, j: nat): Phase {
    if j + 1 < cfg.workers then StopWorker(j + 1, Clear) else CloseOutput
  }

  function DoStop(cfg: Config, s: State): State
    requires StopEnabled(cfg, s)
  {
    match s.phase
    case Running => s.(running := false, phase := StopBalancer(0, Clear))
    case StopBalancer(i, part) =>
      var b := s.balancers[i];
      (match part
       case Clear => s.(balancers := s.balancers[i := b.(running := false)], phase := StopBalancer(i, Shut))
       case Shut => s.(balancers := s.balancers[i := b.(input := b.input.(shut := true))],
           phase := StopBalancer(i, Join))
       case Join => s.(phase := AfterBalancer(cfg, i)))
    case StopWorker(j, part) =>
      var w := s.workers[j];
      (match part
       case Clear => s.(workers := s.workers[j := w.(running := false)], phase := StopWorker(j, Shut))
       case Shut => s.(workers := s.workers[j := w.(input := w.input.(shut := true))], phase := StopWorker(j, Join))
       case Join => s.(phase := AfterWorker(cfg, j)))
    case CloseOutput => s.(output := s.output.(queue := s.output.queue.(shut := true)), phase := JoinWriter)
    case JoinWriter => s.(phase := Stopped)
    case Stopped => s
  }

  // ---------------------------------------------------------------- steps and runs

  predicate Enabled(cfg: Config, s: State, turn: Turn) {
    match turn
    case Read => ReadEnabled(cfg, s)
    case Balance(i) => BalanceEnabled(cfg, s, i)
    case Work(j, gone) => WorkEnabled(cfg, s, j, gone)
    case Write => WriteEnabled(s)
    case Stop => StopEnabled(cfg, s)
  }

  function Next(cfg: Config, s: State, turn: Turn): State
    requires Enabled(cfg, s, turn)
  {
    match turn
    case Read => DoRead(cfg, s)
    case Balance(i) => DoBalance(cfg, s, i)
    case Work(j, gone) => DoWork(cfg, s, j, gone)
    case Write => DoWrite(s)
    case Stop => DoStop(cfg, s)
  }

  ghost predicate Becomes(cfg: Config, s: State, turn: Turn, u: State) {
    Enabled(cfg, s, turn) && u == Next(cfg, s, turn)
  }

  ghost predicate IsStep(cfg: Config, turns: seq<Turn>, states: seq<State>, i: nat)
    requires i < |turns| < |states|
  {
    Becomes(cfg, states[i], turns[i], states[i + 1])
  }

  /** The states of a run, from the start of all threads to the present one. */
  ghost predicate IsRun(cfg: Config, turns: seq<Turn>, states: seq<State>) {
    && |states| == |turns| + 1 && states[0] == Initial(cfg)
    && forall i :: 0 <= i < |turns| ==> IsStep(cfg, turns, states, i)
  }

  // ---------------------------------------------------------------- routing

  predicate AllFor(f: FiveTuple -> nat, i: nat, jobs: seq<PacketJob>) {
    forall k :: 0 <= k < |jobs| ==> f(jobs[k].tuple) == i
  }

  /** The job a thread has not dealt with yet. */
  function InHand(place: Place): seq<PacketJob> {
    if place.Holding? then [place.job] else []
  }

  function InPush(place: Place): seq<PacketJob> {
    if place.Pushing? then [place.job] else []
  }

  predicate BalancerRouted(cfg: Config, i: nat, b: Balancer) {
    AllFor(cfg.balancerOf, i, b.input.queue) && AllFor(cfg.balancerOf, i, InHand(b.place)) && !b.place.Pushing?
  }

  predicate WorkerRouted(cfg: Config, j: nat, w: Worker) {
    && AllFor(cfg.workerOf, j, w.input.queue) && AllFor(cfg.workerOf, j, InHand(w.place))
    && AllFor(cfg.workerOf, j, InPush(w.place))
  }

  /** Every job is with the balancer and then with the worker that its tuple names. */
  predicate Routed(cfg: Config, s: State) {
    && WellShaped(cfg, s) && !s.output.place.Pushing?
    && (forall i :: 0 <= i < |s.balancers| ==> BalancerRouted(cfg, i, s.balancers[i]))
    && (forall j :: 0 <= j < |s.workers| ==> WorkerRouted(cfg, j, s.workers[j]))
  }

  lemma ReadRoutes(cfg: Config, s: State)
    requires Routed(cfg, s) && ReadEnabled(cfg, s)
    ensures Routed(cfg, DoRead(cfg, s))
  {
    if s.reader.hand.Some? {
      var job := s.reader.hand.value;
      var i := cfg.balancerOf(job.tuple);
      assert BalancerRouted(cfg, i, s.balancers[i]);
      assert BalancerRouted(cfg, i, DoRead(cfg, s).balancers[i]);
    }
  }

  lemma BalanceRoutes(cfg: Config, s: State, i: nat)
    requires Routed(cfg, s) && BalanceEnabled(cfg, s, i)
    ensures Routed(cfg, DoBalance(cfg, s, i))
  {
    var u := DoBalance(cfg, s, i);
    assert BalancerRouted(cfg, i, s.balancers[i]);
    assert BalancerRouted(cfg, i, u.balancers[i]);
    if s.balancers[i].place.Holding? {
      var j := cfg.workerOf(s.balancers[i].place.job.tuple);
      assert WorkerRouted(cfg, j, s.workers[j]);
      assert WorkerRouted(cfg, j, u.workers[j]);
    }
  }

  lemma WorkRoutes(cfg: Config, s: State, j: nat, gone: set<FiveTuple>)
    requires Routed(cfg, s) && WorkEnabled(cfg, s, j, gone)
    ensures Routed(cfg, DoWork(cfg, s, j, gone))
  {
    assert WorkerRouted(cfg, j, s.workers[j]);
    assert WorkerRouted(cfg, j, DoWork(cfg, s, j, gone).workers[j]);
  }

  lemma StopRoutes(cfg: Config, s: State)
    requires Routed(cfg, s) && StopEnabled(cfg, s)
    ensures Routed(cfg, DoStop(cfg, s))
  {
  }

  lemma StepRoutes(cfg: Config, s: State, turn: Turn)
    requires Routed(cfg, s) && Enabled(cfg, s, turn)
    ensures Routed(cfg, Next(cfg, s, turn))
  {
    match turn
    case Read => ReadRoutes(cfg, s);
    case Balance(i) => BalanceRoutes(cfg, s, i);
    case Work(j, gone) => WorkRoutes(cfg, s, j, gone);
    case Write =>
    case Stop => StopRoutes(cfg, s);
  }

  // ---------------------------------------------------------------- order of shutdown

  predicate BalancerCleared(phase: Phase, i: nat) {
    phase != Running && (phase.StopBalancer? ==> i < phase.i || (i == phase.i && phase.part != Clear))
  }

  predicate BalancerShut(phase: Phase, i: nat) {
    phase != Running && (phase.StopBalancer? ==> i < phase.i || (i == phase.i && phase.part == Join))
  }

  predicate BalancerJoined(phase: Phase, i: nat) {
    phase != Running && (phase.StopBalancer? ==> i < phase.i)
  }

  predicate WorkerCleared(phase: Phase, j: nat) {
    phase != Running && !phase.StopBalancer? &&
        (phase.StopWorker? ==> j < phase.j || (j == phase.j && phase.part != Clear))
  }

  predicate WorkerShut(phase: Phase, j: nat) {
    phase != Running && !phase.StopBalancer? &&
        (phase.StopWorker? ==> j < phase.j || (j == phase.j && phase.part == Join))
  }

  predicate WorkerJoined(phase: Phase, j: nat) {
    phase != Running && !phase.StopBalancer? && (phase.StopWorker? ==> j < phase.j)
  }

  predicate BalancerInPhase(phase: Phase, i: nat, b: Balancer) {
    && (b.running <==> !BalancerCleared(phase, i)) && (b.input.shut <==> BalancerShut(phase, i))
    && (BalancerJoined(phase, i) ==> b.place == Exited) && (b.place == Exited ==> !b.running)
  }

  predicate WorkerInPhase(phase: Phase, j: nat, w: Worker) {
    && (w.running <==> !WorkerCleared(phase, j)) && (w.input.shut <==> WorkerShut(phase, j))
    && (WorkerJoined(phase, j) ==> w.place == Exited) && (w.place == Exited ==> !w.running)
  }

  predicate OutputInPhase(phase: Phase, s: State) {
    && (s.running <==> phase == Running) && (phase != Running ==> ReaderDone(s))
    && (s.output.queue.shut <==> phase == JoinWriter || phase == Stopped)
    && (s.output.place == Exited ==> !s.running) && (phase == Stopped ==> s.output.place == Exited)
  }

  predicate PhaseInRange(cfg: Config, phase: Phase) {
    (phase.StopBalancer? ==> phase.i < cfg.balancers) && (phase.StopWorker? ==> phase.j < cfg.workers)
  }

  /** The threads are as far as `stop` has brought them, and no job has ever been
      pushed on a queue that was shut. */
  predicate InPhase(cfg: Config, s: State) {
    && WellShaped(cfg, s) && PhaseInRange(cfg, s.phase) && s.vanished == [] && OutputInPhase(s.phase, s)
    && (forall i :: 0 <= i < |s.balancers| ==> BalancerInPhase(s.phase, i, s.balancers[i]))
    && (forall j :: 0 <= j < |s.workers| ==> WorkerInPhase(s.phase, j, s.workers[j]))
  }

  lemma ReadInPhase(cfg: Config, s: State)
    requires InPhase(cfg, s) && ReadEnabled(cfg, s)
    ensures InPhase(cfg, DoRead(cfg, s))
  {
    if s.reader.hand.Some? {
      var i := cfg.balancerOf(s.reader.hand.value.tuple);
      assert BalancerInPhase(s.phase, i, s.balancers[i]);
      assert BalancerInPhase(s.phase, i, DoRead(cfg, s).balancers[i]);
    }
  }

  lemma BalanceInPhase(cfg: Config, s: State, i: nat)
    requires InPhase(cfg, s) && BalanceEnabled(cfg, s, i)
    ensures InPhase(cfg, DoBalance(cfg, s, i))
  {
    var u := DoBalance(cfg, s, i);
    assert BalancerInPhase(s.phase, i, s.balancers[i]);
    assert BalancerInPhase(s.phase, i, u.balancers[i]);
    if s.balancers[i].place.Holding? {
      var j := cfg.workerOf(s.balancers[i].place.job.tuple);
      assert WorkerInPhase(s.phase, j, s.workers[j]);
      assert WorkerInPhase(s.phase, j, u.workers[j]);
    }
  }

  lemma WorkInPhase(cfg: Config, s: State, j: nat, gone: set<FiveTuple>)
    requires InPhase(cfg, s) && WorkEnabled(cfg, s, j, gone)
    ensures InPhase(cfg, DoWork(cfg, s, j, gone))
  {
    assert WorkerInPhase(s.phase, j, s.workers[j]);
    assert WorkerInPhase(s.phase, j, DoWork(cfg, s, j, gone).workers[j]);
  }

  lemma StopBalancerInPhase(cfg: Config, s: State)
    requires cfg.Valid() && InPhase(cfg, s) && StopEnabled(cfg, s) && s.phase.StopBalancer?
    ensures InPhase(cfg, DoStop(cfg, s))
  {
    var u := DoStop(cfg, s);
    forall i | 0 <= i < |u.balancers|
      ensures BalancerInPhase(u.phase, i, u.balancers[i])
    {
      assert BalancerInPhase(s.phase, i, s.balancers[i]);
    }
    forall j | 0 <= j < |u.workers|
      ensures WorkerInPhase(u.phase, j, u.workers[j])
    {
      assert WorkerInPhase(s.phase, j, s.workers[j]);
    }
  }

  lemma StopInPhase(cfg: Config, s: State)
    requires cfg.Valid() && InPhase(cfg, s) && StopEnabled(cfg, s) && !s.phase.StopBalancer?
    ensures InPhase(cfg, DoStop(cfg, s))
  {
    var u := DoStop(cfg, s);
    forall i | 0 <= i < |u.balancers|
      ensures BalancerInPhase(u.phase, i, u.balancers[i])
    {
      assert BalancerInPhase(s.phase, i, s.balancers[i]);
    }
    forall j | 0 <= j < |u.workers|
      ensures WorkerInPhase(u.phase, j, u.workers[j])
    {
      assert WorkerInPhase(s.phase, j, s.workers[j]);
    }
  }

  lemma StepInPhase(cfg: Config, s: State, turn: Turn)
    requires cfg.Valid() && InPhase(cfg, s) && Enabled(cfg, s, turn)
    ensures InPhase(cfg, Next(cfg, s, turn))
  {
    match turn
    case Read => ReadInPhase(cfg, s);
    case Balance(i) => BalanceInPhase(cfg, s, i);
    case Work(j, gone) => WorkInPhase(cfg, s, j, gone);
    case Write =>
    case Stop => if s.phase.StopBalancer? { StopBalancerInPhase(cfg, s); } else { StopInPhase(cfg, s); }
  }

  ghost predicate Sound(cfg: Config, s: State) {
    cfg.Valid() && Routed(cfg, s) && InPhase(cfg, s)
  }

  /** On every run, jobs are where dispatch sends them, the shutdown is in order and no
      push is ever made on a shut queue. */
  lemma {:induction false} AlwaysSound(cfg: Config, turns: seq<Turn>, states: seq<State>, n: nat)
    requires cfg.Valid() && IsRun(cfg, turns, states) && n < |states|
    ensures Sound(cfg, states[n])
  {
    if n == 0 {
    } else {
      var m := n - 1;
      AlwaysSound(cfg, turns, states, m);
      assert IsStep(cfg, turns, states, m);
      StepRoutes(cfg, states[m], turns[m]);
      StepInPhase(cfg, states[m], turns[m]);
    }
  }
}
