/** The books of the engine: every job is in exactly one place, and the counters of
    all threads agree with what happened to the jobs. */
module PipelineAccounts {
  import opened Types
  import opened Pipeline
  import PipelineOrder

  // ---------------------------------------------------------------- sums

  function Sum<T>(f: T -> nat, xs: seq<T>): nat {
    if xs == [] then 0 else Sum(f, xs[..|xs| - 1]) + f(xs[|xs| - 1])
  }

  lemma {:induction false} SumUpdate<T>(f: T -> nat, xs: seq<T>, i: nat, x: T)
    requires i < |xs|
    ensures Sum(f, xs[i := x]) + f(xs[i]) == Sum(f, xs) + f(x)
    decreases |xs|
  {
    var front, ys := xs[..|xs| - 1], xs[i := x];
    if i == |xs| - 1 {
      assert ys[..|xs| - 1] == front;
    } else {
      SumUpdate(f, front, i, x);
      assert ys[..|xs| - 1] == front[i := x];
    }
  }

  lemma {:induction false} SumAtLeast<T>(f: T -> nat, xs: seq<T>, i: nat)
    requires i < |xs|
    ensures Sum(f, xs) >= f(xs[i])
    decreases |xs|
  {
    if i == |xs| - 1 {
    } else {
      SumAtLeast(f, xs[..|xs| - 1], i);
    }
  }

  lemma {:induction false} SumSame<T>(f: T -> nat, xs: seq<T>, ys: seq<T>)
    requires |xs| == |ys| && forall i :: 0 <= i < |xs| ==> f(xs[i]) == f(ys[i])
    ensures Sum(f, xs) == Sum(f, ys)
    decreases |xs|
  {
    if xs == [] {
    } else {
      SumSame(f, xs[..|xs| - 1], ys[..|ys| - 1]);
    }
  }

  lemma {:induction false} SumZero<T>(f: T -> nat, xs: seq<T>)
    requires forall i :: 0 <= i < |xs| ==> f(xs[i]) == 0
    ensures Sum(f, xs) == 0
    decreases |xs|
  {
    if xs == [] {
    } else {
      SumZero(f, xs[..|xs| - 1]);
    }
  }

  // ---------------------------------------------------------------- loads

  function BalancerLoad(b: Balancer): nat {
    |b.input.queue| + |InHand(b.place)|
  }

  function WorkerLoad(w: Worker): nat {
    |w.input.queue| + |InHand(w.place)|
  }

  function PushLoad(w: Worker): nat {
    |InPush(w.place)|
  }

  function WorkerForwarded(w: Worker): nat {
    w.forwarded
  }

  function WorkerDropped(w: Worker): nat {
    w.dropped
  }

  /** How many jobs are on their way to a verdict. */
  function Pending(s: State): nat {
    |PipelineOrder.Hand(s.reader.hand)| + Sum(BalancerLoad, s.balancers) + Sum(WorkerLoad, s.workers)
  }

  /** How many are on their way from a verdict to the file. */
  function Leaving(s: State): nat {
    Sum(PushLoad, s.workers) + |s.output.queue.queue| + |InHand(s.output.place)|
  }

  /** How many jobs have a protocol. */
  function CountOf(jobs: seq<PacketJob>, protocol: byte): nat {
    if jobs == [] then 0
    else CountOf(jobs[..|jobs| - 1], protocol) + (if jobs[|jobs| - 1].tuple.protocol == protocol then 1 else 0)
  }

  lemma CountOneMore(jobs: seq<PacketJob>, job: PacketJob, protocol: byte)
    ensures CountOf(jobs + [job], protocol) ==
      CountOf(jobs, protocol) + (if job.tuple.protocol == protocol then 1 else 0)
  {
    assert (jobs + [job])[..|jobs|] == jobs;
  }

  // ---------------------------------------------------------------- the books

  predicate BalancerBooks(b: Balancer) {
    b.received == b.dispatched + |InHand(b.place)|
  }

  predicate WorkerBooks(w: Worker) {
    w.processed == w.forwarded + w.dropped + |InHand(w.place)| + |InPush(w.place)|
  }

  predicate ReaderBooks(r: Reader) {
    r.total == |r.created| && r.total == r.tcp + r.udp && r.tcp == CountOf(r.created, TCP)
  }

  /** The engine's totals: jobs created are pending or judged; jobs judged were
      forwarded or dropped; jobs forwarded are leaving or written. */
  predicate EngineBooks(s: State) {
    && |s.reader.created| == |s.log.verdicts| + Pending(s)
    && |s.log.verdicts| == s.log.forwarded + s.log.dropped
    && s.log.forwarded == |s.output.written| + Leaving(s)
    && s.log.forwarded == Sum(WorkerForwarded, s.workers) + Sum(PushLoad, s.workers)
    && s.log.dropped == Sum(WorkerDropped, s.workers)
  }

  predicate ThreadBooks(s: State) {
    && ReaderBooks(s.reader)
    && (forall i :: 0 <= i < |s.balancers| ==> BalancerBooks(s.balancers[i]))
    && (forall j :: 0 <= j < |s.workers| ==> WorkerBooks(s.workers[j]))
  }

  predicate Balanced(s: State) {
    ThreadBooks(s) && EngineBooks(s)
  }

  lemma BalancerChanged(s: State, i: nat, b: Balancer)
    requires i < |s.balancers|
    ensures Sum(BalancerLoad, s.balancers[i := b]) + BalancerLoad(s.balancers[i]) ==
      Sum(BalancerLoad, s.balancers) + BalancerLoad(b)
  {
    SumUpdate(BalancerLoad, s.balancers, i, b);
  }

  lemma WorkerChanged(s: State, j: nat, w: Worker)
    requires j < |s.workers|
    ensures Sum(WorkerLoad, s.workers[j := w]) + WorkerLoad(s.workers[j]) == Sum(WorkerLoad, s.workers) + WorkerLoad(w)
    ensures Sum(PushLoad, s.workers[j := w]) + PushLoad(s.workers[j]) == Sum(PushLoad, s.workers) + PushLoad(w)
    ensures Sum(WorkerForwarded, s.workers[j := w]) + s.workers[j].forwarded ==
      Sum(WorkerForwarded, s.workers) + w.forwarded
    ensures Sum(WorkerDropped, s.workers[j := w]) + s.workers[j].dropped == Sum(WorkerDropped, s.workers) + w.dropped
  {
    SumUpdate(WorkerLoad, s.workers, j, w);
    SumUpdate(PushLoad, s.workers, j, w);
    SumUpdate(WorkerForwarded, s.workers, j, w);
    SumUpdate(WorkerDropped, s.workers, j, w);
  }

  lemma FrameBalances(cfg: Config, s: State)
    requires ReadEnabled(cfg, s) && Balanced(s) && s.reader.hand == None
    ensures Balanced(DoRead(cfg, s))
  {
    if s.reader.unread[0].Some? {
      CountOneMore(s.reader.created, s.reader.unread[0].value, TCP);
    }
  }

  lemma PushBalances(cfg: Config, s: State, job: PacketJob)
    requires ReadEnabled(cfg, s) && Balanced(s) && s.reader.hand == Some(job)
    requires !s.balancers[cfg.balancerOf(job.tuple)].input.shut
    ensures Balanced(DoRead(cfg, s))
  {
    var i := cfg.balancerOf(job.tuple);
    BalancerChanged(s, i, DoRead(cfg, s).balancers[i]);
    assert BalancerBooks(s.balancers[i]);
  }

  lemma BalanceKeepsThreadBooks(cfg: Config, s: State, i: nat)
    requires BalanceEnabled(cfg, s, i) && ThreadBooks(s)
    ensures ThreadBooks(DoBalance(cfg, s, i))
  {
    assert BalancerBooks(s.balancers[i]);
    if s.balancers[i].place.Holding? {
      assert WorkerBooks(s.workers[cfg.workerOf(s.balancers[i].place.job.tuple)]);
    }
  }

  lemma SendKeepsEngineBooks(cfg: Config, s: State, i: nat)
    requires BalanceEnabled(cfg, s, i) && EngineBooks(s) && s.balancers[i].place.Holding?
    requires !s.workers[cfg.workerOf(s.balancers[i].place.job.tuple)].input.shut
    ensures EngineBooks(DoBalance(cfg, s, i))
  {
    var u, j := DoBalance(cfg, s, i), cfg.workerOf(s.balancers[i].place.job.tuple);
    BalancerChanged(s, i, u.balancers[i]);
    WorkerChanged(s, j, u.workers[j]);
  }

  lemma BalanceKeepsEngineBooks(cfg: Config, s: State, i: nat)
    requires BalanceEnabled(cfg, s, i) && EngineBooks(s)
    requires s.balancers[i].place.Holding? ==> !s.workers[cfg.workerOf(s.balancers[i].place.job.tuple)].input.shut
    ensures EngineBooks(DoBalance(cfg, s, i))
  {
    if s.balancers[i].place.Holding? {
      SendKeepsEngineBooks(cfg, s, i);
    } else {
      BalancerChanged(s, i, DoBalance(cfg, s, i).balancers[i]);
    }
  }

  lemma WorkKeepsThreadBooks(cfg: Config, s: State, j: nat, gone: set<FiveTuple>)
    requires WorkEnabled(cfg, s, j, gone) && ThreadBooks(s)
    ensures ThreadBooks(DoWork(cfg, s, j, gone))
  {
    assert WorkerBooks(s.workers[j]);
    assert WorkerBooks(DoWork(cfg, s, j, gone).workers[j]);
  }

  lemma JudgeKeepsEngineBooks(cfg: Config, s: State, j: nat, gone: set<FiveTuple>)
    requires WorkEnabled(cfg, s, j, gone) && EngineBooks(s) && s.workers[j].place.Holding?
    ensures EngineBooks(DoWork(cfg, s, j, gone))
  {
    WorkerChanged(s, j, Judged(cfg, s.workers[j], s.workers[j].place.job, gone));
  }

  lemma HandOverKeepsEngineBooks(cfg: Config, s: State, j: nat, gone: set<FiveTuple>)
    requires WorkEnabled(cfg, s, j, gone) && EngineBooks(s) && s.workers[j].place.Pushing? && !s.output.queue.shut
    ensures EngineBooks(DoWork(cfg, s, j, gone))
  {
    WorkerChanged(s, j, DoWork(cfg, s, j, gone).workers[j]);
  }

  lemma WaitKeepsEngineBooks(cfg: Config, s: State, j: nat, gone: set<FiveTuple>)
    requires WorkEnabled(cfg, s, j, gone) && EngineBooks(s)
    requires !s.workers[j].place.Holding? && !s.workers[j].place.Pushing?
    ensures EngineBooks(DoWork(cfg, s, j, gone))
  {
    var u := DoWork(cfg, s, j, gone);
    assert SameWorker(s.workers[j], u.workers[j]);
    assert u.workers == s.workers[j := u.workers[j]] && u.balancers == s.balancers;
    SameSums(s, u);
  }

  lemma WriteBalances(s: State)
    requires WriteEnabled(s) && Balanced(s)
    ensures Balanced(DoWrite(s))
  {
  }

  lemma StopKeepsBalancers(cfg: Config, s: State, i: nat)
    requires StopEnabled(cfg, s) && i < |s.balancers|
    ensures |DoStop(cfg, s).balancers| == |s.balancers|
    ensures var b := DoStop(cfg, s).balancers[i];
      b == s.balancers[i].(running := b.running, input := b.input)
    ensures DoStop(cfg, s).balancers[i].input.queue == s.balancers[i].input.queue
  {
  }

  lemma StopKeepsWorkers(cfg: Config, s: State, j: nat)
    requires StopEnabled(cfg, s) && j < |s.workers|
    ensures |DoStop(cfg, s).workers| == |s.workers|
    ensures var w := DoStop(cfg, s).workers[j];
      w == s.workers[j].(running := w.running, input := w.input)
    ensures DoStop(cfg, s).workers[j].input.queue == s.workers[j].input.queue
  {
  }

  predicate SameWorker(w: Worker, w1: Worker) {
    WorkerLoad(w) == WorkerLoad(w1) && PushLoad(w) == PushLoad(w1) && w.forwarded == w1.forwarded &&
    w.dropped == w1.dropped
  }

  lemma SameSums(s: State, u: State)
    requires |u.balancers| == |s.balancers| && |u.workers| == |s.workers|
    requires forall i :: 0 <= i < |s.balancers| ==> BalancerLoad(s.balancers[i]) == BalancerLoad(u.balancers[i])
    requires forall j :: 0 <= j < |s.workers| ==> SameWorker(s.workers[j], u.workers[j])
    ensures Sum(BalancerLoad, u.balancers) == Sum(BalancerLoad, s.balancers)
    ensures Sum(WorkerLoad, u.workers) == Sum(WorkerLoad, s.workers)
    ensures Sum(PushLoad, u.workers) == Sum(PushLoad, s.workers)
    ensures Sum(WorkerForwarded, u.workers) == Sum(WorkerForwarded, s.workers)
    ensures Sum(WorkerDropped, u.workers) == Sum(WorkerDropped, s.workers)
  {
    assert forall j :: 0 <= j < |s.workers| ==> SameWorker(s.workers[j], u.workers[j]);
    SumSame(BalancerLoad, s.balancers, u.balancers);
    SumSame(WorkerLoad, s.workers, u.workers);
    SumSame(PushLoad, s.workers, u.workers);
    SumSame(WorkerForwarded, s.workers, u.workers);
    SumSame(WorkerDropped, s.workers, u.workers);
  }

  /** `stop` moves no job. */
  lemma StopKeepsSums(cfg: Config, s: State)
    requires StopEnabled(cfg, s)
    ensures var u := DoStop(cfg, s);
      && Sum(BalancerLoad, u.balancers) == Sum(BalancerLoad, s.balancers)
      && Sum(WorkerLoad, u.workers) == Sum(WorkerLoad, s.workers)
      && Sum(PushLoad, u.workers) == Sum(PushLoad, s.workers)
      && Sum(WorkerForwarded, u.workers) == Sum(WorkerForwarded, s.workers)
      && Sum(WorkerDropped, u.workers) == Sum(WorkerDropped, s.workers)
  {
    var u := DoStop(cfg, s);
    forall i | 0 <= i < |s.balancers|
      ensures BalancerLoad(s.balancers[i]) == BalancerLoad(u.balancers[i])
    {
      StopKeepsBalancers(cfg, s, i);
    }
    forall j | 0 <= j < |s.workers|
      ensures SameWorker(s.workers[j], u.workers[j])
    {
      StopKeepsWorkers(cfg, s, j);
    }
    SameSums(s, u);
  }

  lemma StopKeepsThreadBooks(cfg: Config, s: State)
    requires StopEnabled(cfg, s) && ThreadBooks(s)
    ensures ThreadBooks(DoStop(cfg, s))
  {
    var u := DoStop(cfg, s);
    forall i | 0 <= i < |u.balancers|
      ensures BalancerBooks(u.balancers[i])
    {
      assert BalancerBooks(s.balancers[i]);
      StopKeepsBalancers(cfg, s, i);
    }
    forall j | 0 <= j < |u.workers|
      ensures WorkerBooks(u.workers[j])
    {
      assert WorkerBooks(s.workers[j]);
      StopKeepsWorkers(cfg, s, j);
    }
  }

  lemma StopKeepsRest(cfg: Config, s: State)
    requires StopEnabled(cfg, s)
    ensures var u := DoStop(cfg, s);
      && u.reader == s.reader && u.log == s.log && u.output.written == s.output.written
      && u.output.place == s.output.place && u.output.queue.queue == s.output.queue.queue
  {
  }

  lemma StopKeepsEngineBooks(cfg: Config, s: State)
    requires StopEnabled(cfg, s) && EngineBooks(s)
    ensures EngineBooks(DoStop(cfg, s))
  {
    StopKeepsSums(cfg, s);
    StopKeepsRest(cfg, s);
  }

  lemma StepBalances(cfg: Config, s: State, turn: Turn)
    requires Sound(cfg, s) && Enabled(cfg, s, turn) && Balanced(s)
    ensures Balanced(Next(cfg, s, turn))
  {
    match turn
    case Read =>
      PipelineOrder.ReaderFacts(cfg, s);
      if s.reader.hand == None {
        FrameBalances(cfg, s);
      } else {
        PushBalances(cfg, s, s.reader.hand.value);
      }
    case Balance(i) =>
      PipelineOrder.BalancerFacts(cfg, s, i);
      BalanceKeepsThreadBooks(cfg, s, i);
      BalanceKeepsEngineBooks(cfg, s, i);
    case Work(j, gone) =>
      PipelineOrder.WorkerFacts(cfg, s, j);
      WorkKeepsThreadBooks(cfg, s, j, gone);
      if s.workers[j].place.Holding? {
        JudgeKeepsEngineBooks(cfg, s, j, gone);
      } else if s.workers[j].place.Pushing? {
        HandOverKeepsEngineBooks(cfg, s, j, gone);
      } else {
        WaitKeepsEngineBooks(cfg, s, j, gone);
      }
    case Write => WriteBalances(s);
    case Stop =>
      StopKeepsThreadBooks(cfg, s);
      StopKeepsEngineBooks(cfg, s);
  }

  lemma InitiallyBalanced(cfg: Config)
    ensures Balanced(Initial(cfg))
  {
    var s := Initial(cfg);
    SumZero(BalancerLoad, s.balancers);
    SumZero(WorkerLoad, s.workers);
    SumZero(PushLoad, s.workers);
    SumZero(WorkerForwarded, s.workers);
    SumZero(WorkerDropped, s.workers);
  }

  /** At every point of every run, shutdown included, the books balance: total is TCP
      plus UDP, TCP is the number of TCP jobs, and total is what is pending plus what was judged; each balancer has
      dispatched what it received, each worker has forwarded or dropped what it
      processed, but for the job in its hands; and the engine's forwarded packets are
      those written, queued, being pushed or in the writer's hand. */
  lemma {:induction false} AlwaysBalanced(cfg: Config, turns: seq<Turn>, states: seq<State>, n: nat)
    requires cfg.Valid() && IsRun(cfg, turns, states) && n < |states|
    ensures Balanced(states[n])
  {
    if n == 0 {
      InitiallyBalanced(cfg);
    } else {
      var m := n - 1;
      AlwaysBalanced(cfg, turns, states, m);
      AlwaysSound(cfg, turns, states, m);
      assert IsStep(cfg, turns, states, m);
      StepBalances(cfg, states[m], turns[m]);
    }
  }

  // ---------------------------------------------------------------- exactly one place

  /** How often a job occurs in a sequence. */
  function Times(jobs: seq<PacketJob>, job: PacketJob): nat {
    multiset(jobs)[job]
  }

  lemma TimesJoin(a: seq<PacketJob>, b: seq<PacketJob>, job: PacketJob)
    ensures Times(a + b, job) == Times(a, job) + Times(b, job)
  {
  }

  lemma {:induction false} TimesOfOwn(jobs: seq<PacketJob>, job: PacketJob)
    ensures Times(PipelineOrder.Of(jobs, job.tuple), job) == Times(jobs, job)
  {
    if jobs == [] {
    } else {
      var front, last := jobs[..|jobs| - 1], jobs[|jobs| - 1];
      TimesOfOwn(front, job);
      assert jobs == front + [last];
      TimesJoin(front, [last], job);
      PipelineOrder.OfOneMore(front, last, job.tuple);
      TimesJoin(PipelineOrder.Of(front, job.tuple), PipelineOrder.One(last, job.tuple), job);
    }
  }

  /** The verdicts that dropped their packet. */
  function DroppedJobs(verdicts: seq<Verdict>): seq<PacketJob> {
    if verdicts == [] then []
    else
      var before, last := DroppedJobs(verdicts[..|verdicts| - 1]), verdicts[|verdicts| - 1];
      if last.action == Drop then before + [last.job] else before
  }

  lemma {:induction false} PassedOrDropped(verdicts: seq<Verdict>, job: PacketJob)
    ensures Times(PipelineOrder.Jobs(verdicts), job) ==
      Times(PipelineOrder.Passed(verdicts), job) + Times(DroppedJobs(verdicts), job)
  {
    if verdicts == [] {
    } else {
      var front, last := verdicts[..|verdicts| - 1], verdicts[|verdicts| - 1];
      PassedOrDropped(front, job);
      TimesJoin(PipelineOrder.Jobs(front), [last.job], job);
      TimesJoin(PipelineOrder.Passed(front), [last.job], job);
      TimesJoin(DroppedJobs(front), [last.job], job);
    }
  }

  /** All places where a job of one tuple can be. */
  function Places(cfg: Config, s: State, job: PacketJob): nat
    requires WellShaped(cfg, s) && cfg.balancerOf(job.tuple) < cfg.balancers && cfg.workerOf(job.tuple) < cfg.workers
  {
    var b, w := s.balancers[cfg.balancerOf(job.tuple)], s.workers[cfg.workerOf(job.tuple)];
    Times(PipelineOrder.Hand(s.reader.hand), job)
    + Times(b.input.queue, job) + Times(InHand(b.place), job)
    + Times(w.input.queue, job) + Times(InHand(w.place), job) + Times(InPush(w.place), job)
    + Times(s.output.queue.queue, job) + Times(InHand(s.output.place), job)
    + Times(s.output.written, job) + Times(DroppedJobs(s.log.verdicts), job)
  }

  lemma TimesOfPair(a: seq<PacketJob>, b: seq<PacketJob>, job: PacketJob)
    ensures Times(PipelineOrder.Of(a + b, job.tuple), job) == Times(a, job) + Times(b, job)
  {
    TimesOfOwn(a + b, job);
    TimesJoin(a, b, job);
  }

  lemma TimesPending(s: State, w: Worker, b: Balancer, job: PacketJob)
    requires PipelineOrder.Ordered(s.log.verdicts, w, b, s.reader, s.output, job.tuple)
    ensures Times(s.reader.created, job) == Times(PipelineOrder.Jobs(s.log.verdicts), job)
      + Times(InHand(w.place), job) + Times(w.input.queue, job) + Times(InHand(b.place), job)
      + Times(b.input.queue, job)
      + Times(PipelineOrder.Hand(s.reader.hand), job)
  {
    TimesOfOwn(s.reader.created, job);
    TimesOfOwn(PipelineOrder.Jobs(s.log.verdicts), job);
    TimesOfPair(InHand(w.place), w.input.queue, job);
    TimesOfPair(InHand(b.place), b.input.queue, job);
    TimesOfOwn(PipelineOrder.Hand(s.reader.hand), job);
  }

  lemma TimesLeaving(s: State, w: Worker, b: Balancer, job: PacketJob)
    requires PipelineOrder.Ordered(s.log.verdicts, w, b, s.reader, s.output, job.tuple)
    ensures Times(PipelineOrder.Passed(s.log.verdicts), job) == Times(s.output.written, job)
      + Times(InHand(s.output.place), job) + Times(s.output.queue.queue, job) + Times(InPush(w.place), job)
  {
    var o := s.output;
    TimesOfOwn(PipelineOrder.Passed(s.log.verdicts), job);
    TimesOfPair(o.written + InHand(o.place), o.queue.queue, job);
    TimesJoin(o.written, InHand(o.place), job);
    TimesOfOwn(InPush(w.place), job);
  }

  /** A job is with nobody but the balancer and the worker of its tuple. */
  predicate Elsewhere(cfg: Config, s: State, job: PacketJob) {
    && (forall i :: 0 <= i < |s.balancers| && i != cfg.balancerOf(job.tuple) ==>
          job !in s.balancers[i].input.queue && job !in InHand(s.balancers[i].place))
    && (forall j :: 0 <= j < |s.workers| && j != cfg.workerOf(job.tuple) ==>
          job !in s.workers[j].input.queue && job !in InHand(s.workers[j].place) && job !in InPush(s.workers[j].place))
  }

  lemma RoutedElsewhere(cfg: Config, s: State, job: PacketJob)
    requires Routed(cfg, s)
    ensures Elsewhere(cfg, s, job)
  {
    forall i | 0 <= i < |s.balancers| && i != cfg.balancerOf(job.tuple)
      ensures job !in s.balancers[i].input.queue && job !in InHand(s.balancers[i].place)
    {
      assert BalancerRouted(cfg, i, s.balancers[i]);
    }
    forall j | 0 <= j < |s.workers| && j != cfg.workerOf(job.tuple)
      ensures job !in s.workers[j].input.queue
      ensures job !in InHand(s.workers[j].place) && job !in InPush(s.workers[j].place)
    {
      assert WorkerRouted(cfg, j, s.workers[j]);
    }
  }

  /** Exactly-once: at every point of every run, a job is in the hands, queues, file and
      dropped packets of the engine exactly as many times as it was created, and all
      its places are those that its tuple leads to. */
  lemma ExactlyOnce(cfg: Config, turns: seq<Turn>, states: seq<State>, n: nat, job: PacketJob)
    requires cfg.Valid() && IsRun(cfg, turns, states) && n < |states|
    ensures WellShaped(cfg, states[n]) && Places(cfg, states[n], job) == Times(states[n].reader.created, job)
    ensures Elsewhere(cfg, states[n], job)
  {
    var s := states[n];
    PipelineOrder.AlwaysFaithful(cfg, turns, states, n, job.tuple);
    var b, w := s.balancers[cfg.balancerOf(job.tuple)], s.workers[cfg.workerOf(job.tuple)];
    TimesPending(s, w, b, job);
    TimesLeaving(s, w, b, job);
    PassedOrDropped(s.log.verdicts, job);
    RoutedElsewhere(cfg, s, job);
  }
}
