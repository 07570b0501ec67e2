/** What comes out of the engine: for every flow, on every interleaving, what a
    sequential filter of that flow alone lets through. */
module PipelineOrder {
  import opened Types
  import opened Pipeline
  import FlowVerdict

  // ---------------------------------------------------------------- one flow's jobs

  /** The jobs of one tuple, in order. */
  function Of(jobs: seq<PacketJob>, t: FiveTuple): seq<PacketJob> {
    if jobs == [] then []
    else Of(jobs[..|jobs| - 1], t) + (if jobs[|jobs| - 1].tuple == t then [jobs[|jobs| - 1]] else [])
  }

  lemma OfOneMore(jobs: seq<PacketJob>, job: PacketJob, t: FiveTuple)
    ensures Of(jobs + [job], t) == Of(jobs, t) + One(job, t)
  {
    assert (jobs + [job])[..|jobs|] == jobs;
  }

  lemma {:induction false} OfJoin(a: seq<PacketJob>, b: seq<PacketJob>, t: FiveTuple)
    ensures Of(a + b, t) == Of(a, t) + Of(b, t)
    decreases |b|
  {
    if b == [] {
      assert a + b == a;
    } else {
      var front, last := b[..|b| - 1], b[|b| - 1];
      OfJoin(a, front, t);
      OfOneMore(a + front, last, t);
      assert a + b == (a + front) + [last];
    }
  }

  /** A job as part of its flow. */
  function One(job: PacketJob, t: FiveTuple): seq<PacketJob> {
    if job.tuple == t then [job] else []
  }

  lemma OfFirst(job: PacketJob, jobs: seq<PacketJob>, t: FiveTuple)
    ensures Of([job] + jobs, t) == One(job, t) + Of(jobs, t)
  {
    OfJoin([job], jobs, t);
    OfOneMore([], job, t);
    assert [] + [job] == [job];
  }

  // ---------------------------------------------------------------- the verdicts

  function Jobs(verdicts: seq<Verdict>): (jobs: seq<PacketJob>)
    ensures |jobs| == |verdicts|
  {
    if verdicts == [] then [] else Jobs(verdicts[..|verdicts| - 1]) + [verdicts[|verdicts| - 1].job]
  }

  /** The jobs that were let through. */
  function Passed(verdicts: seq<Verdict>): seq<PacketJob> {
    if verdicts == [] then []
    else
      var last := verdicts[|verdicts| - 1];
      var before := Passed(verdicts[..|verdicts| - 1]);
      if last.action == Drop then before else before + [last.job]
  }

  lemma VerdictsOneMore(verdicts: seq<Verdict>, v: Verdict)
    ensures Jobs(verdicts + [v]) == Jobs(verdicts) + [v.job]
    ensures Passed(verdicts + [v]) == if v.action == Drop then Passed(verdicts) else Passed(verdicts) + [v.job]
  {
    assert (verdicts + [v])[..|verdicts|] == verdicts;
  }

  // ---------------------------------------------------------------- the path of a flow

  function Hand(hand: Option<PacketJob>): seq<PacketJob> {
    match hand
    case Some(job) => [job]
    case None => []
  }

  // What is with the flow's worker, its balancer and the reader, oldest first.

  function AtWorker(w: Worker, t: FiveTuple): seq<PacketJob> {
    Of(InHand(w.place) + w.input.queue, t)
  }

  function AtBalancer(b: Balancer, t: FiveTuple): seq<PacketJob> {
    Of(InHand(b.place) + b.input.queue, t)
  }

  function AtReader(r: Reader, t: FiveTuple): seq<PacketJob> {
    Of(Hand(r.hand), t)
  }

  /** What the writer has written, holds and has queued. */
  function AtWriter(o: Output, t: FiveTuple): seq<PacketJob> {
    Of(o.written + InHand(o.place) + o.queue.queue, t)
  }

  function InPushOf(w: Worker, t: FiveTuple): seq<PacketJob> {
    Of(InPush(w.place), t)
  }

  /** The jobs of one tuple are judged in the order in which they were created, and
      those let through reach the file in the order in which they were judged. */
  ghost predicate Ordered(verdicts: seq<Verdict>, w: Worker, b: Balancer, r: Reader,
          o: Output, t: FiveTuple) {
    && Of(r.created, t) == Of(Jobs(verdicts), t) + AtWorker(w, t) + AtBalancer(b, t) + AtReader(r, t)
    && Of(Passed(verdicts), t) == AtWriter(o, t) + InPushOf(w, t)
  }

  ghost predicate InOrder(cfg: Config, s: State, t: FiveTuple) {
    WellShaped(cfg, s) && cfg.balancerOf(t) < cfg.balancers && cfg.workerOf(t) < cfg.workers &&
    Ordered(s.log.verdicts, s.workers[cfg.workerOf(t)], s.balancers[cfg.balancerOf(t)], s.reader, s.output, t)
  }

  lemma OneAlone(job: PacketJob, t: FiveTuple)
    ensures Of([job], t) == One(job, t)
  {
    OfOneMore([], job, t);
    assert [] + [job] == [job];
  }

  lemma QueuedAtWorker(w: Worker, w1: Worker, job: PacketJob, t: FiveTuple)
    requires w1.place == w.place && w1.input.queue == w.input.queue + [job]
    ensures AtWorker(w1, t) == AtWorker(w, t) + One(job, t) && InPushOf(w1, t) == InPushOf(w, t)
  {
    var before := InHand(w.place) + w.input.queue;
    assert InHand(w1.place) + w1.input.queue == before + [job];
    OfOneMore(before, job, t);
  }

  lemma QueuedAtBalancer(b: Balancer, b1: Balancer, job: PacketJob, t: FiveTuple)
    requires b1.place == b.place && b1.input.queue == b.input.queue + [job]
    ensures AtBalancer(b1, t) == AtBalancer(b, t) + One(job, t)
  {
    var before := InHand(b.place) + b.input.queue;
    assert InHand(b1.place) + b1.input.queue == before + [job];
    OfOneMore(before, job, t);
  }

  lemma SentByBalancer(b: Balancer, b1: Balancer, job: PacketJob, t: FiveTuple)
    requires b.place == Holding(job) && b1.place == AtHead && b1.input.queue == b.input.queue
    ensures AtBalancer(b, t) == One(job, t) + AtBalancer(b1, t)
  {
    assert InHand(b1.place) + b1.input.queue == b.input.queue;
    OfFirst(job, b.input.queue, t);
  }

  lemma TakenByWorker(w: Worker, w1: Worker, job: PacketJob, t: FiveTuple)
    requires w.place == Holding(job) && !w1.place.Holding? && w1.input.queue == w.input.queue
    ensures AtWorker(w, t) == One(job, t) + AtWorker(w1, t)
  {
    assert InHand(w1.place) + w1.input.queue == w.input.queue;
    OfFirst(job, w.input.queue, t);
  }

  lemma QueuedAtWriter(o: Output, o1: Output, job: PacketJob, t: FiveTuple)
    requires o1.written == o.written && o1.place == o.place && o1.queue.queue == o.queue.queue + [job]
    ensures AtWriter(o1, t) == AtWriter(o, t) + One(job, t)
  {
    var before := o.written + InHand(o.place) + o.queue.queue;
    assert o1.written + InHand(o1.place) + o1.queue.queue == before + [job];
    OfOneMore(before, job, t);
  }

  // ---------------------------------------------------------------- how each turn moves the flow

  lemma EmptyEnd(a: seq<PacketJob>)
    ensures a + [] == a
  {
  }

  lemma FrameTaken(verdicts: seq<Verdict>, w: Worker, b: Balancer, r: Reader, o: Output, t: FiveTuple)
    requires Ordered(verdicts, w, b, r, o, t) && r.hand == None && r.unread != []
    ensures Ordered(verdicts, w, b, TakeFrame(r), o, t)
  {
    if r.unread[0].Some? {
      var job := r.unread[0].value;
      OfOneMore(r.created, job, t);
      OneAlone(job, t);
      assert AtReader(r, t) == [] && AtReader(TakeFrame(r), t) == One(job, t);
      EmptyEnd(Of(Jobs(verdicts), t) + AtWorker(w, t) + AtBalancer(b, t));
    }
  }

  /** The reader's job goes to the flow's balancer, or it is not the flow's. */
  lemma JobRead(verdicts: seq<Verdict>, w: Worker, b: Balancer, b1: Balancer, r: Reader,
          r1: Reader, o: Output, t: FiveTuple, job: PacketJob)
    requires Ordered(verdicts, w, b, r, o, t) && r.hand == Some(job) && r1.hand == None && r1.created == r.created
    requires AtBalancer(b1, t) == AtBalancer(b, t) + One(job, t)
    ensures Ordered(verdicts, w, b1, r1, o, t)
  {
    OneAlone(job, t);
    assert AtReader(r, t) == One(job, t) && AtReader(r1, t) == [];
    var near := Of(Jobs(verdicts), t) + AtWorker(w, t);
    assert near + (AtBalancer(b, t) + One(job, t)) + [] == near + AtBalancer(b, t) + One(job, t);
  }

  /** A job moves from the flow's balancer to its worker, or is not the flow's. */
  lemma JobSent(verdicts: seq<Verdict>, w: Worker, w1: Worker, b: Balancer, b1: Balancer,
          r: Reader, o: Output, t: FiveTuple, x: seq<PacketJob>)
    requires Ordered(verdicts, w, b, r, o, t)
    requires AtBalancer(b, t) == x + AtBalancer(b1, t) && AtWorker(w1, t) == AtWorker(w, t) + x
    requires InPushOf(w1, t) == InPushOf(w, t)
    ensures Ordered(verdicts, w1, b1, r, o, t)
  {
    Shift(Of(Jobs(verdicts), t), AtWorker(w, t), x, AtBalancer(b1, t));
  }

  lemma Shift(a: seq<PacketJob>, b: seq<PacketJob>, x: seq<PacketJob>, c: seq<PacketJob>)
    ensures a + b + (x + c) == a + (b + x) + c
  {
  }

  /** A verdict on a job of the flow, or not. */
  lemma JobJudged(verdicts: seq<Verdict>, w: Worker, w1: Worker, b: Balancer, r: Reader, o: Output, t: FiveTuple,
          v: Verdict)
    requires Ordered(verdicts, w, b, r, o, t)
    requires AtWorker(w, t) == One(v.job, t) + AtWorker(w1, t)
    requires InPushOf(w1, t) == InPushOf(w, t) + if v.action == Drop then [] else One(v.job, t)
    ensures Ordered(verdicts + [v], w1, b, r, o, t)
  {
    VerdictsOneMore(verdicts, v);
    OfOneMore(Jobs(verdicts), v.job, t);
    Associates(Of(Jobs(verdicts), t), One(v.job, t), AtWorker(w1, t));
    if v.action == Drop {
      assert InPushOf(w, t) + [] == InPushOf(w, t);
    } else {
      OfOneMore(Passed(verdicts), v.job, t);
      Associates(AtWriter(o, t), InPushOf(w, t), One(v.job, t));
    }
  }

  lemma Associates(a: seq<PacketJob>, b: seq<PacketJob>, c: seq<PacketJob>)
    ensures a + b + c == a + (b + c)
  {
  }

  lemma JobHandedOver(verdicts: seq<Verdict>, w: Worker, w1: Worker, b: Balancer, r: Reader,
          o: Output, o1: Output, t: FiveTuple, x: seq<PacketJob>)
    requires Ordered(verdicts, w, b, r, o, t)
    requires AtWorker(w1, t) == AtWorker(w, t)
    requires InPushOf(w, t) == x + InPushOf(w1, t) && AtWriter(o1, t) == AtWriter(o, t) + x
    ensures Ordered(verdicts, w1, b, r, o1, t)
  {
    Associates(AtWriter(o, t), x, InPushOf(w1, t));
  }

  /** Nothing of the flow moves. */
  lemma NothingMoved(verdicts: seq<Verdict>, w: Worker, w1: Worker, b: Balancer, b1: Balancer,
          r: Reader, o: Output, o1: Output, t: FiveTuple)
    requires Ordered(verdicts, w, b, r, o, t)
    requires InHand(w1.place) + w1.input.queue == InHand(w.place) + w.input.queue && InPush(w1.place) == InPush(w.place)
    requires InHand(b1.place) + b1.input.queue == InHand(b.place) + b.input.queue
    requires o1.written + InHand(o1.place) + o1.queue.queue == o.written + InHand(o.place) + o.queue.queue
    ensures Ordered(verdicts, w1, b1, r, o1, t)
  {
  }

  lemma ReadInOrder(cfg: Config, s: State, t: FiveTuple)
    requires ReadEnabled(cfg, s) && InOrder(cfg, s, t)
    requires s.reader.hand.Some? ==> !s.balancers[cfg.balancerOf(s.reader.hand.value.tuple)].input.shut
    ensures InOrder(cfg, DoRead(cfg, s), t)
  {
    var b, w := s.balancers[cfg.balancerOf(t)], s.workers[cfg.workerOf(t)];
    match s.reader.hand
    case None => FrameTaken(s.log.verdicts, w, b, s.reader, s.output, t);
    case Some(job) =>
      var u := DoRead(cfg, s);
      var b1 := u.balancers[cfg.balancerOf(t)];
      if cfg.balancerOf(job.tuple) == cfg.balancerOf(t) {
        QueuedAtBalancer(b, b1, job, t);
      } else {
        assert AtBalancer(b1, t) == AtBalancer(b, t) + One(job, t);
      }
      JobRead(s.log.verdicts, w, b, b1, s.reader, u.reader, s.output, t, job);
  }

  lemma BalancerSends(cfg: Config, s: State, i: nat, t: FiveTuple, job: PacketJob)
    requires WellShaped(cfg, s) && cfg.balancerOf(t) < cfg.balancers
    requires BalanceEnabled(cfg, s, i) && s.balancers[i].place == Holding(job)
    requires cfg.balancerOf(job.tuple) == i
    ensures var b, b1 := s.balancers[cfg.balancerOf(t)], DoBalance(cfg, s, i).balancers[cfg.balancerOf(t)];
      AtBalancer(b, t) == One(job, t) + AtBalancer(b1, t)
  {
    var b, b1 := s.balancers[cfg.balancerOf(t)], DoBalance(cfg, s, i).balancers[cfg.balancerOf(t)];
    if cfg.balancerOf(t) == i {
      SentByBalancer(b, b1, job, t);
    } else {
      assert b1 == b && One(job, t) == [];
    }
  }

  lemma WorkerReceives(cfg: Config, s: State, i: nat, t: FiveTuple, job: PacketJob)
    requires WellShaped(cfg, s) && cfg.workerOf(t) < cfg.workers
    requires BalanceEnabled(cfg, s, i) && s.balancers[i].place == Holding(job)
    requires !s.workers[cfg.workerOf(job.tuple)].input.shut
    ensures var w, w1 := s.workers[cfg.workerOf(t)], DoBalance(cfg, s, i).workers[cfg.workerOf(t)];
      AtWorker(w1, t) == AtWorker(w, t) + One(job, t) && InPushOf(w1, t) == InPushOf(w, t)
  {
    var w, w1 := s.workers[cfg.workerOf(t)], DoBalance(cfg, s, i).workers[cfg.workerOf(t)];
    if cfg.workerOf(t) == cfg.workerOf(job.tuple) {
      QueuedAtWorker(w, w1, job, t);
    } else {
      assert w1 == w && One(job, t) == [];
    }
  }

  lemma SendInOrder(cfg: Config, s: State, i: nat, t: FiveTuple, job: PacketJob)
    requires BalanceEnabled(cfg, s, i) && InOrder(cfg, s, t) && s.balancers[i].place == Holding(job)
    requires cfg.balancerOf(job.tuple) == i && !s.workers[cfg.workerOf(job.tuple)].input.shut
    ensures InOrder(cfg, DoBalance(cfg, s, i), t)
  {
    var u := DoBalance(cfg, s, i);
    BalancerSends(cfg, s, i, t, job);
    WorkerReceives(cfg, s, i, t, job);
    JobSent(s.log.verdicts, s.workers[cfg.workerOf(t)], u.workers[cfg.workerOf(t)],
            s.balancers[cfg.balancerOf(t)], u.balancers[cfg.balancerOf(t)], s.reader, s.output, t, One(job, t));
  }

  /** Both hold the same jobs in the same order, in hand or queued. */
  predicate SameJobs(s: State, u: State) {
    && |u.balancers| == |s.balancers| && |u.workers| == |s.workers|
    && (forall i :: 0 <= i < |s.balancers| ==>
          InHand(u.balancers[i].place) + u.balancers[i].input.queue ==
              InHand(s.balancers[i].place) + s.balancers[i].input.queue)
    && (forall j :: 0 <= j < |s.workers| ==>
          InHand(u.workers[j].place) + u.workers[j].input.queue ==
              InHand(s.workers[j].place) + s.workers[j].input.queue)
    && (forall j :: 0 <= j < |s.workers| ==> InPush(u.workers[j].place) == InPush(s.workers[j].place))
    && u.output.written + InHand(u.output.place) + u.output.queue.queue ==
       s.output.written + InHand(s.output.place) + s.output.queue.queue
    && u.reader == s.reader && u.log.verdicts == s.log.verdicts
  }

  lemma SameJobsInOrder(cfg: Config, s: State, u: State, t: FiveTuple)
    requires SameJobs(s, u) && InOrder(cfg, s, t)
    ensures InOrder(cfg, u, t)
  {
    NothingMoved(s.log.verdicts, s.workers[cfg.workerOf(t)], u.workers[cfg.workerOf(t)],
                 s.balancers[cfg.balancerOf(t)], u.balancers[cfg.balancerOf(t)], s.reader, s.output, u.output, t);
  }

  lemma BalancerTurns(cfg: Config, s: State, i: nat)
    requires BalanceEnabled(cfg, s, i) && !s.balancers[i].place.Holding?
    ensures SameJobs(s, DoBalance(cfg, s, i))
  {
    var b, b1 := s.balancers[i], DoBalance(cfg, s, i).balancers[i];
    assert InHand(b1.place) + b1.input.queue == InHand(b.place) + b.input.queue;
    assert DoBalance(cfg, s, i).balancers == s.balancers[i := b1];
  }

  lemma WorkerTurns(cfg: Config, s: State, j: nat, gone: set<FiveTuple>)
    requires WorkEnabled(cfg, s, j, gone) && !s.workers[j].place.Holding? && !s.workers[j].place.Pushing?
    ensures SameJobs(s, DoWork(cfg, s, j, gone))
  {
    var w, w1 := s.workers[j], DoWork(cfg, s, j, gone).workers[j];
    assert InHand(w1.place) + w1.input.queue == InHand(w.place) + w.input.queue && InPush(w1.place) == InPush(w.place);
    assert DoWork(cfg, s, j, gone).workers == s.workers[j := w1];
  }

  lemma WriterTurns(s: State)
    requires WriteEnabled(s)
    ensures SameJobs(s, DoWrite(s))
  {
  }

  lemma StopperTurns(cfg: Config, s: State)
    requires StopEnabled(cfg, s)
    ensures SameJobs(s, DoStop(cfg, s))
  {
    match s.phase
    case StopBalancer(i, part) =>
      assert forall k :: 0 <= k < |s.balancers| ==>
          DoStop(cfg, s).balancers[k].place == s.balancers[k].place &&
          DoStop(cfg, s).balancers[k].input.queue == s.balancers[k].input.queue;
    case StopWorker(j, part) =>
      assert forall k :: 0 <= k < |s.workers| ==>
          DoStop(cfg, s).workers[k].place == s.workers[k].place &&
          DoStop(cfg, s).workers[k].input.queue == s.workers[k].input.queue;
    case _ =>
  }

  lemma BalanceInOrder(cfg: Config, s: State, i: nat, t: FiveTuple)
    requires BalanceEnabled(cfg, s, i) && InOrder(cfg, s, t)
    requires s.balancers[i].place.Holding? ==> cfg.balancerOf(s.balancers[i].place.job.tuple) == i
    requires s.balancers[i].place.Holding? ==> !s.workers[cfg.workerOf(s.balancers[i].place.job.tuple)].input.shut
    ensures InOrder(cfg, DoBalance(cfg, s, i), t)
  {
    if s.balancers[i].place.Holding? {
      SendInOrder(cfg, s, i, t, s.balancers[i].place.job);
    } else {
      BalancerTurns(cfg, s, i);
      SameJobsInOrder(cfg, s, DoBalance(cfg, s, i), t);
    }
  }

  lemma WorkerJudges(cfg: Config, s: State, j: nat, gone: set<FiveTuple>, t: FiveTuple, job: PacketJob)
    requires WellShaped(cfg, s) && cfg.workerOf(t) < cfg.workers && WorkEnabled(cfg, s, j, gone)
    requires s.workers[j].place == Holding(job) && cfg.workerOf(job.tuple) == j
    ensures var w, w1 := s.workers[cfg.workerOf(t)], DoWork(cfg, s, j, gone).workers[cfg.workerOf(t)];
      var action := cfg.process(Lookup(s.workers[j].table, job.tuple), job).1;
      && AtWorker(w, t) == One(job, t) + AtWorker(w1, t)
      && InPushOf(w1, t) == InPushOf(w, t) + if action == Drop then [] else One(job, t)
  {
    var w, w1 := s.workers[cfg.workerOf(t)], DoWork(cfg, s, j, gone).workers[cfg.workerOf(t)];
    if cfg.workerOf(t) == j {
      TakenByWorker(w, w1, job, t);
      OneAlone(job, t);
    } else {
      assert w1 == w && One(job, t) == [];
    }
  }

  lemma WorkerHandsOver(cfg: Config, s: State, j: nat, gone: set<FiveTuple>, t: FiveTuple, job: PacketJob)
    requires WellShaped(cfg, s) && cfg.workerOf(t) < cfg.workers && WorkEnabled(cfg, s, j, gone)
    requires s.workers[j].place == Pushing(job) && cfg.workerOf(job.tuple) == j
    ensures var w, w1 := s.workers[cfg.workerOf(t)], DoWork(cfg, s, j, gone).workers[cfg.workerOf(t)];
      AtWorker(w1, t) == AtWorker(w, t) && InPushOf(w, t) == One(job, t) + InPushOf(w1, t)
  {
    var w, w1 := s.workers[cfg.workerOf(t)], DoWork(cfg, s, j, gone).workers[cfg.workerOf(t)];
    if cfg.workerOf(t) == j {
      OneAlone(job, t);
      assert InPushOf(w1, t) == [];
    } else {
      assert w1 == w && One(job, t) == [];
    }
  }

  lemma JudgeInOrder(cfg: Config, s: State, j: nat, gone: set<FiveTuple>, t: FiveTuple, job: PacketJob)
    requires WorkEnabled(cfg, s, j, gone) && InOrder(cfg, s, t) && s.workers[j].place == Holding(job)
    requires cfg.workerOf(job.tuple) == j
    ensures InOrder(cfg, DoWork(cfg, s, j, gone), t)
  {
    WorkerJudges(cfg, s, j, gone, t, job);
    JobJudged(s.log.verdicts, s.workers[cfg.workerOf(t)], DoWork(cfg, s, j, gone).workers[cfg.workerOf(t)],
              s.balancers[cfg.balancerOf(t)], s.reader, s.output, t, VerdictOn(cfg, s.workers[j], job));
  }

  lemma HandOverInOrder(cfg: Config, s: State, j: nat, gone: set<FiveTuple>, t: FiveTuple, job: PacketJob)
    requires WorkEnabled(cfg, s, j, gone) && InOrder(cfg, s, t) && s.workers[j].place == Pushing(job)
    requires cfg.workerOf(job.tuple) == j && !s.output.queue.shut
    ensures InOrder(cfg, DoWork(cfg, s, j, gone), t)
  {
    var u := DoWork(cfg, s, j, gone);
    WorkerHandsOver(cfg, s, j, gone, t, job);
    QueuedAtWriter(s.output, u.output, job, t);
    JobHandedOver(s.log.verdicts, s.workers[cfg.workerOf(t)], u.workers[cfg.workerOf(t)],
                  s.balancers[cfg.balancerOf(t)], s.reader, s.output, u.output, t, One(job, t));
  }

  lemma WorkInOrder(cfg: Config, s: State, j: nat, gone: set<FiveTuple>, t: FiveTuple)
    requires WorkEnabled(cfg, s, j, gone) && InOrder(cfg, s, t) && !(s.workers[j].place.Pushing? && s.output.queue.shut)
    requires s.workers[j].place.Holding? || s.workers[j].place.Pushing? ==>
      cfg.workerOf(s.workers[j].place.job.tuple) == j
    ensures InOrder(cfg, DoWork(cfg, s, j, gone), t)
  {
    if s.workers[j].place.Holding? {
      JudgeInOrder(cfg, s, j, gone, t, s.workers[j].place.job);
    } else if s.workers[j].place.Pushing? {
      HandOverInOrder(cfg, s, j, gone, t, s.workers[j].place.job);
    } else {
      WorkerTurns(cfg, s, j, gone);
      SameJobsInOrder(cfg, s, DoWork(cfg, s, j, gone), t);
    }
  }

  lemma StepInOrder(cfg: Config, s: State, turn: Turn, t: FiveTuple)
    requires Sound(cfg, s) && Enabled(cfg, s, turn) && InOrder(cfg, s, t)
    ensures InOrder(cfg, Next(cfg, s, turn), t)
  {
    match turn
    case Read => ReaderFacts(cfg, s); ReadInOrder(cfg, s, t);
    case Balance(i) => BalancerFacts(cfg, s, i); BalanceInOrder(cfg, s, i, t);
    case Work(j, gone) => WorkerFacts(cfg, s, j); WorkInOrder(cfg, s, j, gone, t);
    case Write => WriterTurns(s); SameJobsInOrder(cfg, s, DoWrite(s), t);
    case Stop => StopperTurns(cfg, s); SameJobsInOrder(cfg, s, DoStop(cfg, s), t);
  }

  /** While the reader has a job the balancers' queues are open. */
  lemma ReaderFacts(cfg: Config, s: State)
    requires Sound(cfg, s)
    ensures s.reader.hand.Some? ==> !s.balancers[cfg.balancerOf(s.reader.hand.value.tuple)].input.shut
  {
    if s.reader.hand.Some? {
      var i := cfg.balancerOf(s.reader.hand.value.tuple);
      assert BalancerInPhase(s.phase, i, s.balancers[i]);
    }
  }

  /** A balancer holds a job of its own, and the worker's queue is open for it. */
  lemma BalancerFacts(cfg: Config, s: State, i: nat)
    requires Sound(cfg, s) && i < |s.balancers|
    ensures s.balancers[i].place.Holding? ==>
      var job := s.balancers[i].place.job;
      cfg.balancerOf(job.tuple) == i && !s.workers[cfg.workerOf(job.tuple)].input.shut
  {
    assert BalancerRouted(cfg, i, s.balancers[i]) && BalancerInPhase(s.phase, i, s.balancers[i]);
    if s.balancers[i].place.Holding? {
      var job := s.balancers[i].place.job;
      assert InHand(s.balancers[i].place)[0] == job;
      assert WorkerInPhase(s.phase, cfg.workerOf(job.tuple), s.workers[cfg.workerOf(job.tuple)]);
    }
  }

  /** A worker deals with a job of its own, and the output queue is open for it. */
  lemma WorkerFacts(cfg: Config, s: State, j: nat)
    requires Sound(cfg, s) && j < |s.workers|
    ensures var place := s.workers[j].place;
      && (place.Holding? || place.Pushing? ==> cfg.workerOf(place.job.tuple) == j)
      && !(place.Pushing? && s.output.queue.shut)
  {
    var place := s.workers[j].place;
    assert WorkerRouted(cfg, j, s.workers[j]) && WorkerInPhase(s.phase, j, s.workers[j]);
    assert place.Holding? ==> InHand(place)[0] == place.job;
    assert place.Pushing? ==> InPush(place)[0] == place.job;
  }

  // ---------------------------------------------------------------- the sequential filter

  /** One thread that folds the verdict over the packets of one flow: the state it
      ends in and the packets it lets through. */
  function Alone(process: Process, jobs: seq<PacketJob>): (Flow, seq<PacketJob>) {
    if jobs == [] then (FlowVerdict.FRESH, [])
    else
      var (f, through) := Alone(process, jobs[..|jobs| - 1]);
      var job := jobs[|jobs| - 1];
      var (g, action) := process(f, job);
      (g, if action == Drop then through else through + [job])
  }

  lemma AloneOneMore(process: Process, jobs: seq<PacketJob>, job: PacketJob)
    ensures var (f, through) := Alone(process, jobs);
      var (g, action) := process(f, job);
      Alone(process, jobs + [job]) == (g, if action == Drop then through else through + [job])
  {
    assert (jobs + [job])[..|jobs|] == jobs;
  }

  /** The filter is causal: more packets never change what it has let through. */
  lemma {:induction false} AloneIsCausal(process: Process, a: seq<PacketJob>,
          b: seq<PacketJob>)
    ensures Alone(process, a).1 <= Alone(process, a + b).1
    decreases |b|
  {
    if b == [] {
      assert a + b == a;
    } else {
      var front := b[..|b| - 1];
      AloneIsCausal(process, a, front);
      AloneOneMore(process, a + front, b[|b| - 1]);
      assert a + b == (a + front) + [b[|b| - 1]];
    }
  }

  /** A state of the flow and what was let through, as the sequential filter on what was
      judged would have them. */
  ghost predicate Matches(process: Process, f: Flow,
          verdicts: seq<Verdict>, t: FiveTuple) {
    (f, Of(Passed(verdicts), t)) == Alone(process, Of(Jobs(verdicts), t))
  }

  /** While the table has not lost the flow, its entry matches. */
  ghost predicate AsAlone(cfg: Config, s: State, t: FiveTuple) {
    WellShaped(cfg, s) && cfg.workerOf(t) < cfg.workers &&
    (t !in s.log.lost ==> Matches(cfg.process, Lookup(s.workers[cfg.workerOf(t)].table, t), s.log.verdicts, t))
  }

  lemma OwnMatches(process: Process, f: Flow, verdicts: seq<Verdict>, v: Verdict)
    requires Matches(process, f, verdicts, v.job.tuple) && v.action == process(f, v.job).1
    ensures Matches(process, process(f, v.job).0, verdicts + [v], v.job.tuple)
  {
    VerdictsOneMore(verdicts, v);
    OfOneMore(Jobs(verdicts), v.job, v.job.tuple);
    OfOneMore(Passed(verdicts), v.job, v.job.tuple);
    AloneOneMore(process, Of(Jobs(verdicts), v.job.tuple), v.job);
  }

  lemma OtherMatches(process: Process, f: Flow, verdicts: seq<Verdict>, t: FiveTuple, v: Verdict)
    requires Matches(process, f, verdicts, t) && v.job.tuple != t
    ensures Matches(process, f, verdicts + [v], t)
  {
    VerdictsOneMore(verdicts, v);
    OfOneMore(Jobs(verdicts), v.job, t);
    OfOneMore(Passed(verdicts), v.job, t);
    assert Of(Jobs(verdicts), t) + One(v.job, t) == Of(Jobs(verdicts), t);
    assert Of(Passed(verdicts), t) + One(v.job, t) == Of(Passed(verdicts), t);
  }

  /** A verdict changes the entry of its own tuple and of what is evicted, no other. */
  lemma JudgedEntry(cfg: Config, w: Worker, job: PacketJob, gone: set<FiveTuple>, t: FiveTuple)
    requires job.tuple !in gone && t !in gone
    ensures Lookup(Judged(cfg, w, job, gone).table, t) ==
      if t == job.tuple then cfg.process(Lookup(w.table, t), job).0 else Lookup(w.table, t)
  {
  }

  lemma JudgedLookup(cfg: Config, s: State, j: nat, gone: set<FiveTuple>, t: FiveTuple, job: PacketJob)
    requires WellShaped(cfg, s) && cfg.workerOf(t) < cfg.workers && WorkEnabled(cfg, s, j, gone)
    requires s.workers[j].place == Holding(job) && cfg.workerOf(job.tuple) == j && t !in gone
    ensures var before := Lookup(s.workers[cfg.workerOf(t)].table, t);
      Lookup(DoWork(cfg, s, j, gone).workers[cfg.workerOf(t)].table, t) ==
      if t == job.tuple then cfg.process(before, job).0 else before
  {
    if cfg.workerOf(t) == j {
      JudgedEntry(cfg, s.workers[j], job, gone, t);
    }
  }

  lemma JudgedMatches(process: Process, f: Flow, verdicts: seq<Verdict>, t: FiveTuple, v: Verdict)
    requires Matches(process, f, verdicts, t) && (t == v.job.tuple ==> v.action == process(f, v.job).1)
    ensures Matches(process, if t == v.job.tuple then process(f, v.job).0 else f, verdicts + [v], t)
  {
    if t == v.job.tuple {
      OwnMatches(process, f, verdicts, v);
    } else {
      OtherMatches(process, f, verdicts, t, v);
    }
  }

  lemma JudgeAsAlone(cfg: Config, s: State, j: nat, gone: set<FiveTuple>, t: FiveTuple, job: PacketJob)
    requires WorkEnabled(cfg, s, j, gone) && s.workers[j].place == Holding(job) && AsAlone(cfg, s, t)
    requires cfg.workerOf(job.tuple) == j
    ensures AsAlone(cfg, DoWork(cfg, s, j, gone), t)
  {
    if t !in s.log.lost + gone {
      JudgedLookup(cfg, s, j, gone, t, job);
      JudgedMatches(cfg.process, Lookup(s.workers[cfg.workerOf(t)].table, t), s.log.verdicts, t,
          VerdictOn(cfg, s.workers[j], job));
    }
  }

  lemma WorkAsAlone(cfg: Config, s: State, j: nat, gone: set<FiveTuple>, t: FiveTuple)
    requires WorkEnabled(cfg, s, j, gone) && AsAlone(cfg, s, t)
    requires s.workers[j].place.Holding? ==> cfg.workerOf(s.workers[j].place.job.tuple) == j
    ensures AsAlone(cfg, DoWork(cfg, s, j, gone), t)
  {
    if s.workers[j].place.Holding? {
      JudgeAsAlone(cfg, s, j, gone, t, s.workers[j].place.job);
    }
  }

  lemma OthersLeaveTables(cfg: Config, s: State, turn: Turn, j: nat)
    requires Enabled(cfg, s, turn) && !turn.Work? && j < |s.workers|
    ensures var u := Next(cfg, s, turn);
      |u.workers| == |s.workers| && u.workers[j].table == s.workers[j].table && u.log == s.log
  {
  }

  lemma StepAsAlone(cfg: Config, s: State, turn: Turn, t: FiveTuple)
    requires Sound(cfg, s) && Enabled(cfg, s, turn) && AsAlone(cfg, s, t)
    ensures AsAlone(cfg, Next(cfg, s, turn), t)
  {
    if turn.Work? {
      WorkerFacts(cfg, s, turn.j);
      WorkAsAlone(cfg, s, turn.j, turn.gone, t);
    } else {
      OthersLeaveTables(cfg, s, turn, cfg.workerOf(t));
    }
  }

  // ---------------------------------------------------------------- the input

  function Created(input: seq<Option<PacketJob>>): seq<PacketJob> {
    if input == [] then [] else Hand(input[0]) + Created(input[1..])
  }

  /** The jobs created so far and those still in the file make up the input. */
  predicate FromInput(cfg: Config, s: State) {
    s.reader.created + Created(s.reader.unread) == Created(cfg.input)
  }

  lemma StepFromInput(cfg: Config, s: State, turn: Turn)
    requires Enabled(cfg, s, turn) && FromInput(cfg, s)
    ensures FromInput(cfg, Next(cfg, s, turn))
  {
  }

  // ---------------------------------------------------------------- runs

  ghost predicate Faithful(cfg: Config, s: State, t: FiveTuple) {
    Sound(cfg, s) && InOrder(cfg, s, t) && AsAlone(cfg, s, t) && FromInput(cfg, s)
  }

  lemma InitiallyFaithful(cfg: Config, t: FiveTuple)
    requires cfg.Valid()
    ensures Faithful(cfg, Initial(cfg), t)
  {
  }

  lemma StepIsFaithful(cfg: Config, s: State, turn: Turn, t: FiveTuple)
    requires Faithful(cfg, s, t) && Enabled(cfg, s, turn)
    ensures Faithful(cfg, Next(cfg, s, turn), t)
  {
    StepRoutes(cfg, s, turn);
    StepInPhase(cfg, s, turn);
    StepInOrder(cfg, s, turn, t);
    StepAsAlone(cfg, s, turn, t);
    StepFromInput(cfg, s, turn);
  }

  lemma {:induction false} AlwaysFaithful(cfg: Config, turns: seq<Turn>, states: seq<State>, n: nat, t: FiveTuple)
    requires cfg.Valid() && IsRun(cfg, turns, states) && n < |states|
    ensures Faithful(cfg, states[n], t)
  {
    if n == 0 {
      InitiallyFaithful(cfg, t);
    } else {
      var m := n - 1;
      AlwaysFaithful(cfg, turns, states, m, t);
      assert IsStep(cfg, turns, states, m);
      StepIsFaithful(cfg, states[m], turns[m], t);
    }
  }

  /** What a sequential filter of one flow alone makes of the whole input. */
  function Expected(cfg: Config, t: FiveTuple): seq<PacketJob> {
    Alone(cfg.process, Of(Created(cfg.input), t)).1
  }

  lemma WrittenIsPassed(verdicts: seq<Verdict>, w: Worker, b: Balancer, r: Reader, o: Output,
          t: FiveTuple)
    requires Ordered(verdicts, w, b, r, o, t)
    ensures Of(o.written, t) <= Of(Passed(verdicts), t)
  {
    OfJoin(o.written, InHand(o.place) + o.queue.queue, t);
    assert o.written + InHand(o.place) + o.queue.queue == o.written + (InHand(o.place) + o.queue.queue);
  }

  lemma JudgedIsCreated(verdicts: seq<Verdict>, w: Worker, b: Balancer, r: Reader, o: Output,
          t: FiveTuple)
    requires Ordered(verdicts, w, b, r, o, t)
    ensures Of(Jobs(verdicts), t) <= Of(r.created, t)
  {
  }

  lemma CausalPrefix(process: Process, a: seq<PacketJob>, b: seq<PacketJob>)
    requires a <= b
    ensures Alone(process, a).1 <= Alone(process, b).1
  {
    assert b == a + b[|a|..];
    AloneIsCausal(process, a, b[|a|..]);
  }

  lemma PassedOfMore(process: Process, f: Flow,
          verdicts: seq<Verdict>,
                     created: seq<PacketJob>, coming: seq<PacketJob>, t: FiveTuple)
    requires Matches(process, f, verdicts, t) && Of(Jobs(verdicts), t) <= Of(created, t)
    ensures Of(Passed(verdicts), t) <= Alone(process, Of(created + coming, t)).1
  {
    OfJoin(created, coming, t);
    CausalPrefix(process, Of(Jobs(verdicts), t), Of(created + coming, t));
  }

  lemma FaithfulIsPrefix(cfg: Config, s: State, t: FiveTuple)
    requires Faithful(cfg, s, t) && t !in s.log.lost
    ensures Of(s.output.written, t) <= Expected(cfg, t)
  {
    var b, w := s.balancers[cfg.balancerOf(t)], s.workers[cfg.workerOf(t)];
    WrittenIsPassed(s.log.verdicts, w, b, s.reader, s.output, t);
    JudgedIsCreated(s.log.verdicts, w, b, s.reader, s.output, t);
    PassedOfMore(cfg.process, Lookup(w.table, t), s.log.verdicts, s.reader.created, Created(s.reader.unread), t);
  }

  /** Every interleaving refines the sequential filter: as long as no table has lost
      the tuple, what has been written of it is, in order, a prefix of what a single
      thread that sees this flow alone would let through. */
  lemma OutputRefinesFilter(cfg: Config, turns: seq<Turn>, states: seq<State>, n: nat, t: FiveTuple)
    requires cfg.Valid() && IsRun(cfg, turns, states) && n < |states| && t !in states[n].log.lost
    ensures Of(states[n].output.written, t) <= Expected(cfg, t)
  {
    AlwaysFaithful(cfg, turns, states, n, t);
    FaithfulIsPrefix(cfg, states[n], t);
  }

  predicate BalancerEmpty(b: Balancer) {
    b.input.queue == [] && !b.place.Holding?
  }

  predicate WorkerEmpty(w: Worker) {
    w.input.queue == [] && !w.place.Holding? && !w.place.Pushing?
  }

  /** No job is on its way to a verdict or from one to the output queue. */
  predicate Settled(s: State) {
    && ReaderDone(s)
    && (forall i :: 0 <= i < |s.balancers| ==> BalancerEmpty(s.balancers[i]))
    && (forall j :: 0 <= j < |s.workers| ==> WorkerEmpty(s.workers[j]))
  }

  /** Nothing is on its way. */
  predicate Drained(s: State) {
    Settled(s) && s.output.queue.queue == [] && !s.output.place.Holding?
  }

  lemma StoppingStaysSettled(cfg: Config, s: State)
    requires WellShaped(cfg, s) && Settled(s) && StopEnabled(cfg, s)
    ensures Settled(DoStop(cfg, s)) && DoStop(cfg, s).log == s.log
    ensures DoStop(cfg, s).output.queue.queue == s.output.queue.queue && DoStop(cfg, s).output.place == s.output.place
    ensures DoStop(cfg, s).output.written == s.output.written
  {
    match s.phase
    case StopBalancer(i, _) => assert BalancerEmpty(s.balancers[i]);
    case StopWorker(j, _) => assert WorkerEmpty(s.workers[j]);
    case _ =>
  }

  /** From then on only the writer moves jobs, and it does not leave before its queue
      is empty. */
  lemma StaysSettled(cfg: Config, s: State, turn: Turn)
    requires WellShaped(cfg, s) && Settled(s) && Enabled(cfg, s, turn)
    ensures Settled(Next(cfg, s, turn)) && Next(cfg, s, turn).log.verdicts == s.log.verdicts
    ensures (s.output.place == Exited ==> s.output.queue.queue == []) ==>
      Next(cfg, s, turn).output.place == Exited ==> Next(cfg, s, turn).output.queue.queue == []
    ensures Drained(s) ==> Drained(Next(cfg, s, turn)) && Next(cfg, s, turn).output.written == s.output.written
  {
    match turn
    case Read =>
    case Balance(i) => assert BalancerEmpty(s.balancers[i]);
    case Work(j, _) => assert WorkerEmpty(s.workers[j]);
    case Write =>
    case Stop => StoppingStaysSettled(cfg, s);
  }

  lemma EmptyPath(verdicts: seq<Verdict>, w: Worker, b: Balancer, r: Reader, o: Output, t: FiveTuple)
    requires Ordered(verdicts, w, b, r, o, t) && r.hand == None
    requires InHand(w.place) + w.input.queue == [] && InPush(w.place) == [] && InHand(b.place) + b.input.queue == []
    requires InHand(o.place) == [] && o.queue.queue == []
    ensures Of(Jobs(verdicts), t) == Of(r.created, t) && Of(Passed(verdicts), t) == Of(o.written, t)
  {
    assert AtWorker(w, t) == [] && AtBalancer(b, t) == [] && AtReader(r, t) == [] && InPushOf(w, t) == [];
    assert o.written + InHand(o.place) + o.queue.queue == o.written;
  }

  /** When nothing is on its way, what was judged is all there is and all that was let
      through is written. */
  lemma DrainedPath(cfg: Config, s: State, t: FiveTuple)
    requires Faithful(cfg, s, t) && Drained(s)
    ensures Of(Jobs(s.log.verdicts), t) == Of(Created(cfg.input), t)
    ensures Of(Passed(s.log.verdicts), t) == Of(s.output.written, t)
  {
    assert BalancerEmpty(s.balancers[cfg.balancerOf(t)]) && WorkerEmpty(s.workers[cfg.workerOf(t)]);
    EmptyPath(s.log.verdicts, s.workers[cfg.workerOf(t)], s.balancers[cfg.balancerOf(t)], s.reader, s.output, t);
    assert s.reader.created + Created(s.reader.unread) == s.reader.created;
  }

  lemma DrainedIsWhole(cfg: Config, s: State, t: FiveTuple)
    requires Faithful(cfg, s, t) && t !in s.log.lost && Drained(s)
    ensures Of(s.output.written, t) == Expected(cfg, t)
  {
    DrainedPath(cfg, s, t);
  }

  lemma {:induction false} SettledFromThenOn(cfg: Config, turns: seq<Turn>, states: seq<State>, k: nat, n: nat)
    requires cfg.Valid() && IsRun(cfg, turns, states) && k <= n < |states| && Settled(states[k])
    ensures Settled(states[n]) && states[n].log.verdicts == states[k].log.verdicts
    ensures states[k].output.place != Exited && states[n].output.place == Exited ==> states[n].output.queue.queue == []
    ensures Drained(states[k]) ==> Drained(states[n]) && states[n].output.written == states[k].output.written
    decreases n
  {
    if k == n {
    } else {
      var m := n - 1;
      SettledFromThenOn(cfg, turns, states, k, m);
      AlwaysSound(cfg, turns, states, m);
      assert IsStep(cfg, turns, states, m);
      StaysSettled(cfg, states[m], turns[m]);
    }
  }

  /** If `stop` begins with nothing on its way, the file ends up with the whole of what
      the sequential filter lets through, whatever the shutdown does after that. */
  lemma QuietStopLosesNothing(cfg: Config, turns: seq<Turn>, states: seq<State>, k: nat, n: nat, t: FiveTuple)
    requires cfg.Valid() && IsRun(cfg, turns, states) && k <= n < |states|
    requires Drained(states[k]) && t !in states[k].log.lost
    ensures Of(states[n].output.written, t) == Expected(cfg, t)
  {
    AlwaysFaithful(cfg, turns, states, k, t);
    DrainedIsWhole(cfg, states[k], t);
    SettledFromThenOn(cfg, turns, states, k, n);
  }

  lemma FaithfulMatches(cfg: Config, s: State, t: FiveTuple)
    requires Faithful(cfg, s, t) && t !in s.log.lost
    ensures Alone(cfg.process, Of(Jobs(s.log.verdicts), t)).1 == Of(Passed(s.log.verdicts), t)
  {
  }

  /** `stop` waits for the writer: if every job is judged and handed over when it begins,
      then, however much is still queued, the file is whole when it is done. */
  lemma StopWaitsForWriter(cfg: Config, turns: seq<Turn>, states: seq<State>, k: nat, n: nat, t: FiveTuple)
    requires cfg.Valid() && IsRun(cfg, turns, states) && k <= n < |states|
    requires states[k].phase == Running && Settled(states[k]) && t !in states[k].log.lost
    requires states[n].phase == Stopped
    ensures Of(states[n].output.written, t) == Expected(cfg, t)
  {
    AlwaysFaithful(cfg, turns, states, k, t);
    AlwaysFaithful(cfg, turns, states, n, t);
    SettledFromThenOn(cfg, turns, states, k, n);
    FaithfulMatches(cfg, states[k], t);
    DrainedPath(cfg, states[n], t);
  }
}
