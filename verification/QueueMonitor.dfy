/** The bounded queue between two stages, down to its two condition variables: any
    number of producers and consumers, threads that barge in ahead of those
    signalled, timeouts and spurious wakeups. */
module QueueMonitor {
  import opened Types

  /** What the mutex protects. */
  datatype Core<T> = Core(queue: seq<T>, shut: bool)

  datatype PushOutcome = Accepted | Ignored | PushWaits

  datatype PopOutcome<T> = Item(item: T) | Nothing | PopWaits

  /** One look at the state by a thread that holds the mutex in `push`: it pushes,
      returns at once because of the shutdown, or waits on `not_full_`. */
  function PushCore<T>(cap: nat, c: Core<T>, item: T): (Core<T>, PushOutcome) {
    if c.shut then (c, Ignored)
    else if |c.queue| < cap then (c.(queue := c.queue + [item]), Accepted)
    else (c, PushWaits)
  }

  /** The same in `pop`: items are handed out even after a shutdown. */
  function PopCore<T>(c: Core<T>): (Core<T>, PopOutcome<T>) {
    if c.queue != [] then (c.(queue := c.queue[1..]), Item(c.queue[0]))
    else if c.shut then (c, Nothing)
    else (c, PopWaits)
  }

  /** The threads on one side of the queue, by name. Those asleep are waiting and
      unsignalled; those notified have been picked by a notification, those stirred woke
      for another reason, and both have yet to get the mutex back. */
  datatype Side<V> = Side(asleep: map<nat, V>, notified: map<nat, V>, stirred: map<nat, V>) {
    predicate Absent(id: nat) {
      id !in asleep && id !in notified && id !in stirred
    }

    predicate Apart() {
      && (forall id :: id in asleep ==> id !in notified && id !in stirred)
      && (forall id :: id in notified ==> id !in stirred)
    }

    predicate Awake(id: nat) {
      id in notified || id in stirred
    }

    function Carries(id: nat): V
      requires Awake(id)
    {
      if id in notified then notified[id] else stirred[id]
    }

    /** `notify_one` wakes one of the sleepers if there is any. */
    predicate LegalWake(wakes: Option<nat>) {
      match wakes
      case None => |asleep| == 0
      case Some(id) => id in asleep
    }

    function Notify(wakes: Option<nat>): Side<V>
      requires LegalWake(wakes)
    {
      match wakes
      case None => this
      case Some(id) => Side(asleep - {id}, notified[id := asleep[id]], stirred)
    }

    /** A spurious wakeup, or one by the clock. */
    function Stir(id: nat, v: V): Side<V> {
      Side(asleep - {id}, notified, stirred[id := v])
    }

    function Leave(id: nat): Side<V> {
      Side(asleep, notified - {id}, stirred - {id})
    }

    function Sleep(id: nat, v: V): Side<V> {
      Side(asleep[id := v], notified, stirred)
    }

    function NotifyAll(): Side<V> {
      Side(map[], notified + asleep, stirred)
    }

    /** While anyone is asleep enough have been notified for so many chances to go on. */
    predicate Covers(chances: int) {
      |asleep| > 0 ==> chances <= |notified|
    }
  }

  /** A consumer: whether it waits with a deadline, and whether that has passed. */
  datatype Waiter = Waiter(timed: bool, expired: bool)

  /** A waiting producer keeps its item. The two sequences are what was ever accepted
      and what was ever handed out. */
  datatype Monitor<T> = Monitor(
    core: Core<T>, consumers: Side<Waiter>, producers: Side<T>, accepted: seq<T>, popped: seq<T>)

  function Start<T>(): Monitor<T> {
    Monitor(Core([], false), Side(map[], map[], map[]), Side(map[], map[], map[]), [], [])
  }

  /** What can happen next. `wakes` is the sleeper that `notify_one` picks. */
  datatype Event<T> =
    | Push(id: nat, item: T, wakes: Option<nat>)
    | TryPush(item: T, wakes: Option<nat>)
    | Pop(id: nat, timed: bool, wakes: Option<nat>)
    | ResumeProducer(id: nat, wakes: Option<nat>)
    | ResumeConsumer(id: nat, wakes: Option<nat>)
    | StirProducer(id: nat)
    | StirConsumer(id: nat)
    | Expire(id: nat)
    | Shutdown

  predicate Enabled<T>(m: Monitor<T>, e: Event<T>) {
    match e
    case Push(id, _, wakes) => m.producers.Absent(id) && m.consumers.LegalWake(wakes)
    case TryPush(_, wakes) => m.consumers.LegalWake(wakes)
    case Pop(id, _, wakes) => m.consumers.Absent(id) && m.producers.LegalWake(wakes)
    case ResumeProducer(id, wakes) => m.producers.Awake(id) && m.consumers.LegalWake(wakes)
    case ResumeConsumer(id, wakes) => m.consumers.Awake(id) && m.producers.LegalWake(wakes)
    case StirProducer(id) => id in m.producers.asleep
    case StirConsumer(id) => id in m.consumers.asleep
    case Expire(id) => id in m.consumers.asleep && m.consumers.asleep[id].timed
    case Shutdown => true
  }

  /** One turn of a producer with the mutex: a deposit notifies a consumer. */
  function Produce<T>(cap: nat, m: Monitor<T>, id: nat, item: T, wakes: Option<nat>): Monitor<T>
    requires m.consumers.LegalWake(wakes)
  {
    var (core, outcome) := PushCore(cap, m.core, item);
    match outcome
    case Accepted => Monitor(core, m.consumers.Notify(wakes), m.producers, m.accepted + [item], m.popped)
    case Ignored => m
    case PushWaits => m.(producers := m.producers.Sleep(id, item))
  }

  /** One turn of a consumer: a withdrawal notifies a producer; one whose deadline
      has passed does not wait again. */
  function Consume<T>(m: Monitor<T>, id: nat, waiter: Waiter, wakes: Option<nat>): Monitor<T>
    requires m.producers.LegalWake(wakes)
  {
    var (core, outcome) := PopCore(m.core);
    match outcome
    case Item(item) => Monitor(core, m.consumers, m.producers.Notify(wakes), m.accepted, m.popped + [item])
    case Nothing => m
    case PopWaits => if waiter.expired then m else m.(consumers := m.consumers.Sleep(id, waiter))
  }

  function Apply<T>(cap: nat, m: Monitor<T>, e: Event<T>): Monitor<T>
    requires Enabled(m, e)
  {
    match e
    case Push(id, item, wakes) => Produce(cap, m, id, item, wakes)
    case TryPush(item, wakes) =>
      if |m.core.queue| >= cap || m.core.shut then m
      else Monitor(m.core.(queue := m.core.queue + [item]), m.consumers.Notify(wakes), m.producers,
          m.accepted + [item], m.popped)
    case Pop(id, timed, wakes) => Consume(m, id, Waiter(timed, false), wakes)
    case ResumeProducer(id, wakes) =>
      Produce(cap, m.(producers := m.producers.Leave(id)), id, m.producers.Carries(id), wakes)
    case ResumeConsumer(id, wakes) =>
      Consume(m.(consumers := m.consumers.Leave(id)), id, m.consumers.Carries(id), wakes)
    case StirProducer(id) => m.(producers := m.producers.Stir(id, m.producers.asleep[id]))
    case StirConsumer(id) => m.(consumers := m.consumers.Stir(id, m.consumers.asleep[id]))
    case Expire(id) => m.(consumers := m.consumers.Stir(id, m.consumers.asleep[id].(expired := true)))
    case Shutdown => m.(core := m.core.(shut := true), consumers := m.consumers.NotifyAll(),
        producers := m.producers.NotifyAll())
  }

  // ---------------------------------------------------------------- one side

  lemma StirCounts<V>(side: Side<V>, id: nat, v: V, chances: int)
    requires side.Apart() && id in side.asleep
    ensures side.Stir(id, v).Apart()
    ensures side.Covers(chances) ==> side.Stir(id, v).Covers(chances)
  {
    assert side.asleep.Keys == (side.asleep - {id}).Keys + {id};
  }

  lemma NotifyOneCounts<V>(side: Side<V>, id: nat, chances: int)
    requires side.Apart() && id in side.asleep
    ensures side.Notify(Some(id)).Apart()
    ensures side.Covers(chances) ==> side.Notify(Some(id)).Covers(chances + 1)
  {
    assert side.Notify(Some(id)).notified.Keys == side.notified.Keys + {id};
    assert |side.asleep| > 0;
  }

  lemma NotifyCounts<V>(side: Side<V>, wakes: Option<nat>, chances: int)
    requires side.Apart() && side.LegalWake(wakes)
    ensures side.Notify(wakes).Apart()
    ensures side.Covers(chances) ==> side.Notify(wakes).Covers(chances + 1)
  {
    match wakes
    case None =>
    case Some(id) => NotifyOneCounts(side, id, chances);
  }

  lemma LeaveCounts<V>(side: Side<V>, id: nat, chances: int)
    requires side.Apart() && side.Awake(id)
    ensures side.Leave(id).Apart() && side.Leave(id).Absent(id)
    ensures side.Covers(chances) ==> side.Leave(id).Covers(chances - 1)
  {
    assert side.notified.Keys - {id} == side.Leave(id).notified.Keys;
    assert |side.Leave(id).notified| >= |side.notified| - 1;
  }

  lemma SleepCounts<V>(side: Side<V>, id: nat, v: V)
    requires side.Apart() && side.Absent(id)
    ensures side.Sleep(id, v).Apart() && side.Sleep(id, v).Covers(0)
  {
  }

  // ---------------------------------------------------------------- invariant

  /** The queue is within its bound, and what was handed out is a prefix of what was
      accepted: the rest is the queue, in order. */
  ghost predicate Fifo<T>(cap: nat, m: Monitor<T>) {
    |m.core.queue| <= cap && m.accepted == m.popped + m.core.queue
  }

  /** After a shutdown nobody is asleep. */
  predicate Released<T>(m: Monitor<T>) {
    m.core.shut ==> |m.consumers.asleep| == 0 && |m.producers.asleep| == 0
  }

  /** Every item has a consumer on its way while any is asleep, and every free slot a
      producer, up to a number of spare ones. */
  predicate Covered<T>(cap: nat, m: Monitor<T>, spareConsumers: nat, spareProducers: nat) {
    && m.consumers.Apart() && m.consumers.Covers(|m.core.queue| - spareConsumers)
    && m.producers.Apart() && m.producers.Covers(cap - |m.core.queue| - spareProducers)
  }

  ghost predicate Invariant<T>(cap: nat, m: Monitor<T>) {
    Fifo(cap, m) && Released(m) && Covered(cap, m, 0, 0)
  }

  lemma ProduceKeeps<T>(cap: nat, m: Monitor<T>, id: nat, item: T, wakes: Option<nat>)
    requires Fifo(cap, m) && Released(m) && Covered(cap, m, 0, 1)
    requires m.producers.Absent(id) && m.consumers.LegalWake(wakes)
    requires m.core.shut || |m.core.queue| < cap || Covered(cap, m, 0, 0)
    ensures Invariant(cap, Produce(cap, m, id, item, wakes))
  {
    NotifyCounts(m.consumers, wakes, |m.core.queue|);
    SleepCounts(m.producers, id, item);
    assert m.popped + (m.core.queue + [item]) == m.popped + m.core.queue + [item];
  }

  lemma WithdrawKeeps<T>(cap: nat, m: Monitor<T>, id: nat, waiter: Waiter, wakes: Option<nat>)
    requires Fifo(cap, m) && Released(m) && Covered(cap, m, 1, 0)
    requires m.producers.LegalWake(wakes) && m.core.queue != []
    ensures Invariant(cap, Consume(m, id, waiter, wakes))
  {
    NotifyCounts(m.producers, wakes, cap - |m.core.queue|);
    assert m.popped + [m.core.queue[0]] + m.core.queue[1..] == m.popped + m.core.queue;
  }

  lemma WaitKeeps<T>(cap: nat, m: Monitor<T>, id: nat, waiter: Waiter, wakes: Option<nat>)
    requires Fifo(cap, m) && Released(m) && Covered(cap, m, 0, 0)
    requires m.consumers.Absent(id) && m.producers.LegalWake(wakes) && m.core.queue == []
    ensures Invariant(cap, Consume(m, id, waiter, wakes))
  {
    SleepCounts(m.consumers, id, waiter);
  }

  lemma ConsumeKeeps<T>(cap: nat, m: Monitor<T>, id: nat, waiter: Waiter, wakes: Option<nat>)
    requires Fifo(cap, m) && Released(m) && Covered(cap, m, 1, 0)
    requires m.consumers.Absent(id) && m.producers.LegalWake(wakes)
    requires m.core.queue != [] || Covered(cap, m, 0, 0)
    ensures Invariant(cap, Consume(m, id, waiter, wakes))
  {
    if m.core.queue != [] {
      WithdrawKeeps(cap, m, id, waiter, wakes);
    } else {
      WaitKeeps(cap, m, id, waiter, wakes);
    }
  }

  lemma ResumeProducerKeeps<T>(cap: nat, m: Monitor<T>, id: nat, wakes: Option<nat>)
    requires Invariant(cap, m) && m.producers.Awake(id) && m.consumers.LegalWake(wakes)
    ensures Invariant(cap, Produce(cap, m.(producers := m.producers.Leave(id)), id, m.producers.Carries(id), wakes))
  {
    LeaveCounts(m.producers, id, cap - |m.core.queue|);
    ProduceKeeps(cap, m.(producers := m.producers.Leave(id)), id, m.producers.Carries(id), wakes);
  }

  lemma ResumeConsumerKeeps<T>(cap: nat, m: Monitor<T>, id: nat, wakes: Option<nat>)
    requires Invariant(cap, m) && m.consumers.Awake(id) && m.producers.LegalWake(wakes)
    ensures Invariant(cap, Consume(m.(consumers := m.consumers.Leave(id)), id, m.consumers.Carries(id), wakes))
  {
    LeaveCounts(m.consumers, id, |m.core.queue|);
    ConsumeKeeps(cap, m.(consumers := m.consumers.Leave(id)), id, m.consumers.Carries(id), wakes);
  }

  /** Every event keeps the invariant. */
  lemma EventKeeps<T>(cap: nat, m: Monitor<T>, e: Event<T>)
    requires Invariant(cap, m) && Enabled(m, e)
    ensures Invariant(cap, Apply(cap, m, e))
  {
    match e
    case Push(id, item, wakes) => ProduceKeeps(cap, m, id, item, wakes);
    case TryPush(item, wakes) =>
      NotifyCounts(m.consumers, wakes, |m.core.queue|);
      assert m.popped + (m.core.queue + [item]) == m.popped + m.core.queue + [item];
    case Pop(id, timed, wakes) => ConsumeKeeps(cap, m, id, Waiter(timed, false), wakes);
    case ResumeProducer(id, wakes) => ResumeProducerKeeps(cap, m, id, wakes);
    case ResumeConsumer(id, wakes) => ResumeConsumerKeeps(cap, m, id, wakes);
    case StirProducer(id) => StirCounts(m.producers, id, m.producers.asleep[id], cap - |m.core.queue|);
    case StirConsumer(id) => StirCounts(m.consumers, id, m.consumers.asleep[id], |m.core.queue|);
    case Expire(id) => StirCounts(m.consumers, id, m.consumers.asleep[id].(expired := true), |m.core.queue|);
    case Shutdown =>
  }

  // ---------------------------------------------------------------- runs

  ghost predicate Becomes<T>(cap: nat, before: Monitor<T>, e: Event<T>, m: Monitor<T>) {
    Enabled(before, e) && m == Apply(cap, before, e)
  }

  /** The states of a run, from the fresh queue to the present one. */
  ghost predicate IsRun<T>(cap: nat, es: seq<Event<T>>, ms: seq<Monitor<T>>) {
    && |ms| == |es| + 1 && ms[0] == Start<T>()
    && forall i :: 0 <= i < |es| ==> Becomes(cap, ms[i], es[i], ms[i + 1])
  }

  lemma {:induction false} AlwaysInvariant<T>(cap: nat, es: seq<Event<T>>, ms: seq<Monitor<T>>, i: nat)
    requires IsRun(cap, es, ms) && i < |ms|
    ensures Invariant(cap, ms[i])
  {
    if i == 0 {
    } else {
      var j := i - 1;
      AlwaysInvariant(cap, es, ms, j);
      assert Becomes(cap, ms[j], es[j], ms[j + 1]);
      EventKeeps(cap, ms[j], es[j]);
    }
  }

  /** No wakeup is lost, at any point of any run: before a shutdown, while a consumer
      sleeps the queue holds no more items than consumers have been notified and are on
      their way, and while a producer sleeps there are no more free slots than producers
      notified; those that woke by chance or by the clock are not counted. So sleepers of
      both kinds never wait for each other. */
  lemma NoLostWakeup<T>(cap: nat, es: seq<Event<T>>, ms: seq<Monitor<T>>, i: nat)
    requires IsRun(cap, es, ms) && i < |ms|
    ensures |ms[i].consumers.asleep| > 0 ==> |ms[i].core.queue| <= |ms[i].consumers.notified|
    ensures |ms[i].producers.asleep| > 0 ==> cap - |ms[i].core.queue| <= |ms[i].producers.notified|
    ensures cap > 0 && |ms[i].consumers.asleep| > 0 && |ms[i].producers.asleep| > 0 ==>
      |ms[i].consumers.notified| + |ms[i].producers.notified| > 0
  {
    AlwaysInvariant(cap, es, ms, i);
  }

  /** A bounded first-in-first-out queue, at any point of any run. */
  lemma BoundedFifo<T>(cap: nat, es: seq<Event<T>>, ms: seq<Monitor<T>>, i: nat)
    requires IsRun(cap, es, ms) && i < |ms|
    ensures |ms[i].core.queue| <= cap
    ensures |ms[i].popped| <= |ms[i].accepted|
    ensures ms[i].popped == ms[i].accepted[..|ms[i].popped|]
    ensures ms[i].core.queue == ms[i].accepted[|ms[i].popped|..]
  {
    AlwaysInvariant(cap, es, ms, i);
  }

  /** A thread that is awake makes the queue move and leaves it: a consumer takes an
      item if there is one. */
  lemma AwakeConsumerTakes<T>(cap: nat, m: Monitor<T>, id: nat, wakes: Option<nat>)
    requires Invariant(cap, m) && Enabled(m, ResumeConsumer(id, wakes)) && m.core.queue != []
    ensures var after := Apply(cap, m, ResumeConsumer(id, wakes));
      after.popped == m.popped + [m.core.queue[0]] && after.consumers.Absent(id)
  {
    LeaveCounts(m.consumers, id, 0);
  }

  /** A producer fills a free slot if there is one. */
  lemma AwakeProducerFills<T>(cap: nat, m: Monitor<T>, id: nat, wakes: Option<nat>)
    requires Invariant(cap, m) && Enabled(m, ResumeProducer(id, wakes)) && |m.core.queue| < cap && !m.core.shut
    ensures var after := Apply(cap, m, ResumeProducer(id, wakes));
      after.accepted == m.accepted + [m.producers.Carries(id)] && after.producers.Absent(id)
  {
    LeaveCounts(m.producers, id, 0);
  }

  /** After a shutdown nobody is asleep, and every thread still inside leaves at its
      next turn: a producer without pushing, a consumer with an item as long as there
      is one. */
  lemma ShutdownReleases<T>(cap: nat, es: seq<Event<T>>, ms: seq<Monitor<T>>, i: nat)
    requires IsRun(cap, es, ms) && i < |es| && ms[i].core.shut
    ensures |ms[i].consumers.asleep| == 0 && |ms[i].producers.asleep| == 0
    ensures ms[i + 1].core.shut && ms[i + 1].accepted == ms[i].accepted
    ensures es[i].ResumeProducer? ==> ms[i + 1].producers.Absent(es[i].id)
    ensures es[i].ResumeConsumer? ==> ms[i + 1].consumers.Absent(es[i].id)
    ensures es[i].ResumeConsumer? && ms[i].core.queue != [] ==> ms[i + 1].popped == ms[i].popped + [ms[i].core.queue[0]]
  {
    AlwaysInvariant(cap, es, ms, i);
    assert Becomes(cap, ms[i], es[i], ms[i + 1]);
  }

  // ---------------------------------------------------------------- who leaves and who waits

  /** This is the consumer's turn after its deadline. */
  predicate Late<T>(m: Monitor<T>, e: Event<T>)
    requires Enabled(m, e)
  {
    e.ResumeConsumer? && m.consumers.Carries(e.id).expired
  }

  /** The deadline of a consumer whose turn it is. */
  function ComesWith<T>(m: Monitor<T>, e: Event<T>): Waiter
    requires Enabled(m, e) && (e.Pop? || e.ResumeConsumer?)
  {
    if e.Pop? then Waiter(e.timed, false) else m.consumers.Carries(e.id)
  }

  ghost predicate Sleeps<V>(side: Side<V>, id: nat, v: V) {
    id in side.asleep && side.asleep[id] == v
  }

  /** Whether a consumer that looks at the queue has done with it, exactly: if and only if there
      is an item, a shutdown, or its deadline has passed. If there is nothing it gets
      nothing and changes nothing, and otherwise it gets the oldest item. One that is not
      done sleeps, with the deadline it came with. */
  lemma ConsumerLeavesIff<T>(cap: nat, m: Monitor<T>, e: Event<T>)
    requires Invariant(cap, m) && Enabled(m, e) && (e.Pop? || e.ResumeConsumer?)
    ensures var after := Apply(cap, m, e);
      && (after.consumers.Absent(e.id) <==> m.core.queue != [] || m.core.shut || Late(m, e))
      && (!after.consumers.Absent(e.id) ==> Sleeps(after.consumers, e.id, ComesWith(m, e)))
      && after.accepted == m.accepted && after.core.shut == m.core.shut
      && (if m.core.queue == [] then after.core.queue == [] && after.popped == m.popped
          else after.core.queue == m.core.queue[1..] && after.popped == m.popped + [m.core.queue[0]])
  {
    if e.ResumeConsumer? {
      LeaveCounts(m.consumers, e.id, 0);
    }
  }

  /** Whether a producer is done, exactly: if and only if there is a slot or a shutdown. It
      has pushed its item if there is a slot and no shutdown, and nothing otherwise; one that is
      not done sleeps on its item. */
  lemma ProducerLeavesIff<T>(cap: nat, m: Monitor<T>, e: Event<T>)
    requires Invariant(cap, m) && Enabled(m, e) && (e.Push? || e.ResumeProducer?)
    ensures var after, item := Apply(cap, m, e), if e.Push? then e.item else m.producers.Carries(e.id);
      && (after.producers.Absent(e.id) <==> |m.core.queue| < cap || m.core.shut)
      && (!after.producers.Absent(e.id) ==> Sleeps(after.producers, e.id, item))
      && after.popped == m.popped
      && (if |m.core.queue| < cap && !m.core.shut
          then after.core == Core(m.core.queue + [item], false) && after.accepted == m.accepted + [item]
          else after.core == m.core && after.accepted == m.accepted)
  {
    if e.ResumeProducer? {
      LeaveCounts(m.producers, e.id, 0);
    }
  }

  /** An attempt to push succeeds if and only if there is a slot and no shutdown, and changes
      nothing else. */
  lemma TryPushIff<T>(cap: nat, m: Monitor<T>, e: Event<T>)
    requires Enabled(m, e) && e.TryPush?
    ensures var after := Apply(cap, m, e);
      && after.popped == m.popped && after.core.shut == m.core.shut
      && (if |m.core.queue| < cap && !m.core.shut
          then after.core.queue == m.core.queue + [e.item] && after.accepted == m.accepted + [e.item]
          else after == m)
  {
  }

  /** What a thread inside carries, wherever it stands. */
  function CarriedBy<V>(side: Side<V>, id: nat): Option<V> {
    if id in side.asleep then Some(side.asleep[id])
    else if id in side.notified then Some(side.notified[id])
    else if id in side.stirred then Some(side.stirred[id])
    else None
  }

  predicate IsConsumers<T>(e: Event<T>, id: nat) {
    (e.Pop? || e.ResumeConsumer? || e.Expire?) && e.id == id
  }

  predicate IsProducers<T>(e: Event<T>, id: nat) {
    (e.Push? || e.ResumeProducer?) && e.id == id
  }

  /** The thread still carries the same and has not been put to sleep. */
  ghost predicate Undisturbed<V>(before: Side<V>, after: Side<V>, id: nat) {
    CarriedBy(after, id) == CarriedBy(before, id) && (id in after.asleep ==> id in before.asleep)
  }

  lemma NotifyDisturbsNone<V>(side: Side<V>, wakes: Option<nat>, id: nat)
    requires side.Apart() && side.LegalWake(wakes)
    ensures Undisturbed(side, side.Notify(wakes), id)
  {
  }

  lemma ProduceDisturbsNone<T>(cap: nat, m: Monitor<T>, producer: nat, item: T, wakes: Option<nat>, id: nat)
    requires m.consumers.Apart() && m.consumers.LegalWake(wakes)
    ensures var after := Produce(cap, m, producer, item, wakes);
      && Undisturbed(m.consumers, after.consumers, id)
      && (id != producer ==> Undisturbed(m.producers, after.producers, id))
  {
    NotifyDisturbsNone(m.consumers, wakes, id);
  }

  lemma ConsumeDisturbsNone<T>(m: Monitor<T>, consumer: nat, waiter: Waiter, wakes: Option<nat>, id: nat)
    requires m.producers.Apart() && m.producers.LegalWake(wakes)
    ensures var after := Consume(m, consumer, waiter, wakes);
      && Undisturbed(m.producers, after.producers, id)
      && (id != consumer ==> Undisturbed(m.consumers, after.consumers, id))
  {
    NotifyDisturbsNone(m.producers, wakes, id);
  }

  lemma LeaveDisturbsNone<V>(side: Side<V>, left: nat, id: nat)
    ensures id != left ==> Undisturbed(side, side.Leave(left), id)
  {
  }

  lemma StirDisturbsNone<V>(side: Side<V>, stirred: nat, v: V, id: nat)
    requires side.Apart() && stirred in side.asleep
    ensures id != stirred || v == side.asleep[id] ==> Undisturbed(side, side.Stir(stirred, v), id)
  {
  }

  lemma ShutdownDisturbsNone<V>(side: Side<V>, id: nat)
    requires side.Apart()
    ensures Undisturbed(side, side.NotifyAll(), id)
  {
  }

  /** Nobody is lost, and nobody's item or deadline is changed by another: every event but a
      thread's own leaves it inside with what it carries, or outside. */
  lemma OthersStay<T>(cap: nat, m: Monitor<T>, e: Event<T>, id: nat)
    requires Invariant(cap, m) && Enabled(m, e)
    ensures !IsConsumers(e, id) ==> Undisturbed(m.consumers, Apply(cap, m, e).consumers, id)
    ensures !IsProducers(e, id) ==> Undisturbed(m.producers, Apply(cap, m, e).producers, id)
  {
    match e
    case Push(producer, item, wakes) => ProduceDisturbsNone(cap, m, producer, item, wakes, id);
    case TryPush(_, wakes) => NotifyDisturbsNone(m.consumers, wakes, id);
    case Pop(consumer, timed, wakes) => ConsumeDisturbsNone(m, consumer, Waiter(timed, false), wakes, id);
    case ResumeProducer(producer, wakes) =>
      var item := m.producers.Carries(producer);
      LeaveDisturbsNone(m.producers, producer, id);
      ProduceDisturbsNone(cap, m.(producers := m.producers.Leave(producer)), producer, item, wakes, id);
    case ResumeConsumer(consumer, wakes) =>
      var waiter := m.consumers.Carries(consumer);
      LeaveDisturbsNone(m.consumers, consumer, id);
      ConsumeDisturbsNone(m.(consumers := m.consumers.Leave(consumer)), consumer, waiter, wakes, id);
    case StirProducer(stirred) => StirDisturbsNone(m.producers, stirred, m.producers.asleep[stirred], id);
    case StirConsumer(stirred) => StirDisturbsNone(m.consumers, stirred, m.consumers.asleep[stirred], id);
    case Expire(late) => StirDisturbsNone(m.consumers, late, m.consumers.asleep[late].(expired := true), id);
    case Shutdown =>
      ShutdownDisturbsNone(m.consumers, id);
      ShutdownDisturbsNone(m.producers, id);
  }

  /** The deadline of a sleeper with one can pass at any time, and that of no one else; it wakes
      him, and so does a spurious wakeup, which leaves his deadline as it is. */
  lemma WakesIff<T>(cap: nat, m: Monitor<T>, id: nat)
    requires Invariant(cap, m)
    ensures Enabled(m, Expire(id)) <==> id in m.consumers.asleep && m.consumers.asleep[id].timed
    ensures Enabled(m, Expire(id)) ==> OutOfTime(Apply(cap, m, Expire(id)), id)
    ensures Enabled(m, StirConsumer(id)) ==> Apply(cap, m, StirConsumer(id)).consumers.Awake(id)
    ensures Enabled(m, StirProducer(id)) ==> Apply(cap, m, StirProducer(id)).producers.Awake(id)
  {
  }

  /** The consumer is awake and its deadline has passed. */
  predicate OutOfTime<T>(m: Monitor<T>, id: nat) {
    m.consumers.Awake(id) && m.consumers.Carries(id).expired
  }

  predicate IsTurnOf<T>(e: Event<T>, id: nat) {
    e.ResumeConsumer? && e.id == id
  }

  lemma StaysOutOfTime<T>(cap: nat, m: Monitor<T>, e: Event<T>, id: nat)
    requires Invariant(cap, m) && Enabled(m, e) && OutOfTime(m, id) && !IsTurnOf(e, id)
    ensures OutOfTime(Apply(cap, m, e), id)
  {
    OthersStay(cap, m, e, id);
    AwakeIsCarried(m.consumers, id);
    AwakeIsCarried(Apply(cap, m, e).consumers, id);
    EventKeeps(cap, m, e);
  }

  lemma AwakeIsCarried<V>(side: Side<V>, id: nat)
    requires side.Apart()
    ensures side.Awake(id) <==> id !in side.asleep && CarriedBy(side, id).Some?
    ensures side.Awake(id) ==> CarriedBy(side, id) == Some(side.Carries(id))
  {
  }

  lemma {:induction false} OutOfTimeUntil<T>(cap: nat, es: seq<Event<T>>, ms: seq<Monitor<T>>, i: nat, j: nat, id: nat)
    requires IsRun(cap, es, ms) && i < j < |ms| && es[i] == Expire(id)
    requires forall k :: i < k < j ==> !IsTurnOf(es[k], id)
    ensures OutOfTime(ms[j], id)
    decreases j
  {
    var k := j - 1;
    AlwaysInvariant(cap, es, ms, k);
    assert Becomes(cap, ms[k], es[k], ms[j]);
    if k == i {
      WakesIff(cap, ms[k], id);
    } else {
      OutOfTimeUntil(cap, es, ms, i, k, id);
      StaysOutOfTime(cap, ms[k], es[k], id);
    }
  }

  /** A wait with a deadline ends: on any run, whatever happens in between, a consumer whose
      deadline has passed can always go on, and is out after its next turn, with the oldest item
      if there is one then, and otherwise with nothing and the queue as it was. */
  lemma DeadlineReleases<T>(cap: nat, es: seq<Event<T>>, ms: seq<Monitor<T>>, i: nat, j: nat, id: nat)
    requires IsRun(cap, es, ms) && i < j < |ms| && es[i] == Expire(id)
    requires forall k :: i < k < j ==> !IsTurnOf(es[k], id)
    ensures ms[j].consumers.Awake(id)
    ensures j < |es| && IsTurnOf(es[j], id) ==>
      && ms[j + 1].consumers.Absent(id)
      && ms[j + 1].popped == ms[j].popped + (if ms[j].core.queue == [] then [] else [ms[j].core.queue[0]])
      && (ms[j].core.queue == [] ==> ms[j + 1].core == ms[j].core && ms[j + 1].accepted == ms[j].accepted)
  {
    OutOfTimeUntil(cap, es, ms, i, j, id);
    if j < |es| && IsTurnOf(es[j], id) {
      AlwaysInvariant(cap, es, ms, j);
      assert Becomes(cap, ms[j], es[j], ms[j + 1]);
      ConsumerLeavesIff(cap, ms[j], es[j]);
    }
  }

  /** The consumer's deadline has passed only if it has one. */
  predicate Punctual<T>(m: Monitor<T>, id: nat) {
    match CarriedBy(m.consumers, id)
    case Some(waiter) => waiter.expired ==> waiter.timed
    case None => true
  }

  lemma PunctualKept<T>(cap: nat, m: Monitor<T>, e: Event<T>, id: nat)
    requires Invariant(cap, m) && Enabled(m, e) && Punctual(m, id)
    ensures Punctual(Apply(cap, m, e), id)
  {
    if !IsConsumers(e, id) {
      OthersStay(cap, m, e, id);
    } else if !e.Expire? {
      ConsumerLeavesIff(cap, m, e);
    }
  }

  lemma {:induction false} AlwaysPunctual<T>(cap: nat, es: seq<Event<T>>, ms: seq<Monitor<T>>, i: nat, id: nat)
    requires IsRun(cap, es, ms) && i < |ms|
    ensures Punctual(ms[i], id)
  {
    if i == 0 {
    } else {
      var j := i - 1;
      AlwaysPunctual(cap, es, ms, j, id);
      AlwaysInvariant(cap, es, ms, j);
      assert Becomes(cap, ms[j], es[j], ms[j + 1]);
      PunctualKept(cap, ms[j], es[j], id);
    }
  }

  /** It is the turn of a consumer that came without a deadline. */
  predicate IsPatient<T>(m: Monitor<T>, e: Event<T>) {
    match e
    case Pop(_, timed, _) => !timed
    case ResumeConsumer(id, _) => m.consumers.Awake(id) && !m.consumers.Carries(id).timed
    case _ => false
  }

  /** A consumer without a deadline is done, on any run, if and only if there is an item or a
      shutdown: it gets nothing only from a queue that is shut and empty. */
  lemma PatientLeavesIff<T>(cap: nat, es: seq<Event<T>>, ms: seq<Monitor<T>>, i: nat)
    requires IsRun(cap, es, ms) && i < |es| && IsPatient(ms[i], es[i])
    ensures ms[i + 1].consumers.Absent(es[i].id) <==> ms[i].core.queue != [] || ms[i].core.shut
  {
    AlwaysInvariant(cap, es, ms, i);
    AlwaysPunctual(cap, es, ms, i, es[i].id);
    assert Becomes(cap, ms[i], es[i], ms[i + 1]);
    ConsumerLeavesIff(cap, ms[i], es[i]);
  }

  // ---------------------------------------------------------------- the queue

  /** `ThreadSafeQueue`, one method for each stretch of code that runs under the
      mutex without waiting. A blocking operation is repeated until it does not have
      to wait. */
  class ThreadSafeQueue<T> {
    const maxSize: nat
    var queue: seq<T>
    var isShut: bool

    constructor (maxSize: nat)
      ensures this.maxSize == maxSize && View() == Core([], false)
    {
      this.maxSize := maxSize;
      queue, isShut := [], false;
    }

    function View(): Core<T>
      reads this
    {
      Core(queue, isShut)
    }

    method PushOnce(item: T) returns (outcome: PushOutcome)
      modifies `queue
      ensures (View(), outcome) == PushCore(maxSize, old(View()), item)
    {
      if !(|queue| < maxSize || isShut) {
        return PushWaits;
      }
      if isShut {
        return Ignored;
      }
      queue := queue + [item];
      return Accepted;
    }

    method TryPush(item: T) returns (ok: bool)
      modifies `queue
      ensures ok <==> |old(queue)| < maxSize && !isShut
      ensures queue == if ok then old(queue) + [item] else old(queue)
    {
      if |queue| >= maxSize || isShut {
        return false;
      }
      queue := queue + [item];
      return true;
    }

    method PopOnce() returns (outcome: PopOutcome<T>)
      modifies `queue
      ensures (View(), outcome) == PopCore(old(View()))
    {
      if !(queue != [] || isShut) {
        return PopWaits;
      }
      if queue == [] {
        return Nothing;
      }
      var item := queue[0];
      queue := queue[1..];
      return Item(item);
    }

    /** After the time is up: one last look, and nothing instead of a further wait. */
    method PopAtDeadline() returns (item: Option<T>)
      modifies `queue
      ensures item == if old(queue) == [] then None else Some(old(queue)[0])
      ensures queue == if old(queue) == [] then [] else old(queue)[1..]
    {
      if queue == [] {
        return None;
      }
      item := Some(queue[0]);
      queue := queue[1..];
    }

    method Shutdown()
      modifies `isShut
      ensures View() == old(View()).(shut := true)
    {
      isShut := true;
    }
  }
}
