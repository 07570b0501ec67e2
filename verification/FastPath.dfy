/** The fast path: one packet processed against the table of one worker, as a
    composition of table operations and as a step of its own flow only. */
module FastPath {
  import opened Types
  import opened FlowVerdict
  import opened ConnectionTable
  import Rules
  import TlsClientHello
  import HttpHost
  import DnsQuery
  import AppSignatures

  /** Two clock readings, one for a new entry and one for the packet count, and the
      entry that makes room. */
  datatype Moment = Moment(created: nat, updated: nat, victim: Option<FiveTuple>)

  function Inspected(T: Table, t: FiveTuple, finding: Option<(AppType, string)>): Table {
    match finding
    case Some((app, sni)) => Apply(T, Op.Classify(t, app, sni))
    case None => T
  }

  function Tracked(T: Table, t: FiveTuple, size: nat, p: Seen, m: Moment): (U: Table)
    ensures t in U.connections
  {
    var counted := Counting(T, t, size, m.created, m.updated, m.victim);
    if p.isTcp then Apply(counted, Tcp(t, p.flags)) else counted
  }

  /** `processPacket` on the whole table. */
  function Process(policy: Policy, T: Table, t: FiveTuple, size: nat, p: Seen, m: Moment): (Table, PacketAction) {
    var tracked := Tracked(T, t, size, p, m);
    if tracked.connections[t].flow.state == Blocked then (tracked, Drop)
    else
      var inspected := Inspected(tracked, t, p.finding);
      var f := inspected.connections[t].flow;
      if policy(f.app, f.sni) then (Apply(inspected, Op.Block(t)), Drop) else (inspected, Forward)
  }

  /** The flow a table holds for a tuple. */
  function FlowOf(T: Table, t: FiveTuple): Flow {
    if t in T.connections then T.connections[t].flow else FRESH
  }

  /** A packet moves its own flow by one step of the flow's own state machine. */
  lemma ProcessIsStep(policy: Policy, T: Table, t: FiveTuple, size: nat, p: Seen, m: Moment)
    ensures var (U, action) := Process(policy, T, t, size, p, m);
      t in U.connections && (FlowOf(U, t), action) == Step(policy, FlowOf(T, t), p)
  {
    var tracked := Tracked(T, t, size, p, m);
    assert tracked.connections[t].flow == AfterTcp(FlowOf(T, t), p) by {
      CountingEntry(T, t, size, m.created, m.updated, m.victim);
    }
    InspectedFlow(tracked, t, p);
  }

  lemma InspectedFlow(T: Table, t: FiveTuple, p: Seen)
    requires t in T.connections
    ensures var U := Inspected(T, t, p.finding);
      t in U.connections && U.connections[t].flow == AfterInspection(T.connections[t].flow, p)
  {
  }

  /** Both tables have the same entry, if any, for a tuple. */
  predicate SameEntry(T: Table, U: Table, t: FiveTuple) {
    (t in U.connections <==> t in T.connections) && (t in U.connections ==> U.connections[t] == T.connections[t])
  }

  lemma OnlyOwnEntry(T: Table, t: FiveTuple, p: Seen, other: FiveTuple)
    requires other != t
    ensures SameEntry(T, Apply(T, Tcp(t, p.flags)), other)
    ensures SameEntry(T, Inspected(T, t, p.finding), other)
    ensures SameEntry(T, Apply(T, Op.Block(t)), other)
  {
  }

  lemma TrackedIsolates(T: Table, t: FiveTuple, size: nat, p: Seen, m: Moment, other: FiveTuple)
    requires other != t
    ensures var U := Tracked(T, t, size, p, m);
      if t !in T.connections && m.victim == Some(other) then other !in U.connections else SameEntry(T, U, other)
  {
    CountingEntry(T, t, size, m.created, m.updated, m.victim);
    OnlyOwnEntry(Counting(T, t, size, m.created, m.updated, m.victim), t, p, other);
  }

  /** It leaves every other entry as it was, except for the one that was evicted. */
  lemma ProcessIsolates(policy: Policy, T: Table, t: FiveTuple, size: nat, p: Seen, m: Moment, other: FiveTuple)
    requires other != t
    ensures var U := Process(policy, T, t, size, p, m).0;
      if t !in T.connections && m.victim == Some(other) then other !in U.connections else SameEntry(T, U, other)
  {
    TrackedIsolates(T, t, size, p, m, other);
    var tracked := Tracked(T, t, size, p, m);
    OnlyOwnEntry(tracked, t, p, other);
    OnlyOwnEntry(Inspected(tracked, t, p.finding), t, p, other);
  }

  /** Both have the same tuple, counters and times. */
  predicate SameCounts(c: Connection, d: Connection) {
    && c.tuple == d.tuple && c.packetsOut == d.packetsOut && c.bytesOut == d.bytesOut && c.packetsIn == d.packetsIn
    && c.bytesIn == d.bytesIn && c.firstSeen == d.firstSeen && c.lastSeen == d.lastSeen
  }

  lemma TrackedCounts(T: Table, t: FiveTuple, size: nat, p: Seen, m: Moment)
    ensures var U := Tracked(T, t, size, p, m);
      var c := if t in T.connections then T.connections[t] else NewConnection(t, m.created);
      && SameCounts(U.connections[t], ConnectionTable.Counted(c, size, true, m.updated))
      && U.connections[t].flow == AfterTcp(FlowOf(T, t), p)
      && U.totalSeen == T.totalSeen + (if t in T.connections then 0 else 1) && U.blocked == T.blocked
  {
    CountingEntry(T, t, size, m.created, m.updated, m.victim);
  }

  lemma InspectedCounts(T: Table, t: FiveTuple, p: Seen)
    requires t in T.connections
    ensures var U := Inspected(T, t, p.finding);
      && t in U.connections && SameCounts(U.connections[t], T.connections[t])
      && U.totalSeen == T.totalSeen && U.blocked == T.blocked
  {
  }

  lemma BlockCounts(T: Table, t: FiveTuple)
    requires t in T.connections
    ensures var U := Apply(T, Op.Block(t));
      && t in U.connections && SameCounts(U.connections[t], T.connections[t])
      && U.totalSeen == T.totalSeen && U.blocked == T.blocked + 1
  {
  }

  /** The counters of the packet's own entry, of the entries seen and of the entries
      classified and blocked. */
  lemma ProcessCounts(policy: Policy, T: Table, t: FiveTuple, size: nat, p: Seen, m: Moment)
    ensures var (U, action) := Process(policy, T, t, size, p, m);
      var c := if t in T.connections then T.connections[t] else NewConnection(t, m.created);
      && t in U.connections
      && U.connections[t].packetsOut == c.packetsOut + 1 && U.connections[t].bytesOut == c.bytesOut + size
      && U.connections[t].packetsIn == c.packetsIn && U.connections[t].bytesIn == c.bytesIn
      && U.connections[t].firstSeen == c.firstSeen && U.connections[t].lastSeen == m.updated
      && U.connections[t].tuple == c.tuple
      && U.totalSeen == T.totalSeen + (if t in T.connections then 0 else 1)
      && U.blocked == T.blocked + (if action == Drop && AfterTcp(FlowOf(T, t), p).state != Blocked then 1 else 0)
  {
    var tracked := Tracked(T, t, size, p, m);
    TrackedCounts(T, t, size, p, m);
    InspectedCounts(tracked, t, p);
    BlockCounts(Inspected(tracked, t, p.finding), t);
  }

  // ---------------------------------------------------------------- runs of a worker

  /** What a worker does after one wait: it processes a packet, or it cleans up when
      none came. */
  datatype Event =
    | Packet(job: PacketJob, m: Moment)
    | Idle(now: nat)

  const IDLE_TIMEOUT: nat := 300

  datatype Worker = Worker(table: Table, processed: nat, forwarded: nat, dropped: nat)

  const START := Worker(EMPTY, 0, 0, 0)

  /** The policies of all flows, as a function of the tuple. */
  type Policies = FiveTuple -> Policy

  function PoliciesOf(rules: Rules.RuleSet): Policies {
    t => PolicyOf(rules, t)
  }

  function React(policies: Policies, w: Worker, e: Event): Worker {
    match e
    case Packet(job, m) =>
      var (table, action) := Process(policies(job.tuple), w.table, job.tuple, |job.data|, See(job), m);
      Worker(table, w.processed + 1,
             w.forwarded + (if action == Forward then 1 else 0), w.dropped + (if action == Drop then 1 else 0))
    case Idle(now) => w.(table := Apply(w.table, Cleanup(IDLE_TIMEOUT, now)))
  }

  function Work(policies: Policies, es: seq<Event>): Worker {
    if es == [] then START else React(policies, Work(policies, es[..|es| - 1]), es[|es| - 1])
  }

  /** Every eviction takes an oldest entry. */
  predicate LegalEvent(max: nat, T: Table, e: Event) {
    e.Packet? ==> LegalVictim(T.connections, max, e.job.tuple, e.m.victim)
  }

  predicate LegalWork(policies: Policies, max: nat, es: seq<Event>) {
    forall i :: 0 <= i < |es| ==> LegalEvent(max, Work(policies, es[..i]).table, es[i])
  }

  lemma LegalWorkFront(policies: Policies, max: nat, es: seq<Event>)
    requires LegalWork(policies, max, es) && es != []
    ensures LegalWork(policies, max, es[..|es| - 1])
    ensures LegalEvent(max, Work(policies, es[..|es| - 1]).table, es[|es| - 1])
  {
    var front := es[..|es| - 1];
    assert forall i :: 0 <= i < |front| ==> front[i] == es[i] && front[..i] == es[..i];
  }

  /** Everything a worker took in was forwarded or dropped. */
  lemma {:induction false} ProcessedIsForwardedPlusDropped(policies: Policies, es: seq<Event>)
    ensures var w := Work(policies, es); w.processed == w.forwarded + w.dropped
  {
    if es == [] {
    } else {
      ProcessedIsForwardedPlusDropped(policies, es[..|es| - 1]);
    }
  }

  /** The packets of a tuple since its entry was created. */
  function SinceCreation(policies: Policies, es: seq<Event>, t: FiveTuple): seq<PacketJob> {
    if es == [] then []
    else
      var front, e := es[..|es| - 1], es[|es| - 1];
      if e.Packet? && e.job.tuple == t then
        (if t in Work(policies, front).table.connections then SinceCreation(policies, front, t) else []) + [e.job]
      else SinceCreation(policies, front, t)
  }

  function TotalSize(jobs: seq<PacketJob>): nat {
    if jobs == [] then 0 else TotalSize(jobs[..|jobs| - 1]) + |jobs[|jobs| - 1].data|
  }

  lemma TotalSizeNext(jobs: seq<PacketJob>, job: PacketJob)
    ensures TotalSize(jobs + [job]) == TotalSize(jobs) + |job.data|
  {
    assert (jobs + [job])[..|jobs|] == jobs;
  }

  predicate CountsThem(c: Connection, jobs: seq<PacketJob>) {
    c.packetsOut == |jobs| && c.bytesOut == TotalSize(jobs) && c.packetsIn == 0 && c.bytesIn == 0
  }

  lemma CountsOne(policy: Policy, T: Table, job: PacketJob, m: Moment, jobs: seq<PacketJob>)
    requires job.tuple in T.connections ==> CountsThem(T.connections[job.tuple], jobs)
    ensures var U := Process(policy, T, job.tuple, |job.data|, See(job), m).0;
      job.tuple in U.connections &&
      CountsThem(U.connections[job.tuple], (if job.tuple in T.connections then jobs else []) + [job])
  {
    ProcessCounts(policy, T, job.tuple, |job.data|, See(job), m);
    TotalSizeNext(if job.tuple in T.connections then jobs else [], job);
  }

  lemma PacketCounts(policy: Policy, T: Table, job: PacketJob, m: Moment, t: FiveTuple, jobs: seq<PacketJob>)
    requires t in T.connections ==> CountsThem(T.connections[t], jobs)
    ensures var U := Process(policy, T, job.tuple, |job.data|, See(job), m).0;
      t in U.connections ==>
        CountsThem(U.connections[t], if job.tuple != t then jobs else (if t in T.connections then jobs else []) + [job])
  {
    if job.tuple == t {
      CountsOne(policy, T, job, m, jobs);
    } else {
      ProcessIsolates(policy, T, job.tuple, |job.data|, See(job), m, t);
    }
  }

  /** The outbound counters of a live entry are the number and total size of its
      tuple's packets since it was created; nothing is ever counted as inbound. */
  lemma {:induction false} EntriesCountTheirPackets(policies: Policies, es: seq<Event>, t: FiveTuple)
    ensures t in Work(policies, es).table.connections ==>
      CountsThem(Work(policies, es).table.connections[t], SinceCreation(policies, es, t))
  {
    if es == [] {
    } else {
      var front, e := es[..|es| - 1], es[|es| - 1];
      EntriesCountTheirPackets(policies, front, t);
      var T := Work(policies, front).table;
      if e.Packet? {
        PacketCounts(policies(e.job.tuple), T, e.job, e.m, t, SinceCreation(policies, front, t));
      }
    }
  }

  // ---------------------------------------------------------------- recency

  /** The clock never stands still: each reading for a new entry is later than all
      times in the table. */
  predicate Ticks(T: Table, e: Event) {
    e.Packet? ==> AllBefore(T.connections, e.m.created) && e.m.created <= e.m.updated
  }

  predicate StrictClock(policies: Policies, es: seq<Event>) {
    forall i :: 0 <= i < |es| ==> Ticks(Work(policies, es[..i]).table, es[i])
  }

  /** The least-recently-used list that the same events drive. */
  function LruList(policies: Policies, max: nat, es: seq<Event>): seq<FiveTuple> {
    if es == [] then []
    else
      var front, e := es[..|es| - 1], es[|es| - 1];
      match e
      case Packet(job, _) => Lru(max, LruList(policies, max, front), job.tuple)
      case Idle(_) => Among(LruList(policies, max, front), Work(policies, es).table.connections.Keys)
  }

  lemma ProcessKeepsTimes(policy: Policy, T: Table, t: FiveTuple, size: nat, p: Seen, m: Moment)
    ensures SameTimes(Counting(T, t, size, m.created, m.updated, m.victim).connections,
                      Process(policy, T, t, size, p, m).0.connections)
  {
    var counted := Counting(T, t, size, m.created, m.updated, m.victim);
    var tracked := Tracked(T, t, size, p, m);
    assert SameTimes(counted.connections, tracked.connections);
    var inspected := Inspected(tracked, t, p.finding);
    assert SameTimes(tracked.connections, inspected.connections);
    assert SameTimes(inspected.connections, Apply(inspected, Op.Block(t)).connections);
  }

  lemma ProcessIsLru(policy: Policy, max: nat, T: Table, order: seq<FiveTuple>, t: FiveTuple, size: nat,
          p: Seen, m: Moment)
    requires Recency(T.connections, order) && LegalVictim(T.connections, max, t, m.victim)
    requires AllBefore(T.connections, m.created) && m.created <= m.updated
    ensures Recency(Process(policy, T, t, size, p, m).0.connections, Lru(max, order, t))
    ensures m.victim == if t in order || |order| < max || order == [] then None else Some(order[0])
  {
    CountingIsLru(max, T, order, t, size, m.created, m.updated, m.victim);
    ProcessKeepsTimes(policy, T, t, size, p, m);
    SameTimesSameRecency(Counting(T, t, size, m.created, m.updated, m.victim).connections,
                         Process(policy, T, t, size, p, m).0.connections, Lru(max, order, t));
  }

  predicate StepsInOrder(policies: Policies, max: nat, es: seq<Event>) {
    LegalWork(policies, max, es) && StrictClock(policies, es)
  }

  lemma InOrderFront(policies: Policies, max: nat, es: seq<Event>)
    requires StepsInOrder(policies, max, es) && es != []
    ensures StepsInOrder(policies, max, es[..|es| - 1])
    ensures LegalEvent(max, Work(policies, es[..|es| - 1]).table, es[|es| - 1])
    ensures Ticks(Work(policies, es[..|es| - 1]).table, es[|es| - 1])
  {
    LegalWorkFront(policies, max, es);
    var front := es[..|es| - 1];
    assert forall i :: 0 <= i < |front| ==> front[i] == es[i] && front[..i] == es[..i];
  }

  /** Under a strictly increasing clock the table holds exactly the tuples of a
      least-recently-used list of the packets processed, in the order of their times. */
  lemma {:induction false} TableIsLru(policies: Policies, max: nat, es: seq<Event>)
    requires StepsInOrder(policies, max, es)
    ensures Recency(Work(policies, es).table.connections, LruList(policies, max, es))
  {
    if es == [] {
    } else {
      var front, e := es[..|es| - 1], es[|es| - 1];
      InOrderFront(policies, max, es);
      TableIsLru(policies, max, front);
      var T, order := Work(policies, front).table, LruList(policies, max, front);
      match e
      case Packet(job, m) =>
        ProcessIsLru(policies(job.tuple), max, T, order, job.tuple, |job.data|, See(job), m);
      case Idle(now) =>
        CleanupKeepsRecency(T, order, IDLE_TIMEOUT, now);
    }
  }

  /** What a packet evicts is the least recently processed tuple, and it evicts only
      when it has no entry itself and the table is full. */
  lemma EvictsLeastRecent(policies: Policies, max: nat, es: seq<Event>)
    requires StepsInOrder(policies, max, es) && es != [] && es[|es| - 1].Packet?
    ensures var order := LruList(policies, max, es[..|es| - 1]);
      var e := es[|es| - 1];
      e.m.victim == if e.job.tuple in order || |order| < max || order == [] then None else Some(order[0])
  {
    var front, e := es[..|es| - 1], es[|es| - 1];
    InOrderFront(policies, max, es);
    TableIsLru(policies, max, front);
    var T, order := Work(policies, front).table, LruList(policies, max, front);
    ProcessIsLru(policies(e.job.tuple), max, T, order, e.job.tuple, |e.job.data|, See(e.job), e.m);
  }

  // ---------------------------------------------------------------- table operations of a worker

  function ApplyAll(T: Table, ops: seq<Op>): Table {
    if ops == [] then T else Apply(ApplyAll(T, ops[..|ops| - 1]), ops[|ops| - 1])
  }

  function TrackingOps(t: FiveTuple, size: nat, p: Seen, m: Moment): seq<Op> {
    [GetOrCreate(t, m.created, m.victim), Update(t, size, true, m.updated)] + if p.isTcp then [Tcp(t, p.flags)] else []
  }

  function FindingOps(t: FiveTuple, finding: Option<(AppType, string)>): seq<Op> {
    match finding
    case Some((app, sni)) => [Op.Classify(t, app, sni)]
    case None => []
  }

  /** The operations that an event makes on the table. */
  function OpsOf(policies: Policies, T: Table, e: Event): seq<Op> {
    match e
    case Idle(now) => [Cleanup(IDLE_TIMEOUT, now)]
    case Packet(job, m) =>
      var t, p, policy := job.tuple, See(job), policies(job.tuple);
      var ops := TrackingOps(t, |job.data|, p, m);
      var tracked := Tracked(T, t, |job.data|, p, m);
      if tracked.connections[t].flow.state == Blocked then ops
      else
        var f := FlowOf(Inspected(tracked, t, p.finding), t);
        ops + FindingOps(t, p.finding) + if policy(f.app, f.sni) then [Op.Block(t)] else []
  }

  lemma ApplyAllNone(T: Table)
    ensures ApplyAll(T, []) == T
  {
  }

  lemma ApplyAllOne(T: Table, ops: seq<Op>, op: Op)
    ensures ApplyAll(T, ops + [op]) == Apply(ApplyAll(T, ops), op)
  {
    assert (ops + [op])[..|ops|] == ops;
  }

  lemma TrackingIsOps(T: Table, t: FiveTuple, size: nat, p: Seen, m: Moment)
    ensures ApplyAll(T, TrackingOps(t, size, p, m)) == Tracked(T, t, size, p, m)
  {
    var a, b := GetOrCreate(t, m.created, m.victim), Update(t, size, true, m.updated);
    ApplyAllNone(T);
    ApplyAllOne(T, [], a);
    ApplyAllOne(T, [a], b);
    assert [] + [a] == [a] && [a] + [b] == [a, b];
    if p.isTcp {
      ApplyAllOne(T, [a, b], Tcp(t, p.flags));
      assert TrackingOps(t, size, p, m) == [a, b] + [Tcp(t, p.flags)];
    } else {
      assert TrackingOps(t, size, p, m) == [a, b];
    }
  }

  lemma FindingIsOps(T: Table, ops: seq<Op>, t: FiveTuple, finding: Option<(AppType, string)>)
    ensures ApplyAll(T, ops + FindingOps(t, finding)) == Inspected(ApplyAll(T, ops), t, finding)
  {
    match finding
    case Some((app, sni)) => ApplyAllOne(T, ops, Op.Classify(t, app, sni));
    case None => assert ops + [] == ops;
  }

  /** An event is its operations, one after the other. */
  lemma EventIsOps(policies: Policies, w: Worker, e: Event)
    ensures React(policies, w, e).table == ApplyAll(w.table, OpsOf(policies, w.table, e))
  {
    match e
    case Idle(now) =>
      ApplyAllNone(w.table);
      ApplyAllOne(w.table, [], Cleanup(IDLE_TIMEOUT, now));
      assert [] + [Cleanup(IDLE_TIMEOUT, now)] == [Cleanup(IDLE_TIMEOUT, now)];
    case Packet(job, m) =>
      var t, p := job.tuple, See(job);
      var ops := TrackingOps(t, |job.data|, p, m);
      TrackingIsOps(w.table, t, |job.data|, p, m);
      FindingIsOps(w.table, ops, t, p.finding);
      ApplyAllOne(w.table, ops + FindingOps(t, p.finding), Op.Block(t));
      var all := ops + FindingOps(t, p.finding);
      assert all + [] == all;
  }

  /** All operations of a run. */
  function OpsOfRun(policies: Policies, es: seq<Event>): seq<Op> {
    if es == [] then []
    else
      var front := es[..|es| - 1];
      OpsOfRun(policies, front) + OpsOf(policies, Work(policies, front).table, es[|es| - 1])
  }

  lemma {:induction false} RunOfJoin(a: seq<Op>, b: seq<Op>)
    ensures Run(a + b) == ApplyAll(Run(a), b)
    decreases |b|
  {
    if b == [] {
      assert a + b == a;
    } else {
      var front := b[..|b| - 1];
      RunOfJoin(a, front);
      assert (a + b)[..|a + b| - 1] == a + front;
    }
  }

  /** A worker's run is a run of table operations, so what holds of every such run
      holds of every worker. */
  lemma {:induction false} WorkIsRun(policies: Policies, es: seq<Event>)
    ensures Work(policies, es).table == Run(OpsOfRun(policies, es))
  {
    if es == [] {
    } else {
      var front := es[..|es| - 1];
      WorkIsRun(policies, front);
      var w := Work(policies, front);
      EventIsOps(policies, w, es[|es| - 1]);
      RunOfJoin(OpsOfRun(policies, front), OpsOf(policies, w.table, es[|es| - 1]));
    }
  }

  /** Only the first operation of an event inserts. */
  lemma InsertsFirst(policies: Policies, max: nat, T: Table, e: Event)
    requires LegalEvent(max, T, e)
    ensures var ops := OpsOf(policies, T, e);
      ops != [] && Legal(max, T, ops[0]) && forall i :: 0 < i < |ops| ==> !ops[i].GetOrCreate?
  {
  }

  lemma LegalRunOfJoin(max: nat, a: seq<Op>, b: seq<Op>)
    requires LegalRun(max, a) && b != [] && Legal(max, Run(a), b[0])
    requires forall i :: 0 < i < |b| ==> !b[i].GetOrCreate?
    ensures LegalRun(max, a + b)
  {
    var all := a + b;
    forall i | 0 <= i < |all|
      ensures Legal(max, Run(all[..i]), all[i])
    {
      if i < |a| {
        assert all[..i] == a[..i] && all[i] == a[i];
      } else if i == |a| {
        assert all[..i] == a && all[i] == b[0];
      } else {
        assert all[i] == b[i - |a|];
      }
    }
  }

  lemma {:induction false} WorkIsLegalRun(policies: Policies, max: nat, es: seq<Event>)
    requires LegalWork(policies, max, es)
    ensures LegalRun(max, OpsOfRun(policies, es))
  {
    if es == [] {
    } else {
      var front := es[..|es| - 1];
      LegalWorkFront(policies, max, es);
      WorkIsLegalRun(policies, max, front);
      WorkIsRun(policies, front);
      var T := Work(policies, front).table;
      InsertsFirst(policies, max, T, es[|es| - 1]);
      LegalRunOfJoin(max, OpsOfRun(policies, front), OpsOf(policies, T, es[|es| - 1]));
    }
  }

  /** The books of a worker over every run: a bounded table with each entry under
      its own tuple, all connections ever seen accounted for, and every entry into
      CLASSIFIED counted. */
  lemma WorkerBooks(policies: Policies, max: nat, es: seq<Event>)
    requires LegalWork(policies, max, es)
    ensures var T, ops := Work(policies, es).table, OpsOfRun(policies, es);
      && Consistent(max, T.connections)
      && T.totalSeen == |T.connections| + TotalOut(ops)
      && T.classified == Entries(ops)
  {
    var ops := OpsOfRun(policies, es);
    WorkIsRun(policies, es);
    WorkIsLegalRun(policies, max, es);
    AlwaysConsistent(max, ops);
    SeenAreAccountedFor(max, ops);
    ClassifiedCountsEntries(ops);
  }

  /** A blocked source address or destination port is never let through, whatever
      the table has been through: no eviction or cleanup helps. */
  lemma BlockedAddressNeverPasses(rules: Rules.RuleSet, es: seq<Event>, job: PacketJob, m: Moment)
    requires job.tuple.srcIp in rules.ips || job.tuple.dstPort in rules.ports
    ensures Process(PolicyOf(rules, job.tuple), Work(PoliciesOf(rules), es).table, job.tuple, |job.data|, See(job),
      m).1 == Drop
  {
    var T := Work(PoliciesOf(rules), es).table;
    BlockedAddressAlwaysDrops(rules, FlowOf(T, job.tuple), job);
    ProcessIsStep(PolicyOf(rules, job.tuple), T, job.tuple, |job.data|, See(job), m);
  }

  // ---------------------------------------------------------------- the processor

  /** An empty payload holds no name. */
  lemma NothingInNothing(job: PacketJob)
    requires job.payloadOffset >= |job.data| || job.payloadLength == 0
    ensures SniOf(job) == None && HostOf(job) == None
  {
    assert job.Payload() == [];
  }

  /** `FastPathProcessor` without its thread: the body of its loop. */
  class FastPathProcessor {
    const tracker: ConnectionTracker
    const rules: Rules.RuleManager
    var processed: nat
    var forwarded: nat
    var dropped: nat

    constructor (rules: Rules.RuleManager, maxConnections: nat)
      ensures this.rules == rules && fresh(tracker) && tracker.maxConnections == maxConnections
      ensures View() == START
    {
      tracker := new ConnectionTracker(maxConnections);
      this.rules := rules;
      processed, forwarded, dropped := 0, 0, 0;
    }

    function View(): Worker
      reads this, tracker
    {
      Worker(tracker.View(), processed, forwarded, dropped)
    }

    method TryExtractSni(job: PacketJob) returns (found: bool)
      modifies tracker
      ensures found == SniOf(job).Some?
      ensures tracker.View() == if found
        then Apply(old(tracker.View()), Op.Classify(job.tuple, AppSignatures.AppOf(SniOf(job).value), SniOf(job).value))
        else old(tracker.View())
    {
      if job.tuple.dstPort != 443 && job.payloadLength < 50 {
        return false;
      }
      if job.payloadOffset >= |job.data| || job.payloadLength == 0 {
        NothingInNothing(job);
        return false;
      }
      var sni := TlsClientHello.Extract(job.Payload());
      if sni.Some? {
        var app := AppSignatures.SniToAppType(Text(sni.value));
        tracker.ClassifyConnection(job.tuple, app, Text(sni.value));
      }
      return sni.Some?;
    }

    method TryExtractHttpHost(job: PacketJob) returns (found: bool)
      modifies tracker
      ensures found == HostOf(job).Some?
      ensures tracker.View() == if found
        then Apply(old(tracker.View()),
            Op.Classify(job.tuple, AppSignatures.AppOf(HostOf(job).value), HostOf(job).value))
        else old(tracker.View())
    {
      if job.tuple.dstPort != 80 {
        return false;
      }
      if job.payloadOffset >= |job.data| || job.payloadLength == 0 {
        NothingInNothing(job);
        return false;
      }
      var host := HttpHost.Extract(job.Payload());
      if host.Some? {
        var app := AppSignatures.SniToAppType(Text(host.value));
        tracker.ClassifyConnection(job.tuple, app, Text(host.value));
      }
      return host.Some?;
    }

    method InspectPayload(job: PacketJob)
      modifies tracker
      ensures tracker.View() == Inspected(old(tracker.View()), job.tuple, Classification(job))
    {
      if job.payloadLength == 0 || job.payloadOffset >= |job.data| {
        return;
      }
      var found := TryExtractSni(job);
      if found {
        return;
      }
      found := TryExtractHttpHost(job);
      if found {
        return;
      }
      if job.tuple.dstPort == 53 || job.tuple.srcPort == 53 {
        var domain := DnsQuery.ExtractQuery(job.Payload());
        if domain.Some? {
          tracker.ClassifyConnection(job.tuple, Dns, Text(domain.value));
          return;
        }
      }
      if job.tuple.dstPort == 80 {
        tracker.ClassifyConnection(job.tuple, Http, "");
      } else if job.tuple.dstPort == 443 {
        tracker.ClassifyConnection(job.tuple, Https, "");
      }
    }

    method CheckRules(job: PacketJob) returns (action: PacketAction)
      requires job.tuple in tracker.connections
      modifies tracker
      ensures var f := old(tracker.connections[job.tuple].flow);
        if Blocks(rules.View(), job.tuple, f.app, f.sni)
        then action == Drop && tracker.View() == Apply(old(tracker.View()), Op.Block(job.tuple))
        else action == Forward && tracker.View() == old(tracker.View())
    {
      var f := tracker.connections[job.tuple].flow;
      var reason := rules.Decide(job.tuple.srcIp, job.tuple.dstPort, f.app, f.sni);
      if reason.Some? {
        tracker.BlockConnection(job.tuple);
        return Drop;
      }
      return Forward;
    }

    /** The packet is looked up, counted and its TCP flags are taken in. */
    method Track(job: PacketJob, created: nat, updated: nat) returns (ghost m: Moment)
      modifies tracker
      ensures m.created == created && m.updated == updated
      ensures LegalVictim(old(tracker.connections), tracker.maxConnections, job.tuple, m.victim)
      ensures tracker.View() == Tracked(old(tracker.View()), job.tuple, |job.data|, See(job), m)
    {
      var c, victim := tracker.GetOrCreateConnection(job.tuple, created);
      m := Moment(created, updated, victim);
      tracker.UpdateConnection(job.tuple, |job.data|, true, updated);
      if job.tuple.protocol == TCP {
        tracker.UpdateTcpState(job.tuple, job.tcpFlags);
      }
    }

    method ProcessPacket(job: PacketJob, created: nat, updated: nat) returns (action: PacketAction, ghost m: Moment)
      modifies tracker
      ensures m.created == created && m.updated == updated
      ensures LegalVictim(old(tracker.connections), tracker.maxConnections, job.tuple, m.victim)
      ensures (tracker.View(), action) ==
        Process(PolicyOf(rules.View(), job.tuple), old(tracker.View()), job.tuple, |job.data|, See(job), m)
    {
      m := Track(job, created, updated);
      if tracker.connections[job.tuple].flow.state == Blocked {
        return Drop, m;
      }
      ghost var tracked := tracker.View();
      if tracker.connections[job.tuple].flow.state != Classified && job.payloadLength > 0 {
        InspectPayload(job);
      }
      assert tracker.View() == Inspected(tracked, job.tuple, See(job).finding);
      action := CheckRules(job);
    }

    /** One turn of the loop with a job, as far as the processor is concerned. */
    method Turn(job: PacketJob, created: nat, updated: nat) returns (action: PacketAction, ghost m: Moment)
      modifies this, tracker
      ensures m.created == created && m.updated == updated
      ensures LegalVictim(old(tracker.connections), tracker.maxConnections, job.tuple, m.victim)
      ensures action == Process(PolicyOf(rules.View(), job.tuple), old(tracker.View()), job.tuple, |job.data|,
        See(job), m).1
      ensures View() == React(PoliciesOf(rules.View()), old(View()), Packet(job, m))
    {
      processed := processed + 1;
      action, m := ProcessPacket(job, created, updated);
      if action == Drop {
        dropped := dropped + 1;
      } else {
        forwarded := forwarded + 1;
      }
    }

    /** One turn of the loop when no job came in time. */
    method IdleTurn(now: nat)
      modifies tracker
      ensures View() == React(PoliciesOf(rules.View()), old(View()), Idle(now))
    {
      var removed := tracker.CleanupStale(IDLE_TIMEOUT, now);
    }
  }
}
