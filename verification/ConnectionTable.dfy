/** The table of one worker: its operations as steps on values, what every run of
    them keeps, and the tracker that performs them in place. */
module ConnectionTable {
  import opened Types
  import opened FlowVerdict

  /** `Connection`. Clock readings are nanoseconds. */
  datatype Connection = Connection(
    tuple: FiveTuple, flow: Flow, packetsIn: nat, packetsOut: nat, bytesIn: nat, bytesOut: nat,
    firstSeen: nat, lastSeen: nat)

  function NewConnection(t: FiveTuple, now: nat): Connection {
    Connection(t, FRESH, 0, 0, 0, 0, now, now)
  }

  datatype Table = Table(connections: map<FiveTuple, Connection>, totalSeen: nat, classified: nat, blocked: nat)

  const EMPTY := Table(map[], 0, 0, 0)

  const SECOND: nat := 1_000_000_000

  // ---------------------------------------------------------------- operations

  /** The source holds a pointer to an entry between these calls; here the entry is
      named by its key. The victim is the entry that an insertion evicts. */
  datatype Op =
    | GetOrCreate(tuple: FiveTuple, now: nat, victim: Option<FiveTuple>)
    | Update(tuple: FiveTuple, size: nat, outbound: bool, now: nat)
    | Tcp(tuple: FiveTuple, flags: byte)
    | Classify(tuple: FiveTuple, app: AppType, sni: string)
    | Block(tuple: FiveTuple)
    | Close(tuple: FiveTuple)
    | Cleanup(timeout: nat, now: nat)
    | Clear

  predicate IsOldest(conns: map<FiveTuple, Connection>, t: FiveTuple) {
    t in conns && forall k :: k in conns ==> conns[t].lastSeen <= conns[k].lastSeen
  }

  /** An insertion into a full table evicts one entry that was seen longest ago; ties
      are broken by the order in which the hash map is walked. */
  predicate LegalVictim(conns: map<FiveTuple, Connection>, max: nat, t: FiveTuple, victim: Option<FiveTuple>) {
    if t in conns || |conns| < max || conns == map[] then victim == None
    else victim.Some? && IsOldest(conns, victim.value)
  }

  predicate Legal(max: nat, T: Table, op: Op) {
    op.GetOrCreate? ==> LegalVictim(T.connections, max, op.tuple, op.victim)
  }

  /** Age in whole seconds, truncated. */
  predicate Stale(c: Connection, timeout: nat, now: nat) {
    (now >= c.lastSeen && (now - c.lastSeen) / SECOND > timeout) || c.flow.state == Closed
  }

  /** Age is cut to whole seconds before it is compared, so an entry goes only when it is
      a full second over the timeout. */
  lemma StaleIff(c: Connection, timeout: nat, now: nat)
    ensures Stale(c, timeout, now) <==> c.flow.state == Closed || now >= c.lastSeen + (timeout + 1) * 1_000_000_000
  {
  }

  function Remove(conns: map<FiveTuple, Connection>, victim: Option<FiveTuple>): map<FiveTuple, Connection> {
    match victim
    case Some(v) => conns - {v}
    case None => conns
  }

  function Counted(c: Connection, size: nat, outbound: bool, now: nat): Connection {
    if outbound then c.(lastSeen := now, packetsOut := c.packetsOut + 1, bytesOut := c.bytesOut + size)
    else c.(lastSeen := now, packetsIn := c.packetsIn + 1, bytesIn := c.bytesIn + size)
  }

  function WithFlow(T: Table, t: FiveTuple, flow: Flow): Table
    requires t in T.connections
  {
    T.(connections := T.connections[t := T.connections[t].(flow := flow)])
  }

  /** One operation. Those that take an entry do nothing when there is none, as the
      source does with a null pointer. */
  function Apply(T: Table, op: Op): Table {
    var conns := T.connections;
    match op
    case GetOrCreate(t, now, victim) =>
      if t in conns then T
      else T.(connections := Remove(conns, victim)[t := NewConnection(t, now)], totalSeen := T.totalSeen + 1)
    case Update(t, size, outbound, now) =>
      if t !in conns then T else T.(connections := conns[t := Counted(conns[t], size, outbound, now)])
    case Tcp(t, flags) =>
      if t !in conns then T else WithFlow(T, t, TcpStep(conns[t].flow, flags))
    case Classify(t, app, sni) =>
      if t !in conns || conns[t].flow.state == Classified then T
      else WithFlow(T, t, FlowVerdict.Classify(conns[t].flow, app, sni)).(classified := T.classified + 1)
    case Block(t) =>
      if t !in conns then T
      else WithFlow(T, t, conns[t].flow.(state := Blocked, action := Drop)).(blocked := T.blocked + 1)
    case Close(t) =>
      if t !in conns then T else WithFlow(T, t, conns[t].flow.(state := Closed))
    case Cleanup(timeout, now) =>
      T.(connections := map k | k in conns && !Stale(conns[k], timeout, now) :: conns[k])
    case Clear => T.(connections := map[])
  }

  function Run(ops: seq<Op>): Table {
    if ops == [] then EMPTY else Apply(Run(ops[..|ops| - 1]), ops[|ops| - 1])
  }

  predicate LegalRun(max: nat, ops: seq<Op>) {
    forall i :: 0 <= i < |ops| ==> Legal(max, Run(ops[..i]), ops[i])
  }

  lemma LegalFront(max: nat, ops: seq<Op>)
    requires LegalRun(max, ops) && ops != []
    ensures LegalRun(max, ops[..|ops| - 1]) && Legal(max, Run(ops[..|ops| - 1]), ops[|ops| - 1])
  {
    var front := ops[..|ops| - 1];
    assert forall i :: 0 <= i < |front| ==> front[i] == ops[i] && front[..i] == ops[..i];
  }

  // ---------------------------------------------------------------- invariants

  /** Every key is its entry's own tuple, and the table is within its bound. */
  predicate Consistent(max: nat, conns: map<FiveTuple, Connection>) {
    && (forall k :: k in conns ==> conns[k].tuple == k)
    && |conns| <= (if max == 0 then 1 else max)
  }

  lemma RemoveSize(conns: map<FiveTuple, Connection>, v: FiveTuple)
    requires v in conns
    ensures |conns - {v}| == |conns| - 1
  {
    assert (conns - {v}).Keys == conns.Keys - {v};
  }

  lemma AddSize(conns: map<FiveTuple, Connection>, t: FiveTuple, c: Connection)
    ensures |conns[t := c]| == if t in conns then |conns| else |conns| + 1
  {
    assert conns[t := c].Keys == conns.Keys + {t};
  }

  function StaleKeys(conns: map<FiveTuple, Connection>, timeout: nat, now: nat): set<FiveTuple> {
    set k | k in conns && Stale(conns[k], timeout, now)
  }

  lemma CleanupSize(T: Table, timeout: nat, now: nat)
    ensures |Apply(T, Cleanup(timeout, now)).connections| == |T.connections| - |StaleKeys(T.connections, timeout, now)|
  {
    var stale := StaleKeys(T.connections, timeout, now);
    assert Apply(T, Cleanup(timeout, now)).connections.Keys == T.connections.Keys - stale;
    assert stale <= T.connections.Keys;
  }

  lemma ConsistentKept(max: nat, T: Table, op: Op)
    requires Consistent(max, T.connections) && Legal(max, T, op)
    ensures Consistent(max, Apply(T, op).connections)
  {
    var conns := T.connections;
    match op
    case GetOrCreate(t, now, victim) =>
      if t !in conns {
        if victim.Some? {
          RemoveSize(conns, victim.value);
        }
        AddSize(Remove(conns, victim), t, NewConnection(t, now));
      }
    case Cleanup(timeout, now) => CleanupSize(T, timeout, now);
    case Update(t, size, outbound, now) =>
      if t in conns { AddSize(conns, t, Counted(conns[t], size, outbound, now)); }
    case Tcp(t, flags) =>
      if t in conns { AddSize(conns, t, Apply(T, op).connections[t]); }
    case Classify(t, _, _) =>
      if t in conns { AddSize(conns, t, Apply(T, op).connections[t]); }
    case Block(t) =>
      if t in conns { AddSize(conns, t, Apply(T, op).connections[t]); }
    case Close(t) =>
      if t in conns { AddSize(conns, t, Apply(T, op).connections[t]); }
    case Clear =>
  }

  /** Over every run the table stays within max(1, max_connections) entries, each
      under its own tuple. */
  lemma {:induction false} AlwaysConsistent(max: nat, ops: seq<Op>)
    requires LegalRun(max, ops)
    ensures Consistent(max, Run(ops).connections)
  {
    if ops == [] {
    } else {
      LegalFront(max, ops);
      AlwaysConsistent(max, ops[..|ops| - 1]);
      ConsistentKept(max, Run(ops[..|ops| - 1]), ops[|ops| - 1]);
    }
  }

  // ---------------------------------------------------------------- accounts

  /** How many entries an operation takes out: one evicted, all that are stale, or
      all there are. */
  function Evicted(T: Table, op: Op): nat {
    if op.GetOrCreate? && op.tuple !in T.connections && op.victim.Some? then 1 else 0
  }

  function Cleaned(T: Table, op: Op): nat {
    if op.Cleanup? then |StaleKeys(T.connections, op.timeout, op.now)| else 0
  }

  function Cleared(T: Table, op: Op): nat {
    if op.Clear? then |T.connections| else 0
  }

  function TotalOut(ops: seq<Op>): nat {
    if ops == [] then 0
    else
      var T, op := Run(ops[..|ops| - 1]), ops[|ops| - 1];
      TotalOut(ops[..|ops| - 1]) + Evicted(T, op) + Cleaned(T, op) + Cleared(T, op)
  }

  lemma SizeStep(max: nat, T: Table, op: Op)
    requires Legal(max, T, op)
    ensures var U := Apply(T, op);
      U.totalSeen + |T.connections| == T.totalSeen + |U.connections| + Evicted(T, op) + Cleaned(T, op) + Cleared(T, op)
  {
    var conns := T.connections;
    match op
    case GetOrCreate(t, now, victim) =>
      if t !in conns {
        if victim.Some? {
          RemoveSize(conns, victim.value);
        }
        AddSize(Remove(conns, victim), t, NewConnection(t, now));
      }
    case Cleanup(timeout, now) => CleanupSize(T, timeout, now);
    case Update(t, size, outbound, now) =>
      if t in conns { AddSize(conns, t, Counted(conns[t], size, outbound, now)); }
    case Tcp(t, flags) =>
      if t in conns { AddSize(conns, t, Apply(T, op).connections[t]); }
    case Classify(t, _, _) =>
      if t in conns { AddSize(conns, t, Apply(T, op).connections[t]); }
    case Block(t) =>
      if t in conns { AddSize(conns, t, Apply(T, op).connections[t]); }
    case Close(t) =>
      if t in conns { AddSize(conns, t, Apply(T, op).connections[t]); }
    case Clear =>
  }

  /** Connections are conserved: all ever seen are live, evicted, cleaned up or
      cleared. */
  lemma {:induction false} SeenAreAccountedFor(max: nat, ops: seq<Op>)
    requires LegalRun(max, ops)
    ensures Run(ops).totalSeen == |Run(ops).connections| + TotalOut(ops)
  {
    if ops == [] {
    } else {
      LegalFront(max, ops);
      SeenAreAccountedFor(max, ops[..|ops| - 1]);
      SizeStep(max, Run(ops[..|ops| - 1]), ops[|ops| - 1]);
    }
  }

  /** An entry enters CLASSIFIED with an operation. */
  predicate Enters(T: Table, op: Op, t: FiveTuple) {
    && t in T.connections && T.connections[t].flow.state != Classified
    && t in Apply(T, op).connections && Apply(T, op).connections[t].flow.state == Classified
  }

  /** Entries into CLASSIFIED happen one at a time and each is counted. */
  lemma ClassifiedCountStep(T: Table, op: Op)
    ensures Apply(T, op).classified == T.classified + 1 <==> exists t :: Enters(T, op, t)
    ensures Apply(T, op).classified == T.classified || Apply(T, op).classified == T.classified + 1
    ensures forall t, u :: Enters(T, op, t) && Enters(T, op, u) ==> t == u
  {
    if op.Classify? && op.tuple in T.connections && T.connections[op.tuple].flow.state != Classified {
      assert Enters(T, op, op.tuple);
    }
  }

  function Entries(ops: seq<Op>): nat {
    if ops == [] then 0
    else
      var T, op := Run(ops[..|ops| - 1]), ops[|ops| - 1];
      Entries(ops[..|ops| - 1]) + (if op.Classify? && Enters(T, op, op.tuple) then 1 else 0)
  }

  /** `classified_count_` is the number of entries into CLASSIFIED. */
  lemma {:induction false} ClassifiedCountsEntries(ops: seq<Op>)
    ensures Run(ops).classified == Entries(ops)
  {
    if ops == [] {
    } else {
      ClassifiedCountsEntries(ops[..|ops| - 1]);
      ClassifiedCountStep(Run(ops[..|ops| - 1]), ops[|ops| - 1]);
    }
  }

  /** The packets counted on a tuple since its entry was last created, as pairs of
      direction and size. */
  function Since(ops: seq<Op>, t: FiveTuple): seq<(bool, nat)> {
    if ops == [] then []
    else
      var T, op := Run(ops[..|ops| - 1]), ops[|ops| - 1];
      if op.GetOrCreate? && op.tuple == t && t !in T.connections then []
      else if op.Update? && op.tuple == t then Since(ops[..|ops| - 1], t) + [(op.outbound, op.size)]
      else Since(ops[..|ops| - 1], t)
  }

  function Count(ps: seq<(bool, nat)>, outbound: bool): nat {
    if ps == [] then 0
    else Count(ps[..|ps| - 1], outbound) + (if ps[|ps| - 1].0 == outbound then 1 else 0)
  }

  function Bytes(ps: seq<(bool, nat)>, outbound: bool): nat {
    if ps == [] then 0
    else Bytes(ps[..|ps| - 1], outbound) + (if ps[|ps| - 1].0 == outbound then ps[|ps| - 1].1 else 0)
  }

  predicate CountersRight(c: Connection, ps: seq<(bool, nat)>) {
    && c.packetsOut == Count(ps, true) && c.bytesOut == Bytes(ps, true)
    && c.packetsIn == Count(ps, false) && c.bytesIn == Bytes(ps, false)
  }

  /** The counters of every live entry are the number and the total size of the
      packets of its tuple since the entry was created, by direction. */
  lemma {:induction false} CountersCount(ops: seq<Op>, t: FiveTuple)
    ensures t in Run(ops).connections ==> CountersRight(Run(ops).connections[t], Since(ops, t))
  {
    if ops == [] {
    } else {
      var front, op := ops[..|ops| - 1], ops[|ops| - 1];
      CountersCount(front, t);
      if op.Update? && op.tuple == t {
        var ps, p := Since(front, t), (op.outbound, op.size);
        assert (ps + [p])[..|ps|] == ps;
      }
    }
  }

  /** `blocked_count_` is the number of times an entry was blocked. */
  function Blockings(ops: seq<Op>): nat {
    if ops == [] then 0
    else
      var T, op := Run(ops[..|ops| - 1]), ops[|ops| - 1];
      Blockings(ops[..|ops| - 1]) + (if op.Block? && op.tuple in T.connections then 1 else 0)
  }

  lemma {:induction false} BlockedCountsBlocks(ops: seq<Op>)
    ensures Run(ops).blocked == Blockings(ops)
  {
    if ops == [] {
    } else {
      BlockedCountsBlocks(ops[..|ops| - 1]);
    }
  }

  /** The clock when the entry of a tuple was last created. */
  function CreatedAt(ops: seq<Op>, t: FiveTuple): nat {
    if ops == [] then 0
    else
      var T, op := Run(ops[..|ops| - 1]), ops[|ops| - 1];
      if op.GetOrCreate? && op.tuple == t && t !in T.connections then op.now else CreatedAt(ops[..|ops| - 1], t)
  }

  /** The clock when a packet was last counted on it, or else when it was created. */
  function SeenAt(ops: seq<Op>, t: FiveTuple): nat {
    if ops == [] then 0
    else
      var T, op := Run(ops[..|ops| - 1]), ops[|ops| - 1];
      if op.GetOrCreate? && op.tuple == t && t !in T.connections then op.now
      else if op.Update? && op.tuple == t && t in T.connections then op.now
      else SeenAt(ops[..|ops| - 1], t)
  }

  /** A live entry knows when it was created and when it was last seen. */
  lemma {:induction false} TimesAre(ops: seq<Op>, t: FiveTuple)
    ensures t in Run(ops).connections ==>
      Run(ops).connections[t].firstSeen == CreatedAt(ops, t) && Run(ops).connections[t].lastSeen == SeenAt(ops, t)
  {
    if ops == [] {
    } else {
      TimesAre(ops[..|ops| - 1], t);
    }
  }

  /** An entry that was closed is gone after the next cleanup, however young it is, and no other entry
      is touched by closing it. */
  lemma ClosedGoes(T: Table, t: FiveTuple, timeout: nat, now: nat)
    ensures t !in Apply(Apply(T, Close(t)), Cleanup(timeout, now)).connections
    ensures forall other :: other != t ==>
      (other in Apply(T, Close(t)).connections <==> other in T.connections) &&
      (other in T.connections ==> Apply(T, Close(t)).connections[other] == T.connections[other])
  {
  }

  // ---------------------------------------------------------------- recency

  /** The order lists keys of the table, least recently seen first. */
  predicate Ascending(conns: map<FiveTuple, Connection>, order: seq<FiveTuple>) {
    && (forall k :: k in order ==> k in conns)
    && (forall i, j :: 0 <= i < j < |order| ==> conns[order[i]].lastSeen < conns[order[j]].lastSeen)
  }

  /** It lists all of them. */
  predicate Recency(conns: map<FiveTuple, Connection>, order: seq<FiveTuple>) {
    Ascending(conns, order) && forall k :: k in conns ==> k in order
  }

  function Without(order: seq<FiveTuple>, t: FiveTuple): (r: seq<FiveTuple>)
    ensures t !in r
    ensures forall x :: x in order && x != t ==> x in r
    ensures forall x :: x in r ==> x in order
  {
    if order == [] then []
    else if order[0] == t then Without(order[1..], t)
    else [order[0]] + Without(order[1..], t)
  }

  /** A least-recently-used list: touching a key moves it to the end. */
  function Touch(order: seq<FiveTuple>, t: FiveTuple): seq<FiveTuple> {
    Without(order, t) + [t]
  }

  /** In a table with such an order only its first key is oldest. */
  lemma OnlyOldest(conns: map<FiveTuple, Connection>, order: seq<FiveTuple>, t: FiveTuple)
    requires Recency(conns, order) && IsOldest(conns, t)
    ensures order != [] && order[0] == t
  {
    assert t in order;
    assert forall i :: 0 < i < |order| ==> conns[order[0]].lastSeen < conns[order[i]].lastSeen;
  }

  lemma FirstIsBelow(conns: map<FiveTuple, Connection>, order: seq<FiveTuple>, k: FiveTuple)
    requires Ascending(conns, order) && order != [] && k in order[1..]
    ensures conns[order[0]].lastSeen < conns[k].lastSeen
  {
    var i :| 0 <= i < |order[1..]| && order[1..][i] == k;
    assert order[i + 1] == k;
  }

  lemma {:induction false} WithoutKeepsOrder(conns: map<FiveTuple, Connection>, order: seq<FiveTuple>, t: FiveTuple)
    requires Ascending(conns, order)
    ensures Ascending(conns, Without(order, t))
  {
    if order == [] {
    } else {
      var rest := order[1..];
      RestAscends(conns, order);
      WithoutKeepsOrder(conns, rest, t);
      if order[0] != t {
        var r := Without(rest, t);
        forall j | 0 <= j < |r|
          ensures conns[order[0]].lastSeen < conns[r[j]].lastSeen
        {
          assert r[j] in r;
          FirstIsBelow(conns, order, r[j]);
        }
      }
    }
  }

  function Elements(order: seq<FiveTuple>): set<FiveTuple> {
    set k | k in order
  }

  lemma OneMoreElement(order: seq<FiveTuple>)
    requires order != [] && order[0] !in order[1..]
    ensures |Elements(order)| == |Elements(order[1..])| + 1
  {
    assert order == [order[0]] + order[1..];
    assert Elements(order) == Elements(order[1..]) + {order[0]};
  }

  lemma RestAscends(conns: map<FiveTuple, Connection>, order: seq<FiveTuple>)
    requires Ascending(conns, order) && order != []
    ensures Ascending(conns, order[1..])
  {
    assert forall k :: k in order[1..] ==> k in order;
  }

  lemma {:induction false} DistinctSize(conns: map<FiveTuple, Connection>, order: seq<FiveTuple>)
    requires Ascending(conns, order)
    ensures |Elements(order)| == |order|
  {
    if order == [] {
      assert Elements(order) == {};
    } else {
      var rest := order[1..];
      RestAscends(conns, order);
      DistinctSize(conns, rest);
      FirstNotAgain(conns, order);
      OneMoreElement(order);
    }
  }

  lemma FirstNotAgain(conns: map<FiveTuple, Connection>, order: seq<FiveTuple>)
    requires Ascending(conns, order) && order != []
    ensures order[0] !in order[1..]
  {
    if order[0] in order[1..] {
      FirstIsBelow(conns, order, order[0]);
    }
  }

  lemma OrderSize(conns: map<FiveTuple, Connection>, order: seq<FiveTuple>)
    requires Recency(conns, order)
    ensures |order| == |conns|
  {
    DistinctSize(conns, order);
    assert Elements(order) == conns.Keys;
  }

  /** What processing a packet of a tuple does to a least-recently-used list of
      bounded length. */
  function Lru(max: nat, order: seq<FiveTuple>, t: FiveTuple): seq<FiveTuple> {
    Touch(if t in order || |order| < max || order == [] then order else order[1..], t)
  }

  /** All entries were last seen before the given time. */
  predicate AllBefore(conns: map<FiveTuple, Connection>, time: nat) {
    forall k :: k in conns ==> conns[k].lastSeen < time
  }

  /** An entry with a new time goes to the end of the order. */
  lemma TouchKeepsRecency(conns: map<FiveTuple, Connection>, order: seq<FiveTuple>, t: FiveTuple, c: Connection)
    requires Recency(conns, order) && AllBefore(conns, c.lastSeen)
    ensures Recency(conns[t := c], Touch(order, t))
  {
    var rest := Without(order, t);
    WithoutKeepsOrder(conns, order, t);
    var after := conns[t := c];
    forall i, j | 0 <= i < j < |rest| + 1
      ensures after[Touch(order, t)[i]].lastSeen < after[Touch(order, t)[j]].lastSeen
    {
      assert rest[i] in rest;
      if j < |rest| { assert rest[j] in rest; }
    }
  }

  lemma DropOldest(conns: map<FiveTuple, Connection>, order: seq<FiveTuple>)
    requires Recency(conns, order) && order != []
    ensures Recency(conns - {order[0]}, order[1..])
  {
    var rest := order[1..];
    assert forall k :: k in rest ==> k in order;
    forall k | k in rest
      ensures k in conns - {order[0]}
    {
      FirstIsBelow(conns, order, k);
    }
    forall k | k in conns - {order[0]}
      ensures k in rest
    {
      assert k in order;
      assert order == [order[0]] + rest;
    }
  }

  /** The table after a packet of a tuple has been looked up and counted. */
  function Counting(T: Table, t: FiveTuple, size: nat, created: nat, updated: nat, victim: Option<FiveTuple>): Table {
    Apply(Apply(T, GetOrCreate(t, created, victim)), Update(t, size, true, updated))
  }

  /** The only victim there can be is the key that heads the order. */
  lemma VictimIsFirst(max: nat, conns: map<FiveTuple, Connection>, order: seq<FiveTuple>, t: FiveTuple,
          victim: Option<FiveTuple>)
    requires Recency(conns, order) && LegalVictim(conns, max, t, victim)
    ensures victim == if t in order || |order| < max || order == [] then None else Some(order[0])
  {
    OrderSize(conns, order);
    assert t in conns <==> t in order;
    assert conns == map[] <==> order == [];
    if victim.Some? {
      OnlyOldest(conns, order, victim.value);
    }
  }

  lemma InsertIsLru(max: nat, conns: map<FiveTuple, Connection>, order: seq<FiveTuple>, t: FiveTuple,
          victim: Option<FiveTuple>, c: Connection)
    requires Recency(conns, order) && t !in order && AllBefore(conns, c.lastSeen)
    requires victim == if |order| < max || order == [] then None else Some(order[0])
    ensures Recency(Remove(conns, victim)[t := c], Lru(max, order, t))
  {
    if victim == None {
      TouchKeepsRecency(conns, order, t, c);
    } else {
      DropOldest(conns, order);
      TouchKeepsRecency(conns - {order[0]}, order[1..], t, c);
    }
  }

  lemma CountingEntry(T: Table, t: FiveTuple, size: nat, created: nat, updated: nat, victim: Option<FiveTuple>)
    ensures Counting(T, t, size, created, updated, victim).connections ==
      if t in T.connections then T.connections[t := Counted(T.connections[t], size, true, updated)]
      else Remove(T.connections, victim)[t := Counted(NewConnection(t, created), size, true, updated)]
  {
  }

  /** Under a strictly increasing clock the table is a least-recently-used list:
      what an insertion evicts is the least recently processed tuple and no other. */
  lemma CountingIsLru(max: nat, T: Table, order: seq<FiveTuple>, t: FiveTuple, size: nat, created: nat,
          updated: nat, victim: Option<FiveTuple>)
    requires Recency(T.connections, order) && LegalVictim(T.connections, max, t, victim)
    requires AllBefore(T.connections, created) && created <= updated
    ensures Recency(Counting(T, t, size, created, updated, victim).connections, Lru(max, order, t))
    ensures victim == if t in order || |order| < max || order == [] then None else Some(order[0])
  {
    var conns := T.connections;
    VictimIsFirst(max, conns, order, t, victim);
    CountingEntry(T, t, size, created, updated, victim);
    assert t in conns <==> t in order;
    if t in conns {
      TouchKeepsRecency(conns, order, t, Counted(conns[t], size, true, updated));
    } else {
      InsertIsLru(max, conns, order, t, victim, Counted(NewConnection(t, created), size, true, updated));
    }
  }

  /** Recency depends on nothing but the times. */
  predicate SameTimes(before: map<FiveTuple, Connection>, after: map<FiveTuple, Connection>) {
    before.Keys == after.Keys && forall k :: k in before ==> before[k].lastSeen == after[k].lastSeen
  }

  lemma SameTimesSameRecency(before: map<FiveTuple, Connection>, after: map<FiveTuple, Connection>,
          order: seq<FiveTuple>)
    requires SameTimes(before, after) && Recency(before, order)
    ensures Recency(after, order)
  {
    assert forall k :: k in after <==> k in before;
    assert forall i :: 0 <= i < |order| ==> order[i] in order;
  }

  function Among(order: seq<FiveTuple>, keys: set<FiveTuple>): (r: seq<FiveTuple>)
    ensures forall x :: x in r <==> x in order && x in keys
  {
    if order == [] then []
    else if order[0] in keys then [order[0]] + Among(order[1..], keys)
    else Among(order[1..], keys)
  }

  lemma {:induction false} AmongKeepsOrder(conns: map<FiveTuple, Connection>, order: seq<FiveTuple>,
          keys: set<FiveTuple>)
    requires Ascending(conns, order)
    ensures Ascending(conns, Among(order, keys))
  {
    if order == [] {
    } else {
      var rest := order[1..];
      RestAscends(conns, order);
      AmongKeepsOrder(conns, rest, keys);
      var r := Among(rest, keys);
      forall j | 0 <= j < |r|
        ensures conns[order[0]].lastSeen < conns[r[j]].lastSeen
      {
        assert r[j] in r;
        FirstIsBelow(conns, order, r[j]);
      }
    }
  }

  /** A cleanup takes the stale keys out of the list and leaves the rest in order. */
  lemma CleanupKeepsRecency(T: Table, order: seq<FiveTuple>, timeout: nat, now: nat)
    requires Recency(T.connections, order)
    ensures var after := Apply(T, Cleanup(timeout, now)).connections;
      Recency(after, Among(order, after.Keys))
  {
    var after := Apply(T, Cleanup(timeout, now)).connections;
    var r := Among(order, after.Keys);
    AmongKeepsOrder(T.connections, order, after.Keys);
    assert forall i :: 0 <= i < |r| ==> r[i] in r;
  }

  // ---------------------------------------------------------------- the tracker

  /** `ConnectionTracker`. A method that the source gives a pointer to an entry is
      given the entry's key here. */
  class ConnectionTracker {
    const maxConnections: nat
    var connections: map<FiveTuple, Connection>
    var totalSeen: nat
    var classifiedCount: nat
    var blockedCount: nat

    function View(): Table
      reads this
    {
      Table(connections, totalSeen, classifiedCount, blockedCount)
    }

    constructor (maxConnections: nat)
      ensures View() == EMPTY && this.maxConnections == maxConnections
    {
      this.maxConnections := maxConnections;
      connections, totalSeen, classifiedCount, blockedCount := map[], 0, 0, 0;
    }

    method EvictOldest() returns (ghost victim: Option<FiveTuple>)
      modifies `connections
      ensures old(connections) == map[] ==> victim == None
      ensures old(connections) != map[] ==> victim.Some? && IsOldest(old(connections), victim.value)
      ensures connections == Remove(old(connections), victim)
    {
      if connections == map[] {
        return None;
      }
      assert exists k :: k in connections.Keys;
      var oldest :| oldest in connections.Keys;
      var rest := connections.Keys;
      while rest != {}
        invariant rest <= connections.Keys && oldest in connections
        invariant forall k :: k in connections && k !in rest ==> connections[oldest].lastSeen <= connections[k].lastSeen
        decreases |rest|
      {
        var k :| k in rest;
        if connections[k].lastSeen < connections[oldest].lastSeen {
          oldest := k;
        }
        rest := rest - {k};
      }
      connections := connections - {oldest};
      victim := Some(oldest);
    }

    method GetOrCreateConnection(tuple: FiveTuple, now: nat) returns (c: Connection, ghost victim: Option<FiveTuple>)
      modifies this
      ensures LegalVictim(old(connections), maxConnections, tuple, victim)
      ensures View() == Apply(old(View()), GetOrCreate(tuple, now, victim))
      ensures tuple in connections && c == connections[tuple]
    {
      victim := None;
      if tuple in connections {
        c := connections[tuple];
        return;
      }
      if |connections| >= maxConnections {
        victim := EvictOldest();
      }
      c := NewConnection(tuple, now);
      connections := connections[tuple := c];
      totalSeen := totalSeen + 1;
    }

    /** The entry of a tuple, or else that of the opposite direction. */
    method GetConnection(tuple: FiveTuple) returns (c: Option<Connection>)
      ensures tuple in connections ==> c == Some(connections[tuple])
      ensures tuple !in connections && tuple.Reverse() in connections ==> c == Some(connections[tuple.Reverse()])
      ensures c == None <==> tuple !in connections && tuple.Reverse() !in connections
    {
      if tuple in connections {
        return Some(connections[tuple]);
      }
      if tuple.Reverse() in connections {
        return Some(connections[tuple.Reverse()]);
      }
      return None;
    }

    method UpdateConnection(tuple: FiveTuple, size: nat, outbound: bool, now: nat)
      modifies `connections
      ensures View() == Apply(old(View()), Update(tuple, size, outbound, now))
    {
      if tuple !in connections {
        return;
      }
      var c := connections[tuple].(lastSeen := now);
      if outbound {
        c := c.(packetsOut := c.packetsOut + 1, bytesOut := c.bytesOut + size);
      } else {
        c := c.(packetsIn := c.packetsIn + 1, bytesIn := c.bytesIn + size);
      }
      connections := connections[tuple := c];
    }

    /** `updateTCPState`, which writes the entry from outside the tracker. */
    method UpdateTcpState(tuple: FiveTuple, flags: byte)
      modifies `connections
      ensures View() == Apply(old(View()), Tcp(tuple, flags))
    {
      if tuple !in connections {
        return;
      }
      var f := connections[tuple].flow;
      if HasFlag(flags, SYN) {
        if HasFlag(flags, ACK) {
          f := f.(synAckSeen := true);
        } else {
          f := f.(synSeen := true);
        }
      }
      if f.synSeen && f.synAckSeen && HasFlag(flags, ACK) {
        if f.state == New {
          f := f.(state := Established);
        }
      }
      if HasFlag(flags, FIN) {
        f := f.(finSeen := true);
      }
      if HasFlag(flags, RST) {
        f := f.(state := Closed);
      }
      if f.finSeen && HasFlag(flags, ACK) {
        f := f.(state := Closed);
      }
      connections := connections[tuple := connections[tuple].(flow := f)];
    }

    method ClassifyConnection(tuple: FiveTuple, app: AppType, sni: string)
      modifies `connections, `classifiedCount
      ensures View() == Apply(old(View()), Classify(tuple, app, sni))
    {
      if tuple !in connections {
        return;
      }
      var c := connections[tuple];
      if c.flow.state != Classified {
        connections := connections[tuple := c.(flow := c.flow.(app := app, sni := sni, state := Classified))];
        classifiedCount := classifiedCount + 1;
      }
    }

    method BlockConnection(tuple: FiveTuple)
      modifies `connections, `blockedCount
      ensures View() == Apply(old(View()), Block(tuple))
    {
      if tuple !in connections {
        return;
      }
      var c := connections[tuple];
      connections := connections[tuple := c.(flow := c.flow.(state := Blocked, action := Drop))];
      blockedCount := blockedCount + 1;
    }

    method CloseConnection(tuple: FiveTuple)
      modifies `connections
      ensures View() == Apply(old(View()), Close(tuple))
    {
      if tuple in connections {
        var c := connections[tuple];
        connections := connections[tuple := c.(flow := c.flow.(state := Closed))];
      }
    }

    /** The loop erases stale entries one by one; the result is how many. */
    method CleanupStale(timeout: nat, now: nat) returns (removed: nat)
      modifies `connections
      ensures View() == Apply(old(View()), Cleanup(timeout, now))
      ensures removed == |StaleKeys(old(connections), timeout, now)|
    {
      removed := 0;
      ghost var before := connections;
      var rest := connections.Keys;
      ghost var gone: set<FiveTuple> := {};
      while rest != {}
        invariant rest <= before.Keys && gone !! rest && removed == |gone|
        invariant forall k :: k in gone <==> k in before && k !in rest && Stale(before[k], timeout, now)
        invariant connections == before - gone
        decreases |rest|
      {
        var k :| k in rest;
        if Stale(connections[k], timeout, now) {
          connections := connections - {k};
          gone := gone + {k};
          removed := removed + 1;
        }
        rest := rest - {k};
      }
      assert gone == StaleKeys(before, timeout, now);
    }

    method Clear()
      modifies `connections
      ensures View() == Apply(old(View()), Op.Clear)
    {
      connections := map[];
    }
  }
}
