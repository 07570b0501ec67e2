/** The stages of the engine as their threads run them: a balancer with its counters,
    and the output with its queue, its counters and its file. */
module Stages {
  import opened Types
  import opened QueueMonitor
  import Dispatch
  import Pcap
  import Engine
  import PipelineAccounts

  function Itself(n: nat): nat {
    n
  }

  function Total(counts: seq<nat>): nat {
    PipelineAccounts.Sum(Itself, counts)
  }

  type JobQueue = ThreadSafeQueue<PacketJob>

  /** `LoadBalancer` without its thread: the two halves of its loop. */
  class LoadBalancer {
    const input: JobQueue
    const workers: seq<JobQueue>
    const counts: array<nat>
    var received: nat
    var dispatched: nat

    /** What was dispatched is what was dispatched to some worker. */
    ghost predicate Valid()
      reads this, counts
    {
      && |workers| > 0 && counts.Length == |workers| && input !in workers
      && (forall i, j :: 0 <= i < j < |workers| ==> workers[i] != workers[j])
      && dispatched == Total(counts[..])
    }

    constructor (input: JobQueue, workers: seq<JobQueue>)
      requires |workers| > 0 && input !in workers && forall i, j :: 0 <= i < j < |workers| ==> workers[i] != workers[j]
      ensures Valid() && fresh(counts) && this.input == input && this.workers == workers
      ensures received == 0 && dispatched == 0
    {
      this.input := input;
      this.workers := workers;
      counts := new nat[|workers|](_ => 0);
      received, dispatched := 0, 0;
      new;
      PipelineAccounts.SumZero(Itself, counts[..]);
    }

    /** A wait for the input queue that has come to its end. */
    method Receive() returns (job: Option<PacketJob>)
      requires Valid()
      modifies `received, input`queue
      ensures Valid()
      ensures job == if old(input.queue) == [] then None else Some(old(input.queue)[0])
      ensures input.queue == if old(input.queue) == [] then [] else old(input.queue)[1..]
      ensures received == old(received) + (if job.Some? then 1 else 0)
    {
      job := input.PopAtDeadline();
      if job.Some? {
        received := received + 1;
      }
    }

    /** One try to pass the job on: it goes to the worker its hash names and to no
        other, and is counted unless the worker's queue is full. */
    method Send(job: PacketJob) returns (index: nat, outcome: PushOutcome)
      requires Valid()
      modifies `dispatched, counts, workers
      ensures Valid() && index == Dispatch.WorkerOf(job.tuple, |workers|)
      ensures (workers[index].View(), outcome) == PushCore(workers[index].maxSize, old(workers[index].View()), job)
      ensures forall k :: 0 <= k < |workers| && k != index ==> workers[k].View() == old(workers[k].View())
      ensures dispatched == old(dispatched) + (if outcome == PushWaits then 0 else 1)
      ensures counts[..] == old(counts[..])[index := old(counts[index]) + (if outcome == PushWaits then 0 else 1)]
    {
      index := Dispatch.WorkerOf(job.tuple, |workers|);
      outcome := workers[index].PushOnce(job);
      if outcome != PushWaits {
        PipelineAccounts.SumUpdate(Itself, counts[..], index, counts[index] + 1);
        counts[index] := counts[index] + 1;
        dispatched := dispatched + 1;
      }
      assert counts[..] == old(counts[..])[index := counts[index]];
    }
  }

  // ---------------------------------------------------------------- the output

  /** What is put into the output file, piece by piece. */
  datatype Entry = Header(header: Pcap.GlobalHeader) | Packet(job: PacketJob)

  /** A record of the file: sizes of 2^32 and more would wrap around. */
  function RecordOf(job: PacketJob): seq<byte> {
    var n: uint32 := |job.data| % 0x1_0000_0000;
    Pcap.EncodeHeader(Pcap.PacketHeader(job.tsSec, job.tsUsec, n, n), false) + job.data
  }

  function Rendered(entries: seq<Entry>): seq<byte> {
    if entries == [] then []
    else
      var last := entries[|entries| - 1];
      Rendered(entries[..|entries| - 1]) + (if last.Header? then Pcap.HeaderBytes(last.header) else RecordOf(last.job))
  }

  lemma RenderedOneMore(entries: seq<Entry>, last: Entry)
    ensures Rendered(entries + [last]) ==
      Rendered(entries) + (if last.Header? then Pcap.HeaderBytes(last.header) else RecordOf(last.job))
  {
    assert (entries + [last])[..|entries|] == entries;
  }

  function Packets(jobs: seq<PacketJob>): (entries: seq<Entry>)
    ensures |entries| == |jobs|
    ensures forall k :: 0 <= k < |jobs| ==> entries[k] == Packet(jobs[k])
  {
    seq(|jobs|, k requires 0 <= k < |jobs| => Packet(jobs[k]))
  }

  lemma PacketsOneMore(jobs: seq<PacketJob>, job: PacketJob)
    ensures Packets(jobs + [job]) == Packets(jobs) + [Packet(job)]
  {
  }

  lemma OneMoreRecord(h: Pcap.GlobalHeader, written: seq<PacketJob>, job: PacketJob)
    ensures Pcap.OutputFile(h, Engine.WrittenOf(written + [job])) ==
      Pcap.OutputFile(h, Engine.WrittenOf(written)) + RecordOf(job)
  {
    var ws, w := Engine.WrittenOf(written), Pcap.Written(job.tsSec, job.tsUsec, job.data);
    assert Engine.WrittenOf(written + [job]) == ws + [w];
    Pcap.RecordsAppend(ws, w);
    Pcap.EncodeAppend(Pcap.Records(ws), Pcap.Record(w));
  }

  /** A header and then the packets. */
  function HeaderFirst(h: Pcap.GlobalHeader, jobs: seq<PacketJob>): seq<Entry> {
    if jobs == [] then [Header(h)] else HeaderFirst(h, jobs[..|jobs| - 1]) + [Packet(jobs[|jobs| - 1])]
  }

  lemma {:induction false} HeaderThenPackets(h: Pcap.GlobalHeader, jobs: seq<PacketJob>)
    ensures HeaderFirst(h, jobs) == [Header(h)] + Packets(jobs)
  {
    if jobs == [] {
    } else {
      HeaderThenPackets(h, jobs[..|jobs| - 1]);
      assert Packets(jobs) == Packets(jobs[..|jobs| - 1]) + [Packet(jobs[|jobs| - 1])];
    }
  }

  predicate IsCapture(h: Pcap.GlobalHeader, entries: seq<Entry>, jobs: seq<PacketJob>) {
    Rendered(entries) == Pcap.OutputFile(h, Engine.WrittenOf(jobs))
  }

  lemma HeaderAlone(h: Pcap.GlobalHeader)
    ensures IsCapture(h, [Header(h)], [])
  {
    RenderedOneMore([], Header(h));
    assert [] + [Header(h)] == [Header(h)];
    assert Engine.WrittenOf([]) == [];
  }

  lemma CaptureOneMore(h: Pcap.GlobalHeader, entries: seq<Entry>, jobs: seq<PacketJob>)
    requires jobs != [] && IsCapture(h, entries, jobs[..|jobs| - 1])
    ensures IsCapture(h, entries + [Packet(jobs[|jobs| - 1])], jobs)
  {
    var front, last := jobs[..|jobs| - 1], jobs[|jobs| - 1];
    RenderedOneMore(entries, Packet(last));
    OneMoreRecord(h, front, last);
    assert jobs == front + [last];
  }

  lemma {:induction false} HeaderFirstIsCapture(h: Pcap.GlobalHeader, jobs: seq<PacketJob>)
    ensures IsCapture(h, HeaderFirst(h, jobs), jobs)
    decreases |jobs|
  {
    if jobs == [] {
      HeaderAlone(h);
    } else {
      HeaderFirstIsCapture(h, jobs[..|jobs| - 1]);
      CaptureOneMore(h, HeaderFirst(h, jobs[..|jobs| - 1]), jobs);
    }
  }

  /** If the header is put in first and only once, the file is the capture of the packets. */
  lemma FileIsCapture(h: Pcap.GlobalHeader, jobs: seq<PacketJob>)
    ensures Rendered([Header(h)] + Packets(jobs)) == Pcap.OutputFile(h, Engine.WrittenOf(jobs))
  {
    HeaderFirstIsCapture(h, jobs);
    HeaderThenPackets(h, jobs);
  }

  /** What is in the file after more packets, if it is open. */
  function Appended(entries: seq<Entry>, isOpen: bool, jobs: seq<PacketJob>): seq<Entry> {
    if isOpen then entries + Packets(jobs) else entries
  }

  lemma AppendedOneMore(entries: seq<Entry>, isOpen: bool, jobs: seq<PacketJob>, job: PacketJob)
    ensures Appended(entries, isOpen, jobs + [job]) ==
      if isOpen then Appended(entries, isOpen, jobs) + [Packet(job)] else Appended(entries, isOpen, jobs)
  {
    PacketsOneMore(jobs, job);
  }

  /** One lap of the writer: the flag as its test reads it, and what others push before
      that test and between it and the end of the wait. */
  datatype Lap = Lap(running: bool, before: seq<PacketJob>, during: seq<PacketJob>)

  function Arrivals(laps: seq<Lap>): seq<PacketJob> {
    if laps == [] then [] else Arrivals(laps[..|laps| - 1]) + laps[|laps| - 1].before + laps[|laps| - 1].during
  }

  lemma ArrivalsNext(laps: seq<Lap>, n: nat)
    requires n < |laps|
    ensures Arrivals(laps[..n + 1]) == Arrivals(laps[..n]) + laps[n].before + laps[n].during
  {
    assert laps[..n + 1][..n] == laps[..n];
  }

  /** The oldest job is taken, if there is one. */
  predicate TakesOne(all: seq<PacketJob>, job: Option<PacketJob>, rest: seq<PacketJob>) {
    if all == [] then job == None && rest == [] else job == Some(all[0]) && rest == all[1..]
  }

  lemma TakesFirst(done: seq<PacketJob>, all: seq<PacketJob>)
    requires all != []
    ensures done + all == done + [all[0]] + all[1..]
  {
  }

  /** What was taken and what is queued is all that came. */
  predicate Accounted(first: seq<PacketJob>, laps: seq<Lap>, k: nat, done: seq<PacketJob>, queued: seq<PacketJob>) {
    k <= |laps| && done + queued == first + Arrivals(laps[..k])
  }

  lemma LapAccounts(first: seq<PacketJob>, laps: seq<Lap>, k: nat, done: seq<PacketJob>, queued: seq<PacketJob>,
          job: Option<PacketJob>, rest: seq<PacketJob>)
    requires k < |laps| && Accounted(first, laps, k, done, queued)
    requires TakesOne(queued + laps[k].before + laps[k].during, job, rest)
    ensures Accounted(first, laps, k + 1, if job.Some? then done + [job.value] else done, rest)
  {
    ArrivalsNext(laps, k);
    MoreArrive(done, queued, first, Arrivals(laps[..k]), laps[k].before, laps[k].during);
    OneIsTaken(done, queued + laps[k].before + laps[k].during, job, rest);
  }

  lemma MoreArrive(done: seq<PacketJob>, queued: seq<PacketJob>, first: seq<PacketJob>, came: seq<PacketJob>,
          before: seq<PacketJob>, during: seq<PacketJob>)
    requires done + queued == first + came
    ensures done + (queued + before + during) == first + (came + before + during)
  {
    assert done + (queued + before + during) == (done + queued) + before + during;
    assert first + (came + before + during) == (first + came) + before + during;
  }

  lemma OneIsTaken(done: seq<PacketJob>, all: seq<PacketJob>, job: Option<PacketJob>, rest: seq<PacketJob>)
    requires TakesOne(all, job, rest)
    ensures (if job.Some? then done + [job.value] else done) + rest == done + all
  {
    if all != [] {
      TakesFirst(done, all);
    }
  }

  /** The output side of `DPIEngine`. */
  class Output {
    const queue: JobQueue
    var isOpen: bool
    var file: seq<byte>
    var forwarded: nat
    var dropped: nat
    ghost var entries: seq<Entry>

    /** The file is what was put into it. */
    ghost predicate Valid()
      reads this
    {
      file == Rendered(entries)
    }

    constructor (queue: JobQueue, isOpen: bool)
      ensures Valid() && this.queue == queue && this.isOpen == isOpen && entries == []
      ensures forwarded == 0 && dropped == 0
    {
      this.queue, this.isOpen, file := queue, isOpen, [];
      forwarded, dropped := 0, 0;
      entries := [];
    }

    method WriteOutputHeader(h: Pcap.GlobalHeader) returns (ok: bool)
      requires Valid()
      modifies `file, `entries
      ensures Valid() && ok == isOpen
      ensures entries == if isOpen then old(entries) + [Header(h)] else old(entries)
    {
      if !isOpen {
        return false;
      }
      file := file + Pcap.HeaderBytes(h);
      RenderedOneMore(entries, Header(h));
      entries := entries + [Header(h)];
      return true;
    }

    method WriteOutputPacket(job: PacketJob)
      requires Valid()
      modifies `file, `entries
      ensures Valid()
      ensures entries == if isOpen then old(entries) + [Packet(job)] else old(entries)
    {
      if !isOpen {
        return;
      }
      var n: uint32 := |job.data| % 0x1_0000_0000;
      ghost var before := file;
      file := file + Pcap.EncodeHeader(Pcap.PacketHeader(job.tsSec, job.tsUsec, n, n), false);
      file := file + job.data;
      assert file == before + RecordOf(job);
      RenderedOneMore(entries, Packet(job));
      entries := entries + [Packet(job)];
    }

    /** `handleOutput`, in the worker's thread: the packet is counted, and a packet that is
        let through has its first try at the queue. */
    method HandleOutput(job: PacketJob, action: PacketAction) returns (outcome: PushOutcome)
      modifies `forwarded, `dropped, queue`queue
      ensures action == Drop ==> dropped == old(dropped) + 1 && forwarded == old(forwarded)
      ensures action == Drop ==> queue.View() == old(queue.View())
      ensures action == Forward ==> forwarded == old(forwarded) + 1 && dropped == old(dropped)
      ensures action == Forward ==> (queue.View(), outcome) == PushCore(queue.maxSize, old(queue.View()), job)
    {
      outcome := Ignored;
      if action == Drop {
        dropped := dropped + 1;
        return;
      }
      forwarded := forwarded + 1;
      outcome := RetryOutput(job);
    }

    /** A further try, after one that had to wait: it counts nothing. */
    method RetryOutput(job: PacketJob) returns (outcome: PushOutcome)
      modifies queue`queue
      ensures (queue.View(), outcome) == PushCore(queue.maxSize, old(queue.View()), job)
    {
      outcome := queue.PushOnce(job);
    }

    /** The end of the writer's wait: the oldest job queued by then, if any, is written. */
    method WriteNext() returns (job: Option<PacketJob>)
      requires Valid()
      modifies `file, `entries, queue`queue
      ensures Valid()
      ensures job == if old(queue.queue) == [] then None else Some(old(queue.queue)[0])
      ensures queue.queue == if job.Some? then old(queue.queue)[1..] else []
      ensures entries == if isOpen && job.Some? then old(entries) + [Packet(job.value)] else old(entries)
    {
      job := queue.PopAtDeadline();
      if job.Some? {
        WriteOutputPacket(job.value);
      }
    }

    /** One lap of the writer's loop: the test, and if it goes on, a wait. */
    method OneLap(lap: Lap) returns (left: bool, job: Option<PacketJob>)
      requires Valid()
      modifies `file, `entries, queue`queue
      ensures Valid() && (left <==> !lap.running && old(queue.queue) + lap.before == [])
      ensures left ==> job == None && queue.queue == []
      ensures !left ==> TakesOne(old(queue.queue) + lap.before + lap.during, job, queue.queue)
      ensures entries == if isOpen && job.Some? then old(entries) + [Packet(job.value)] else old(entries)
    {
      queue.queue := queue.queue + lap.before;
      if !lap.running && queue.queue == [] {
        return true, None;
      }
      queue.queue := queue.queue + lap.during;
      job := WriteNext();
      left := false;
    }

    /** The same, with its accounts. */
    method AccountedLap(laps: seq<Lap>, k: nat, ghost first: seq<PacketJob>, ghost base: seq<Entry>,
            ghost done: seq<PacketJob>)
      returns (left: bool, ghost done1: seq<PacketJob>)
      requires Valid() && k < |laps|
      requires Accounted(first, laps, k, done, queue.queue) && entries == Appended(base, isOpen, done)
      modifies `file, `entries, queue`queue
      ensures Valid() && entries == Appended(base, isOpen, done1)
      ensures left ==> !laps[k].running && laps[k].before == [] && queue.queue == []
      ensures Accounted(first, laps, if left then k else k + 1, done1, queue.queue)
    {
      ghost var queued := queue.queue;
      var job: Option<PacketJob>;
      left, job := OneLap(laps[k]);
      done1 := done;
      if !left {
        LapAccounts(first, laps, k, done, queued, job, queue.queue);
        if job.Some? {
          AppendedOneMore(base, isOpen, done, job.value);
          done1 := done + [job.value];
        }
      }
    }

    /** The writer's loop, whatever others push meanwhile and whenever the flag is cleared.
        What it takes and what is left over is all that came, in order; it leaves only at a
        test that finds the flag cleared and the queue empty. */
    method OutputThread(laps: seq<Lap>) returns (left: bool, ghost n: nat, ghost done: seq<PacketJob>)
      requires Valid()
      modifies `file, `entries, queue`queue
      ensures Valid() && entries == Appended(old(entries), isOpen, done)
      ensures Accounted(old(queue.queue), laps, n, done, queue.queue) && (left <==> n < |laps|)
      ensures left ==> !laps[n].running && laps[n].before == [] && queue.queue == []
    {
      left, n, done := false, 0, [];
      var k := 0;
      while k < |laps|
        invariant 0 <= k <= |laps| && n == k && !left && Valid()
        invariant entries == Appended(old(entries), isOpen, done)
        invariant Accounted(old(queue.queue), laps, k, done, queue.queue)
      {
        left, done := AccountedLap(laps, k, old(queue.queue), old(entries), done);
        if left {
          return;
        }
        k, n := k + 1, n + 1;
      }
    }

    /** When the engine no longer runs and nobody pushes any more, what is queued is
        written, in order, and then the loop ends. */
    method DrainOutput()
      requires Valid()
      modifies `file, `entries, queue`queue
      ensures Valid() && queue.queue == []
      ensures entries == Appended(old(entries), isOpen, old(queue.queue))
    {
      ghost var done: seq<PacketJob> := [];
      while queue.queue != []
        invariant Valid() && done + queue.queue == old(queue.queue)
        invariant entries == Appended(old(entries), isOpen, done)
        decreases |queue.queue|
      {
        TakesFirst(done, queue.queue);
        var job := WriteNext();
        AppendedOneMore(old(entries), isOpen, done, job.value);
        done := done + [job.value];
      }
      assert done == done + queue.queue;
    }
  }
}
