/** The verdict on a packet as a step of its flow's state, and what follows for
    whole flows: when blocking lasts and when it ends. */
module FlowVerdict {
  import opened Types
  import Rules
  import TlsClientHello
  import HttpHost
  import DnsQuery
  import AppSignatures

  /** The part of a connection record that verdicts depend on. */
  datatype Flow = Flow(
    state: ConnectionState, app: AppType, sni: string, action: PacketAction,
    synSeen: bool, synAckSeen: bool, finSeen: bool)

  const FRESH := Flow(New, Unknown, "", Forward, false, false, false)

  /** `updateTCPState`. */
  function TcpStep(f: Flow, flags: byte): Flow {
    var f1 := if HasFlag(flags, SYN)
        then (if HasFlag(flags, ACK) then f.(synAckSeen := true) else f.(synSeen := true)) else f;
    var f2 := if f1.synSeen && f1.synAckSeen && HasFlag(flags, ACK) && f1.state == New then f1.(state := Established)
        else f1;
    var f3 := if HasFlag(flags, FIN) then f2.(finSeen := true) else f2;
    var f4 := if HasFlag(flags, RST) then f3.(state := Closed) else f3;
    if f4.finSeen && HasFlag(flags, ACK) then f4.(state := Closed) else f4
  }

  /** `tryExtractSNI`. */
  function SniOf(job: PacketJob): Option<string> {
    if job.tuple.dstPort != 443 && job.payloadLength < 50 then None
    else match TlsClientHello.ServerName(job.Payload())
      case Some(name) => Some(Text(name))
      case None => None
  }

  /** `tryExtractHTTPHost`. */
  function HostOf(job: PacketJob): Option<string> {
    if job.tuple.dstPort != 80 then None
    else match HttpHost.Host(job.Payload())
      case Some(host) => Some(Text(host))
      case None => None
  }

  function DomainOf(job: PacketJob): Option<string> {
    if job.tuple.dstPort != 53 && job.tuple.srcPort != 53 then None
    else match DnsQuery.QueryName(job.Payload())
      case Some(name) => Some(Text(name))
      case None => None
  }

  /** What `inspectPayload` makes of a payload: TLS, HTTP, DNS, then the port. */
  function Classification(job: PacketJob): Option<(AppType, string)> {
    if job.payloadLength == 0 || job.payloadOffset >= |job.data| then None
    else
      var sni, host, domain := SniOf(job), HostOf(job), DomainOf(job);
      if sni.Some? then Some((AppSignatures.AppOf(sni.value), sni.value))
      else if host.Some? then Some((AppSignatures.AppOf(host.value), host.value))
      else if domain.Some? then Some((Dns, domain.value))
      else if job.tuple.dstPort == 80 then Some((Http, ""))
      else if job.tuple.dstPort == 443 then Some((Https, ""))
      else None
  }

  function Classify(f: Flow, app: AppType, sni: string): Flow {
    if f.state == Classified then f else f.(app := app, sni := sni, state := Classified)
  }

  predicate Blocks(rules: Rules.RuleSet, t: FiveTuple, app: AppType, sni: string) {
    Rules.ShouldBlock(rules, t.srcIp, t.dstPort, app, sni).Some?
  }

  /** Which findings the rules block for one flow. */
  type Policy = (AppType, string) -> bool

  function PolicyOf(rules: Rules.RuleSet, t: FiveTuple): Policy {
    (app, sni) => Blocks(rules, t, app, sni)
  }

  /** All that a verdict takes from a packet. */
  datatype Seen = Seen(isTcp: bool, flags: byte, finding: Option<(AppType, string)>)

  function See(job: PacketJob): Seen {
    Seen(job.tuple.protocol == TCP, job.tcpFlags, if job.payloadLength > 0 then Classification(job) else None)
  }

  function AfterTcp(f: Flow, p: Seen): Flow {
    if p.isTcp then TcpStep(f, p.flags) else f
  }

  function AfterInspection(f: Flow, p: Seen): Flow {
    match p.finding
    case Some((app, sni)) => Classify(f, app, sni)
    case None => f
  }

  function Step(policy: Policy, f: Flow, p: Seen): (Flow, PacketAction) {
    var f1 := AfterTcp(f, p);
    if f1.state == Blocked then (f1, Drop)
    else
      var f2 := AfterInspection(f1, p);
      if policy(f2.app, f2.sni) then (f2.(state := Blocked, action := Drop), Drop)
      else (f2, Forward)
  }

  /** `processPacket` as far as one flow is concerned. */
  function StepFlow(rules: Rules.RuleSet, f: Flow, job: PacketJob): (Flow, PacketAction) {
    Step(PolicyOf(rules, job.tuple), f, See(job))
  }

  // ---------------------------------------------------------------- the rules

  /** One of the rules names the flow's source address, its destination port, or what it holds. */
  ghost predicate Named(rules: seq<Rules.Rule>, t: FiveTuple, app: AppType, sni: string) {
    exists k :: 0 <= k < |rules| && Rules.Names(rules[k], t.srcIp, t.dstPort, app, sni)
  }

  /** Whatever rules were given, in whatever order: they block a flow exactly when one of them names
      it. Without rules nothing is blocked. */
  lemma BlocksIffNamed(rules: seq<Rules.Rule>, t: FiveTuple, app: AppType, sni: string)
    ensures Blocks(Rules.Given(rules), t, app, sni) <==> Named(rules, t, app, sni)
  {
    Rules.BlockedIffNamed(rules, t.srcIp, t.dstPort, app, sni);
  }

  /** One more rule blocks just what it names on top of what was blocked. */
  lemma NewRuleBlocks(r: Rules.RuleSet, rule: Rules.Rule, t: FiveTuple, app: AppType, sni: string)
    requires Rules.Sorted(r)
    ensures Blocks(Rules.With(r, rule), t, app, sni) <==>
      Blocks(r, t, app, sni) || Rules.Names(rule, t.srcIp, t.dstPort, app, sni)
  {
    Rules.NewRuleIff(r, rule, t.srcIp, t.dstPort, app, sni);
  }

  // ---------------------------------------------------------------- one step

  /** `updateTCPState` by the bits of the flags byte: FIN is 1, SYN 2, RST 4 and ACK 16. */
  lemma TcpStepIs(f: Flow, flags: byte)
    ensures var fin, syn, rst, ack := flags % 2 == 1, flags / 2 % 2 == 1, flags / 4 % 2 == 1, flags / 16 % 2 == 1;
      var g := TcpStep(f, flags);
      && g == f.(state := g.state, synSeen := g.synSeen, synAckSeen := g.synAckSeen, finSeen := g.finSeen)
      && (g.finSeen <==> f.finSeen || fin)
      && (g.synSeen <==> f.synSeen || (syn && !ack))
      && (g.synAckSeen <==> f.synAckSeen || (syn && ack))
      && g.state == if rst || (ack && (f.finSeen || fin)) then Closed
                    else if f.state == New && ack && g.synSeen && g.synAckSeen then Established
                    else f.state
  {
    assert flags / 1 == flags;
  }

  /** A blocked source address or destination port drops the packet whatever the
      flow has been through, so no eviction or cleanup can let it pass. */
  lemma BlockedAddressAlwaysDrops(rules: Rules.RuleSet, f: Flow, job: PacketJob)
    requires job.tuple.srcIp in rules.ips || job.tuple.dstPort in rules.ports
    ensures StepFlow(rules, f, job).1 == Drop
  {
  }

  /** No flow becomes NEW again, and ESTABLISHED is entered from NEW only. */
  lemma StateOrder(policy: Policy, f: Flow, p: Seen)
    ensures var g := Step(policy, f, p).0;
      && (g.state == New ==> f.state == New)
      && (g.state == Established ==> f.state == New || f.state == Established)
  {
  }

  /** A blocked flow is one its policy still blocks. */
  predicate BlockedForCause(policy: Policy, f: Flow) {
    f.state == Blocked ==> policy(f.app, f.sni)
  }

  lemma BlockedForCauseKept(policy: Policy, f: Flow, p: Seen)
    requires BlockedForCause(policy, f)
    ensures BlockedForCause(policy, Step(policy, f, p).0)
    ensures Step(policy, f, p).1 == Drop <==> Step(policy, f, p).0.state == Blocked
  {
  }

  /** The packet closes the flow. */
  predicate Closes(finSeen: bool, flags: byte) {
    HasFlag(flags, RST) || (HasFlag(flags, ACK) && (finSeen || HasFlag(flags, FIN)))
  }

  /** The payload is classified as something that is let through. */
  predicate FoundHarmless(policy: Policy, p: Seen) {
    match p.finding
    case Some((app, sni)) => !policy(app, sni)
    case None => false
  }

  /** After a drop, the next packet is forwarded exactly when it is a TCP packet
      that closes the flow and whose payload is classified anew as something
      harmless. */
  lemma ForwardAfterDropIff(policy: Policy, f: Flow, p: Seen)
    requires f.state == Blocked && BlockedForCause(policy, f)
    ensures Step(policy, f, p).1 == Forward <==> p.isTcp && Closes(f.finSeen, p.flags) && FoundHarmless(policy, p)
  {
    var f1 := AfterTcp(f, p);
    assert f1.app == f.app && f1.sni == f.sni;
    assert f1.state == Blocked || f1.state == Closed;
  }

  // ---------------------------------------------------------------- whole flows

  /** The state after a sequence of packets. */
  function After(policy: Policy, f: Flow, ps: seq<Seen>): Flow {
    if ps == [] then f
    else Step(policy, After(policy, f, ps[..|ps| - 1]), ps[|ps| - 1]).0
  }

  /** The verdict on the packet at an index of a flow that starts fresh. */
  function VerdictAt(policy: Policy, ps: seq<Seen>, i: nat): PacketAction
    requires i < |ps|
  {
    Step(policy, After(policy, FRESH, ps[..i]), ps[i]).1
  }

  lemma AfterNext(policy: Policy, f: Flow, ps: seq<Seen>, i: nat)
    requires i < |ps|
    ensures After(policy, f, ps[..i + 1]) == Step(policy, After(policy, f, ps[..i]), ps[i]).0
  {
    assert ps[..i + 1][..i] == ps[..i] && ps[..i + 1][i] == ps[i];
  }

  lemma {:induction false} AfterIsForCause(policy: Policy, ps: seq<Seen>)
    ensures BlockedForCause(policy, After(policy, FRESH, ps))
  {
    if ps == [] {
    } else {
      AfterIsForCause(policy, ps[..|ps| - 1]);
      BlockedForCauseKept(policy, After(policy, FRESH, ps[..|ps| - 1]), ps[|ps| - 1]);
    }
  }

  ghost predicate DropAmong(policy: Policy, ps: seq<Seen>) {
    exists k :: 0 <= k < |ps| && VerdictAt(policy, ps, k) == Drop
  }

  lemma DropAmongNext(policy: Policy, ps: seq<Seen>)
    requires ps != []
    ensures var n := |ps| - 1; DropAmong(policy, ps) <==> DropAmong(policy, ps[..n]) || VerdictAt(policy, ps, n) == Drop
  {
    var front := ps[..|ps| - 1];
    forall k | 0 <= k < |front|
      ensures VerdictAt(policy, front, k) == VerdictAt(policy, ps, k)
    {
      assert front[..k] == ps[..k];
    }
  }

  lemma ActionStep(policy: Policy, f: Flow, p: Seen)
    requires f.state == Blocked ==> f.action == Drop
    ensures var (g, action) := Step(policy, f, p);
      && (g.action == Drop <==> f.action == Drop || action == Drop) && (g.state == Blocked ==> g.action == Drop)
  {
    TcpStepIs(f, p.flags);
  }

  /** The action noted in a flow is DROP exactly when one of its packets was dropped; it is never
      taken back. */
  lemma {:induction false} ActionIff(policy: Policy, ps: seq<Seen>)
    ensures After(policy, FRESH, ps).action == Drop <==> DropAmong(policy, ps)
    ensures After(policy, FRESH, ps).state == Blocked ==> After(policy, FRESH, ps).action == Drop
  {
    if ps == [] {
    } else {
      var n := |ps| - 1;
      ActionIff(policy, ps[..n]);
      ActionStep(policy, After(policy, FRESH, ps[..n]), ps[n]);
      DropAmongNext(policy, ps);
    }
  }

  predicate FinAmong(ps: seq<Seen>) {
    exists k :: 0 <= k < |ps| && ps[k].isTcp && HasFlag(ps[k].flags, FIN)
  }

  lemma FinSeenStep(policy: Policy, f: Flow, p: Seen)
    ensures Step(policy, f, p).0.finSeen <==> f.finSeen || (p.isTcp && HasFlag(p.flags, FIN))
  {
  }

  /** The FIN mark of a flow is set exactly when some packet carried a FIN. */
  lemma {:induction false} FinSeenIff(policy: Policy, ps: seq<Seen>)
    ensures After(policy, FRESH, ps).finSeen <==> FinAmong(ps)
  {
    if ps == [] {
    } else {
      var front, last := ps[..|ps| - 1], ps[|ps| - 1];
      FinSeenIff(policy, front);
      FinSeenStep(policy, After(policy, FRESH, front), last);
      assert ps == front + [last];
    }
  }

  /** Some packet opened a connection: a SYN without ACK. */
  predicate SynAmong(ps: seq<Seen>) {
    exists k :: 0 <= k < |ps| && ps[k].isTcp && HasFlag(ps[k].flags, SYN) && !HasFlag(ps[k].flags, ACK)
  }

  /** Some packet answered one: a SYN with ACK. */
  predicate SynAckAmong(ps: seq<Seen>) {
    exists k :: 0 <= k < |ps| && ps[k].isTcp && HasFlag(ps[k].flags, SYN) && HasFlag(ps[k].flags, ACK)
  }

  lemma MarksStep(policy: Policy, f: Flow, p: Seen)
    ensures var g := Step(policy, f, p).0;
      && (g.synSeen <==> f.synSeen || (p.isTcp && HasFlag(p.flags, SYN) && !HasFlag(p.flags, ACK)))
      && (g.synAckSeen <==> f.synAckSeen || (p.isTcp && HasFlag(p.flags, SYN) && HasFlag(p.flags, ACK)))
  {
  }

  /** The handshake marks say exactly which of the two packets the flow has carried. */
  lemma {:induction false} MarksIff(policy: Policy, ps: seq<Seen>)
    ensures After(policy, FRESH, ps).synSeen <==> SynAmong(ps)
    ensures After(policy, FRESH, ps).synAckSeen <==> SynAckAmong(ps)
  {
    if ps == [] {
    } else {
      var front, last := ps[..|ps| - 1], ps[|ps| - 1];
      MarksIff(policy, front);
      MarksStep(policy, After(policy, FRESH, front), last);
      assert ps == front + [last];
    }
  }

  /** When a NEW flow becomes ESTABLISHED. */
  lemma EstablishedStepIff(policy: Policy, f: Flow, p: Seen)
    requires f.state == New
    ensures Step(policy, f, p).0.state == Established <==>
      && p.isTcp && HasFlag(p.flags, ACK) && f.synSeen && (f.synAckSeen || HasFlag(p.flags, SYN))
      && !Closes(f.finSeen, p.flags) && p.finding == None && !policy(f.app, f.sni)
  {
  }

  /** A flow is one direction of a connection. It is ESTABLISHED only if that direction
      has carried both packets that open a handshake, which the two sides of an
      ordinary one never do. */
  lemma {:induction false} EstablishedNeedsBoth(policy: Policy, ps: seq<Seen>)
    ensures After(policy, FRESH, ps).state == Established ==> SynAmong(ps) && SynAckAmong(ps)
  {
    if ps == [] {
    } else {
      var front, last := ps[..|ps| - 1], ps[|ps| - 1];
      var f := After(policy, FRESH, front);
      EstablishedNeedsBoth(policy, front);
      StateOrder(policy, f, last);
      MarksIff(policy, ps);
      MarksIff(policy, front);
      MarksStep(policy, f, last);
      if f.state == New {
        EstablishedStepIff(policy, f, last);
      }
    }
  }

  /** Seen from the packets alone: this one closes the connection and carries a
      payload that is classified as something harmless. */
  predicate Reopens(policy: Policy, ps: seq<Seen>, j: nat)
    requires j < |ps|
  {
    ps[j].isTcp && Closes(FinAmong(ps[..j]), ps[j].flags) && FoundHarmless(policy, ps[j])
  }

  lemma NextVerdict(policy: Policy, ps: seq<Seen>, i: nat, j: nat)
    requires j == i + 1 < |ps| && VerdictAt(policy, ps, i) == Drop
    ensures VerdictAt(policy, ps, j) == Forward <==> Reopens(policy, ps, j)
  {
    AfterIsForCause(policy, ps[..i]);
    BlockedForCauseKept(policy, After(policy, FRESH, ps[..i]), ps[i]);
    AfterNext(policy, FRESH, ps, i);
    FinSeenIff(policy, ps[..j]);
    ForwardAfterDropIff(policy, After(policy, FRESH, ps[..j]), ps[j]);
  }

  lemma {:induction false} DropsUntilReopened(policy: Policy, ps: seq<Seen>, i: nat, j: nat)
    requires i <= j < |ps| && VerdictAt(policy, ps, i) == Drop
    requires forall k :: i < k <= j ==> !Reopens(policy, ps, k)
    ensures VerdictAt(policy, ps, j) == Drop
    decreases j
  {
    if i == j {
    } else {
      var previous := j - 1;
      DropsUntilReopened(policy, ps, i, previous);
      NextVerdict(policy, ps, previous, j);
      assert !Reopens(policy, ps, j);
    }
  }

  ghost predicate AllDroppedAfter(policy: Policy, ps: seq<Seen>, i: nat) {
    forall j :: i < j < |ps| ==> VerdictAt(policy, ps, j) == Drop
  }

  ghost predicate NeverReopened(policy: Policy, ps: seq<Seen>, i: nat) {
    forall j :: i < j < |ps| ==> !Reopens(policy, ps, j)
  }

  lemma DroppedMeansNotReopened(policy: Policy, ps: seq<Seen>, i: nat, j: nat)
    requires i < j < |ps| && VerdictAt(policy, ps, i) == Drop && AllDroppedAfter(policy, ps, i)
    ensures !Reopens(policy, ps, j)
  {
    var previous := j - 1;
    assert VerdictAt(policy, ps, previous) == Drop;
    NextVerdict(policy, ps, previous, j);
  }

  /** Blocking persists for the rest of a flow exactly when no later packet reopens
      it: no later packet is forwarded if and only if none of them closes the
      connection with a payload classified as harmless. */
  lemma BlockingPersistsIff(policy: Policy, ps: seq<Seen>, i: nat)
    requires i < |ps| && VerdictAt(policy, ps, i) == Drop
    ensures AllDroppedAfter(policy, ps, i) <==> NeverReopened(policy, ps, i)
  {
    forall j | i < j < |ps| && AllDroppedAfter(policy, ps, i)
      ensures !Reopens(policy, ps, j)
    {
      DroppedMeansNotReopened(policy, ps, i, j);
    }
    forall j | i < j < |ps| && NeverReopened(policy, ps, i)
      ensures VerdictAt(policy, ps, j) == Drop
    {
      DropsUntilReopened(policy, ps, i, j);
    }
  }

  /** A flow that is not TCP stays blocked for good after one drop. */
  lemma UdpBlockingIsFinal(policy: Policy, ps: seq<Seen>, i: nat, j: nat)
    requires i <= j < |ps| && (forall k :: 0 <= k < |ps| ==> !ps[k].isTcp)
    requires VerdictAt(policy, ps, i) == Drop
    ensures VerdictAt(policy, ps, j) == Drop
  {
    DropsUntilReopened(policy, ps, i, j);
  }

  // ---------------------------------------------------------------- what a flow holds

  /** The packet closes the connection, by itself or with a FIN before it. */
  predicate ClosesAt(ps: seq<Seen>, k: nat)
    requires k < |ps|
  {
    ps[k].isTcp && Closes(FinAmong(ps[..k]), ps[k].flags)
  }

  predicate ClosedBetween(ps: seq<Seen>, j: int, k: nat) {
    exists c: nat :: j < c <= k && c < |ps| && ClosesAt(ps, c)
  }

  /** What a flow holds that took its last finding there, if anywhere. */
  function HeldFrom(ps: seq<Seen>, last: Option<nat>): (AppType, string) {
    match last
    case Some(j) => if j < |ps| && ps[j].finding.Some? then ps[j].finding.value else (Unknown, "")
    case None => (Unknown, "")
  }

  /** Seen from the packets alone: the flow takes what is found in this packet. The first
      packet's finding it takes; a later one only if this packet closes the connection, if
      what is held is blocked, and only after a packet that closes it, if what is held was
      found and is not. */
  predicate Takes(policy: Policy, ps: seq<Seen>, last: Option<nat>, k: nat)
    requires k < |ps|
  {
    var held := HeldFrom(ps, last);
    && ps[k].finding.Some?
    && (k == 0 || (if policy(held.0, held.1) then ClosesAt(ps, k) else last.Some? ==> ClosedBetween(ps, last.value, k)))
  }

  /** The packet whose finding the flow holds. */
  function LastTaken(policy: Policy, ps: seq<Seen>): (last: Option<nat>)
    ensures last.Some? ==> last.value < |ps|
  {
    if ps == [] then None
    else
      var k := |ps| - 1;
      var last := LastTaken(policy, ps[..k]);
      if Takes(policy, ps, last, k) then Some(k) else last
  }

  /** The application and the name that the flow holds after these packets. */
  function Held(policy: Policy, ps: seq<Seen>): (AppType, string) {
    HeldFrom(ps, LastTaken(policy, ps))
  }

  /** The flow holds just that, is BLOCKED if that is blocked, and else CLASSIFIED if it was
      found and nothing has closed the connection since. */
  ghost predicate HoldsJustThat(policy: Policy, f: Flow, ps: seq<Seen>, last: Option<nat>) {
    var held := HeldFrom(ps, last);
    && (f.app, f.sni) == held && (f.state == Blocked <==> ps != [] && policy(held.0, held.1))
    && (f.state == Classified <==>
          last.Some? && !policy(held.0, held.1) && !ClosedBetween(ps, last.value, |ps|))
  }

  lemma TcpKeepsNames(f: Flow, flags: byte)
    ensures TcpStep(f, flags).app == f.app && TcpStep(f, flags).sni == f.sni
  {
  }

  lemma TcpCloses(f: Flow, flags: byte)
    requires Closes(f.finSeen, flags)
    ensures TcpStep(f, flags).state == Closed
  {
  }

  lemma TcpLeavesOpen(f: Flow, flags: byte)
    requires !Closes(f.finSeen, flags)
    ensures TcpStep(f, flags).state == f.state || (f.state == New && TcpStep(f, flags).state == Established)
  {
  }

  lemma TcpStates(f: Flow, p: Seen)
    ensures var f1 := AfterTcp(f, p);
      && f1.app == f.app && f1.sni == f.sni
      && (if p.isTcp && Closes(f.finSeen, p.flags) then f1.state == Closed
          else (f1.state == Blocked <==> f.state == Blocked) && (f1.state == Classified <==> f.state == Classified))
  {
    TcpKeepsNames(f, p.flags);
    if Closes(f.finSeen, p.flags) {
      TcpCloses(f, p.flags);
    } else {
      TcpLeavesOpen(f, p.flags);
    }
  }

  lemma ClosedBetweenOneMore(ps: seq<Seen>, p: Seen, j: nat)
    requires j < |ps|
    ensures ClosedBetween(ps + [p], j, |ps|) <==> ClosedBetween(ps, j, |ps|) || ClosesAt(ps + [p], |ps|)
    ensures ClosedBetween(ps + [p], j, |ps| + 1) <==> ClosedBetween(ps + [p], j, |ps|)
  {
    var all := ps + [p];
    forall c: nat | c < |ps|
      ensures ClosesAt(all, c) <==> ClosesAt(ps, c)
    {
      assert all[..c] == ps[..c];
    }
  }

  lemma HeldFromMore(ps: seq<Seen>, p: Seen, last: Option<nat>)
    requires last.Some? ==> last.value < |ps|
    ensures HeldFrom(ps + [p], last) == HeldFrom(ps, last)
  {
  }

  lemma HoldsOneMore(policy: Policy, f: Flow, ps: seq<Seen>, p: Seen, last: Option<nat>)
    requires HoldsJustThat(policy, f, ps, last) && (last.Some? ==> last.value < |ps| && ps[last.value].finding.Some?)
    requires f.finSeen <==> FinAmong(ps)
    requires ps == [] ==> last == None
    ensures var all := ps + [p];
      HoldsJustThat(policy, Step(policy, f, p).0, all, if Takes(policy, all, last, |ps|) then Some(|ps|) else last)
  {
    var all := ps + [p];
    assert all[..|ps|] == ps;
    TcpStates(f, p);
    HeldFromMore(ps, p, last);
    if last.Some? {
      ClosedBetweenOneMore(ps, p, last.value);
    }
  }

  lemma {:induction false} LastTakenFound(policy: Policy, ps: seq<Seen>)
    ensures LastTaken(policy, ps).Some? ==> ps[LastTaken(policy, ps).value].finding.Some?
  {
    if ps == [] {
    } else {
      LastTakenFound(policy, ps[..|ps| - 1]);
    }
  }

  /** What a flow holds, and whether it is BLOCKED or CLASSIFIED, exactly, by its packets. */
  lemma {:induction false} AfterHolds(policy: Policy, ps: seq<Seen>)
    ensures HoldsJustThat(policy, After(policy, FRESH, ps), ps, LastTaken(policy, ps))
  {
    if ps == [] {
    } else {
      var front, p := ps[..|ps| - 1], ps[|ps| - 1];
      assert ps == front + [p];
      AfterHolds(policy, front);
      LastTakenFound(policy, front);
      FinSeenIff(policy, front);
      HoldsOneMore(policy, After(policy, FRESH, front), front, p, LastTaken(policy, front));
    }
  }

  /** Every drop, exactly: a packet is dropped if and only if the rules block what its flow
      holds with this packet. */
  lemma DroppedIffHeldBlocked(policy: Policy, ps: seq<Seen>, i: nat)
    requires i < |ps|
    ensures VerdictAt(policy, ps, i) == Drop <==>
      var held := Held(policy, ps[..i + 1]); policy(held.0, held.1)
  {
    AfterIsForCause(policy, ps[..i]);
    AfterNext(policy, FRESH, ps, i);
    BlockedForCauseKept(policy, After(policy, FRESH, ps[..i]), ps[i]);
    AfterHolds(policy, ps[..i + 1]);
  }

  // ---------------------------------------------------------------- entries that come and go

  /** A packet, and whether the flow had no entry in the table when it came: none yet, or
      none any more after an eviction or a cleanup. */
  datatype Marked = Marked(p: Seen, anew: bool)

  /** The state of the entry after some packets; a new entry starts fresh. */
  function Live(policy: Policy, ms: seq<Marked>): Flow
    decreases |ms|, 0
  {
    if ms == [] then FRESH
    else Step(policy, Entry(policy, ms[..|ms| - 1], ms[|ms| - 1].anew), ms[|ms| - 1].p).0
  }

  /** The entry that a packet meets. */
  function Entry(policy: Policy, ms: seq<Marked>, anew: bool): Flow
    decreases |ms|, 1
  {
    if anew then FRESH else Live(policy, ms)
  }

  /** The packets since the entry was created. */
  function Since(ms: seq<Marked>): seq<Seen>
    decreases |ms|, 0
  {
    if ms == [] then []
    else SinceEntry(ms[..|ms| - 1], ms[|ms| - 1].anew) + [ms[|ms| - 1].p]
  }

  function SinceEntry(ms: seq<Marked>, anew: bool): seq<Seen>
    decreases |ms|, 1
  {
    if anew then [] else Since(ms)
  }

  /** A live entry is the state that its own packets lead to from a fresh one. */
  lemma {:induction false} LiveIsAfter(policy: Policy, ms: seq<Marked>)
    ensures Live(policy, ms) == After(policy, FRESH, Since(ms))
  {
    if ms == [] {
    } else {
      var front, last := ms[..|ms| - 1], ms[|ms| - 1];
      LiveIsAfter(policy, front);
      EntryIsAfter(policy, front, last.anew);
      var ps := SinceEntry(front, last.anew);
      assert (ps + [last.p])[..|ps|] == ps;
    }
  }

  lemma EntryIsAfter(policy: Policy, ms: seq<Marked>, anew: bool)
    requires Live(policy, ms) == After(policy, FRESH, Since(ms))
    ensures Entry(policy, ms, anew) == After(policy, FRESH, SinceEntry(ms, anew))
  {
  }

  /** The packet is let through if its flow has no entry yet, or none any more. */
  predicate HarmlessAlone(policy: Policy, p: Seen) {
    match p.finding
    case Some((app, sni)) => !policy(app, sni)
    case None => !policy(Unknown, "")
  }

  /** A packet that finds no entry is judged by itself. */
  lemma FirstOfEntry(policy: Policy, p: Seen)
    ensures Step(policy, FRESH, p).1 == Forward <==> HarmlessAlone(policy, p)
  {
  }

  lemma {:induction false} LiveIsForCause(policy: Policy, ms: seq<Marked>)
    ensures BlockedForCause(policy, Live(policy, ms))
  {
    LiveIsAfter(policy, ms);
    AfterIsForCause(policy, Since(ms));
  }

  /** Nothing is known of the flow and it is not blocked. */
  predicate Unfound(f: Flow) {
    f.app == Unknown && f.sni == "" && f.state != Blocked
  }

  lemma UnfoundStep(policy: Policy, f: Flow, p: Seen)
    requires Unfound(f) && p.finding == None && !policy(Unknown, "")
    ensures Unfound(Step(policy, f, p).0) && Step(policy, f, p).1 == Forward
  {
    TcpKeepsUnfound(f, p.flags);
  }

  lemma TcpKeepsUnfound(f: Flow, flags: byte)
    requires Unfound(f)
    ensures Unfound(TcpStep(f, flags))
  {
  }

  lemma {:induction false} UnfoundStays(policy: Policy, ms: seq<Marked>)
    requires !policy(Unknown, "") && forall k :: 0 <= k < |ms| ==> ms[k].p.finding == None
    ensures Unfound(Live(policy, ms))
  {
    if ms == [] {
    } else {
      UnfoundStays(policy, ms[..|ms| - 1]);
      UnfoundStep(policy, Entry(policy, ms[..|ms| - 1], ms[|ms| - 1].anew), ms[|ms| - 1].p);
    }
  }

  // ---------------------------------------------------------------- jobs

  predicate OneFlow(t: FiveTuple, jobs: seq<PacketJob>) {
    forall i :: 0 <= i < |jobs| ==> jobs[i].tuple == t
  }

  /** The sequential filter of one flow: the actions it takes, packet by packet. */
  function Filter(rules: Rules.RuleSet, f: Flow, jobs: seq<PacketJob>): (actions: seq<PacketAction>)
    ensures |actions| == |jobs|
    decreases |jobs|
  {
    if jobs == [] then []
    else
      var (g, action) := StepFlow(rules, f, jobs[0]);
      [action] + Filter(rules, g, jobs[1..])
  }

  function SeeAll(jobs: seq<PacketJob>): (ps: seq<Seen>)
    ensures |ps| == |jobs|
    ensures forall i :: 0 <= i < |jobs| ==> ps[i] == See(jobs[i])
  {
    seq(|jobs|, i requires 0 <= i < |jobs| => See(jobs[i]))
  }

  lemma {:induction false} AfterFirst(policy: Policy, f: Flow, ps: seq<Seen>)
    requires ps != []
    ensures After(policy, f, ps) == After(policy, Step(policy, f, ps[0]).0, ps[1..])
  {
    var front := ps[..|ps| - 1];
    if front == [] {
      assert ps[1..] == [];
    } else {
      AfterFirst(policy, f, front);
      assert ps[1..][..|ps| - 2] == front[1..];
    }
  }

  /** The actions of the filter are the verdicts of the flow. */
  lemma {:induction false} FilterGivesVerdicts(rules: Rules.RuleSet, t: FiveTuple, f: Flow,
          jobs: seq<PacketJob>, i: nat)
    requires OneFlow(t, jobs) && i < |jobs|
    ensures Filter(rules, f, jobs)[i] ==
      Step(PolicyOf(rules, t), After(PolicyOf(rules, t), f, SeeAll(jobs)[..i]), See(jobs[i])).1
    decreases i
  {
    var policy, ps := PolicyOf(rules, t), SeeAll(jobs);
    if i == 0 {
      assert ps[..0] == [];
    } else {
      var g := StepFlow(rules, f, jobs[0]).0;
      FilterGivesVerdicts(rules, t, g, jobs[1..], i - 1);
      AfterFirst(policy, f, ps[..i]);
      assert ps[..i][1..] == SeeAll(jobs[1..])[..i - 1];
    }
  }

  /** The filter over a connection, in terms of its packets: once it has dropped one,
      it drops all later ones exactly when none of them reopens the flow. */
  lemma FilterBlockingPersistsIff(rules: Rules.RuleSet, t: FiveTuple, jobs: seq<PacketJob>, i: nat)
    requires OneFlow(t, jobs) && i < |jobs| && Filter(rules, FRESH, jobs)[i] == Drop
    ensures (forall j :: i < j < |jobs| ==> Filter(rules, FRESH, jobs)[j] == Drop) <==>
      NeverReopened(PolicyOf(rules, t), SeeAll(jobs), i)
  {
    var policy, ps := PolicyOf(rules, t), SeeAll(jobs);
    forall j | 0 <= j < |jobs|
      ensures Filter(rules, FRESH, jobs)[j] == VerdictAt(policy, ps, j)
    {
      FilterGivesVerdicts(rules, t, FRESH, jobs, j);
    }
    BlockingPersistsIff(policy, ps, i);
  }

  // ---------------------------------------------------------------- a reopened flow

  /** A TCP flow to port 80 from port 53, with HTTP blocked. Its first packet is
      dropped as HTTP; a RST whose payload is a DNS query gets through. */
  lemma BlockedFlowReopens(rules: Rules.RuleSet, t: FiveTuple, jobs: seq<PacketJob>, name: seq<byte>)
    requires rules == Rules.NO_RULES.(apps := {Http}) && |jobs| == 2 && OneFlow(t, jobs)
    requires t.srcPort == 53 && t.dstPort == 80 && t.protocol == TCP
    requires jobs[0].Payload() == [0] && jobs[0].tcpFlags == 0
    requires 1 <= |name| <= 30 && DnsQuery.DOT !in name
    requires DnsQuery.CreateDnsQuery(0, name) == Some(jobs[1].Payload()) && jobs[1].tcpFlags == RST
    ensures Filter(rules, FRESH, jobs) == [Drop, Forward]
  {
    var policy := PolicyOf(rules, t);
    FirstIsHttp(jobs[0]);
    SecondIsDns(jobs[1], name);
    OnlyHttpBlocked(rules, t, Text(name));
    ResetReopens(policy, See(jobs[0]), See(jobs[1]), Text(name));
    var g := StepFlow(rules, FRESH, jobs[0]).0;
    assert Filter(rules, g, jobs[1..]) ==
        [StepFlow(rules, g, jobs[1]).1] + Filter(rules, StepFlow(rules, g, jobs[1]).0, jobs[1..][1..]);
  }

  lemma ResetReopens(policy: Policy, first: Seen, second: Seen, name: string)
    requires policy(Http, "") && !policy(Dns, name)
    requires first == Seen(true, 0, Some((Http, ""))) && second == Seen(true, RST, Some((Dns, name)))
    ensures Step(policy, FRESH, first).1 == Drop
    ensures Step(policy, Step(policy, FRESH, first).0, second).1 == Forward
  {
  }

  lemma OnlyHttpBlocked(rules: Rules.RuleSet, t: FiveTuple, name: string)
    requires rules == Rules.NO_RULES.(apps := {Http})
    ensures !Blocks(rules, t, Dns, name) && Blocks(rules, t, Http, "")
  {
  }

  lemma FirstIsHttp(first: PacketJob)
    requires first.tuple.srcPort == 53 && first.tuple.dstPort == 80 && first.Payload() == [0]
    ensures first.payloadLength > 0 && Classification(first) == Some((Http, ""))
  {
    HttpHost.ZeroIsNoRequest([0]);
  }

  lemma SecondIsDns(second: PacketJob, name: seq<byte>)
    requires second.tuple.srcPort == 53 && second.tuple.dstPort == 80
    requires 1 <= |name| <= 30 && DnsQuery.DOT !in name
    requires DnsQuery.CreateDnsQuery(0, name) == Some(second.Payload())
    ensures second.payloadLength > 0 && Classification(second) == Some((Dns, Text(name)))
  {
    DnsQuery.OneLabelQuery(0, name);
    HttpHost.ZeroIsNoRequest(second.Payload());
  }
}
