/** Success comes once, and not before the circuit is complete. While nobody gives up on a session
    id, each of the entry and the access node contributes at most one probe to the sink, so that the
    second probe to arrive finds every stream of the circuit in place. */
module SuccessOnce {
  import opened Wrappers
  import opened Protocol
  import opened RelayLogic
  import opened Network
  import opened Isolation
  import opened Establishment
  import opened EstablishmentRelay

  // ---- where messages lie ----------------------------------------------------------------------

  predicate WriteInPlace(k: Control, rerouted: bool, emitted: bool, w: Option<Write>) {
    w.Some? ==> InPlace(k, rerouted, emitted, w.value.end.link, !w.value.end.opener, w.value.msg)
  }

  lemma PostMail(links: seq<Link>, sid: Sid, k: Control, rerouted: bool, emitted: bool, w: Option<Write>)
    requires MailIn(links, sid, k, rerouted, emitted) && WriteInPlace(k, rerouted, emitted, w)
    ensures MailIn(Post(links, w), sid, k, rerouted, emitted)
  {
    var b := Post(links, w);
    forall l, m | 0 <= l < |b| && b[l].sid == sid && m in b[l].o.inbox
      ensures InPlace(k, rerouted, emitted, l, true, m)
    {
      assert m in links[l].o.inbox || (w.Some? && w.value == Write(End(l, false), m));
    }
    forall l, m | 0 <= l < |b| && b[l].sid == sid && m in b[l].a.inbox
      ensures InPlace(k, rerouted, emitted, l, false, m)
    {
      assert m in links[l].a.inbox || (w.Some? && w.value == Write(End(l, true), m));
    }
  }

  /** No inbox of `sid` has a message that it did not have before; new streams hold none that matter. */
  ghost predicate InboxesShrink(a: seq<Link>, b: seq<Link>, sid: Sid) {
    && |a| <= |b|
    && (forall l :: 0 <= l < |a| ==> b[l].sid == a[l].sid)
    && (forall l :: 0 <= l < |a| && b[l].sid == sid ==> b[l].o.inbox <= a[l].o.inbox && b[l].a.inbox <= a[l].a.inbox)
    && (forall l, m :: |a| <= l < |b| && m in b[l].o.inbox ==> OpeningMessage(m))
    && (forall l, m :: |a| <= l < |b| && m in b[l].a.inbox ==> OpeningMessage(m))
  }

  lemma ShrinkMail(a: seq<Link>, b: seq<Link>, sid: Sid, k: Control, j: Control, r: bool, s: bool, emitted: bool,
          started: bool)
    requires MailIn(a, sid, k, r, emitted) && InboxesShrink(a, b, sid)
    requires (r ==> s) && (emitted ==> started) && j.dial == k.dial
    requires j.join == k.join || (k.join.None? && !r)
    requires j.reach == k.reach || (k.reach.None? && j.reach == Some(|a|))
    ensures MailIn(b, sid, j, s, started)
  {
    forall l, m | 0 <= l < |b| && b[l].sid == sid && m in b[l].o.inbox
      ensures InPlace(j, s, started, l, true, m)
    {
      if l < |a| {
        assert m in a[l].o.inbox;
        assert InPlace(k, r, emitted, l, true, m);
      } else {
        assert OpeningMessage(m);
      }
    }
    forall l, m | 0 <= l < |b| && b[l].sid == sid && m in b[l].a.inbox
      ensures InPlace(j, s, started, l, false, m)
    {
      if l < |a| {
        assert m in a[l].a.inbox;
        assert InPlace(k, r, emitted, l, false, m);
      } else {
        assert OpeningMessage(m);
      }
    }
  }

  lemma ShutShrinks(links: seq<Link>, e: Option<End>, sid: Sid)
    ensures InboxesShrink(links, Shut(links, e), sid)
  {}

  lemma CommitMail(a: Net, n: NodeId, sid: Sid, out: Outcome, k: Control, rerouted: bool, emitted: bool)
    requires MailIn(a.links, sid, k, rerouted, emitted)
    requires WriteInPlace(k, rerouted, emitted, out.first) && WriteInPlace(k, rerouted, emitted, out.second)
    ensures MailIn(Commit(a, n, sid, out).links, sid, k, rerouted, emitted)
  {
    var l1 := Post(a.links, out.first);
    var l2 := Post(l1, out.second);
    var l3 := Shut(l2, out.shut1);
    assert Commit(a, n, sid, out).links == Shut(l3, out.shut2);
    hide MailIn, Post, Shut, InboxesShrink, WriteInPlace, Commit;
    PostMail(a.links, sid, k, rerouted, emitted, out.first);
    PostMail(l1, sid, k, rerouted, emitted, out.second);
    ShutShrinks(l2, out.shut1, sid);
    ShutShrinks(l3, out.shut2, sid);
    ShrinkMail(l2, l3, sid, k, k, rerouted, rerouted, emitted, emitted);
    ShrinkMail(l3, Shut(l3, out.shut2), sid, k, k, rerouted, rerouted, emitted, emitted);
  }

  // ---- the count of probes and successes ---------------------------------------------------------

  function OwnProbe(sid: Sid): Message { Probe(sid, ProbeRand(sid)) }

  /** The probes that lie unread at the acceptor of a stream. */
  function ProbesIn(links: seq<Link>, sid: Sid, l: Option<LinkId>): nat {
    if l.Some? && l.value < |links| then links[l.value].a.inbox[OwnProbe(sid)] else 0
  }

  /** Probes on their way to the sink, or stored there. */
  function ProbesOut(net: Net, sid: Sid, k: Control): nat {
    var p := PlanOf(net, k);
    ProbesIn(net.links, sid, k.join)
    + (if p.Spread() then ProbesIn(net.links, sid, k.hop) + ProbesIn(net.links, sid, k.bridge) else 0)
    + One(SlotOf(net, p.join.acceptor, sid).probe.Some?)
  }

  /** Probes that the entry node and a separate access node have sent. */
  function ProbesSent(p: Plan, k: Control): nat { One(k.probedE) + One(p.Spread() && k.probedA) }

  /** Every Success that the sink originates uses up a probe. */
  ghost predicate Balanced(net: Net, sid: Sid, k: Control) {
    var p := PlanOf(net, k);
    !p.EntryIsHome() && k.join.Some? ==>
      ProbesOut(net, sid, k) + (if p.Spread() then net.emitted[sid] else 0) <= ProbesSent(p, k)
  }

  /** At most one Success, and only on a complete circuit. */
  predicate EmittedOnce(net: Net, sid: Sid, k: Control) {
    var p := PlanOf(net, k);
    && net.emitted[sid] <= 1
    && (net.emitted[sid] > 0 ==> p.Complete() && (p.RelayIsEntry() ==> k.cmd.Replied?))
  }

  predicate IsClient(k: Control, n: NodeId) { n == k.caller || n == k.answer }

  ghost predicate Tally(net: Net, sid: Sid) {
    && sid in net.ctls
    && EmittedOnce(net, sid, net.ctls[sid])
    && (forall n :: net.started[(n, sid)] > 0 ==> net.emitted[sid] > 0 && IsClient(net.ctls[sid], n))
    && Balanced(net, sid, net.ctls[sid])
  }

  /** The invariant of a session id that nobody has given up on. */
  ghost predicate Sound(net: Net, sid: Sid) { Topology(net, sid) && Mail(net, sid) && Tally(net, sid) }

  lemma PostCount(links: seq<Link>, sid: Sid, l: Option<LinkId>, w: Option<Write>)
    ensures ProbesIn(Post(links, w), sid, l) ==
            ProbesIn(links, sid, l)
            + One(w.Some? && l.Some? && l.value < |links| && w.value == Write(End(l.value, true), OwnProbe(sid)))
  {}

  function Hits(l: Option<LinkId>, w: Option<Write>, sid: Sid): nat {
    One(w.Some? && l.Some? && w.value == Write(End(l.value, true), OwnProbe(sid)))
  }

  lemma CommitCount(a: Net, n: NodeId, sid: Sid, out: Outcome, l: Option<LinkId>)
    requires l.Some? ==> l.value < |a.links|
    ensures ProbesIn(Commit(a, n, sid, out).links, sid, l)
         == ProbesIn(a.links, sid, l) + Hits(l, out.first, sid) + Hits(l, out.second, sid)
  {
    var l1 := Post(a.links, out.first);
    var l2 := Post(l1, out.second);
    PostCount(a.links, sid, l, out.first);
    PostCount(l1, sid, l, out.second);
    var l3 := Shut(l2, out.shut1);
    assert ProbesIn(l3, sid, l) == ProbesIn(l2, sid, l);
    assert ProbesIn(Shut(l3, out.shut2), sid, l) == ProbesIn(l3, sid, l);
  }

  /** A step that originates no Success and sends no probe towards the sink. */
  lemma TallyKept(a: Net, b: Net, sid: Sid)
    requires Tally(a, sid) && sid in b.ctls
    requires var k, j := a.ctls[sid], b.ctls[sid];
             var p, q := PlanOf(a, k), PlanOf(b, j);
             && k.home == j.home && k.entry == j.entry && k.caller == j.caller && k.answer == j.answer
             && (p.Complete() ==> q.Complete()) && (p.RelayIsEntry() == q.RelayIsEntry())
             && (k.cmd.Replied? ==> j.cmd.Replied?) && (k.probedE ==> j.probedE) && (k.probedA ==> j.probedA)
             && b.emitted[sid] == a.emitted[sid]
             && (forall n :: b.started[(n, sid)] > 0 ==>
                     a.started[(n, sid)] > 0 || (a.emitted[sid] > 0 && IsClient(k, n)))
             && p.Spread() == q.Spread()
             && (!q.EntryIsHome() && j.join.Some? ==> k.join.Some? && ProbesOut(b, sid, j) <= ProbesOut(a, sid, k))
    ensures Tally(b, sid)
  {}

  // ---- the tasks ---------------------------------------------------------------------------------

  lemma DialSound(a: Net, sid: Sid, caller: NodeId, entry: NodeId, answer: NodeId, home: NodeId)
    requires WellFormed(a) && EnabledTask(a, Dial(sid, caller, entry, answer, home))
    requires a.emitted[sid] == 0 && forall n :: a.started[(n, sid)] == 0
    ensures Sound(DoTask(a, Dial(sid, caller, entry, answer, home)), sid)
  {
    var b := DoTask(a, Dial(sid, caller, entry, answer, home));
    DialTopology(a, sid, caller, entry, answer, home);
    hide Topology;
    assert forall l :: 0 <= l < |a.links| ==> a.links[l].sid != sid;
    assert Mail(b, sid);
  }

  /** The tasks' own messages. */
  lemma OpeningMail(a: Net, b: Net, sid: Sid, opener: NodeId, acceptor: NodeId, role: Role, j: Control)
    requires Mail(a, sid) && b == WithControl(Open(a, sid, opener, acceptor, role), sid, j)
    requires j.dial == a.ctls[sid].dial
    requires PlanOf(a, a.ctls[sid]).Rerouted() ==> PlanOf(b, j).Rerouted()
    requires j.join == a.ctls[sid].join || (a.ctls[sid].join.None? && !PlanOf(a, a.ctls[sid]).Rerouted())
    requires j.reach == a.ctls[sid].reach || (a.ctls[sid].reach.None? && j.reach == Some(|a.links|))
    ensures Mail(b, sid)
  {
    var k := a.ctls[sid];
    ShrinkMail(a.links, b.links, sid, k, j, PlanOf(a, k).Rerouted(), PlanOf(b, j).Rerouted(), a.emitted[sid] > 0,
                  a.emitted[sid] > 0);
  }

  lemma JoinOpenSound(a: Net, sid: Sid, peer: NodeId)
    requires Sound(a, sid) && EnabledTask(a, JoinOpen(sid, peer))
    ensures Sound(DoTask(a, JoinOpen(sid, peer)), sid)
  {
    var b := DoTask(a, JoinOpen(sid, peer));
    var k, j := a.ctls[sid], b.ctls[sid];
    JoinOpenTopology(a, sid, peer);
    assert CircuitAsCalled(PlanOf(a, k), peer, SlotOf(a, peer, sid));
    assert PlanOf(b, j) == PlanOf(a, k).(join := Leg(Some(|a.links|), peer, false, false));
    hide SlotsAsCalled, LinksAsCalled, Streams, SinkWillClose, MailIn;
    OpeningMail(a, b, sid, k.entry, peer, if k.home == k.entry then Answer else Sink, j);
    assert Balanced(b, sid, j);
  }

  lemma ReachOpenSound(a: Net, sid: Sid)
    requires Sound(a, sid) && EnabledTask(a, ReachOpen(sid))
    ensures Sound(DoTask(a, ReachOpen(sid)), sid)
  {
    hide LinksAsCalled, MailIn;
    var b := DoTask(a, ReachOpen(sid));
    var k, j := a.ctls[sid], b.ctls[sid];
    ReachOpenTopology(a, sid);
    assert PlanOf(b, j) == PlanOf(a, k).(reach := Leg(Some(|a.links|), k.answer, false, false));
    assert k.join.Some? && k.join.value < |a.links|;
    hide SlotsAsCalled, Streams, SinkWillClose;
    OpeningMail(a, b, sid, k.home, k.answer, Answer, j);
    TallyKept(a, b, sid);
  }

  lemma HopOpenSound(a: Net, sid: Sid, peer: NodeId)
    requires Sound(a, sid) && EnabledTask(a, HopOpen(sid, peer))
    ensures Sound(DoTask(a, HopOpen(sid, peer)), sid)
  {
    hide Topology;
    var b := DoTask(a, HopOpen(sid, peer));
    var k, j := a.ctls[sid], b.ctls[sid];
    var p := PlanOf(a, k);
    HopOpenTopology(a, sid, peer);
    HopOpenForm(a, sid, peer);
    hide DoTask, EnabledTask, MailIn, PlanOf;
    OpeningMail(a, b, sid, k.home, peer, Relay, j);
    hide Mail;
    HopProbes(a, b, sid, k, j, p, peer);
    assert a.emitted[sid] == 0 && EmittedOnce(a, sid, k) && Balanced(a, sid, k);
    hide ProbesOut, Open, NewLink;
    assert Balanced(b, sid, j);
  }

  lemma HopProbes(a: Net, b: Net, sid: Sid, k: Control, j: Control, p: Plan, peer: NodeId)
    requires p == PlanOf(a, k) && j == k.(hop := Some(|a.links|))
    requires b == WithControl(Open(a, sid, k.home, peer, Relay), sid, j)
    requires PlanOf(b, j) == p.(hop := Leg(Some(|a.links|), peer, false, false)) && !p.Spread()
    requires k.hop.None? && k.bridge.None? && k.join.Some? && k.join.value < |a.links|
    ensures ProbesOut(b, sid, j) == ProbesOut(a, sid, k)
  {
    assert SlotOf(b, p.join.acceptor, sid) == SlotOf(a, p.join.acceptor, sid);
    hide PlanOf;
  }

  lemma BridgeOpenSound(a: Net, sid: Sid)
    requires Sound(a, sid) && EnabledTask(a, BridgeOpen(sid))
    ensures Sound(DoTask(a, BridgeOpen(sid)), sid)
  {
    var b := DoTask(a, BridgeOpen(sid));
    var k, j := a.ctls[sid], b.ctls[sid];
    var p := PlanOf(a, k);
    BridgeOpenTopology(a, sid);
    BridgeOpenForm(a, sid);
    BridgeIncomplete(a, sid);
    hide DoTask, EnabledTask, Topology, MailIn, PlanOf;
    OpeningMail(a, b, sid, p.hop.acceptor, p.join.acceptor, Sink, j);
    hide Mail;
    BridgeProbes(a, b, sid, k, j, p);
    hide ProbesOut, Open, NewLink;
    TallyKept(a, b, sid);
  }

  lemma BridgeIncomplete(a: Net, sid: Sid)
    requires Topology(a, sid) && EnabledTask(a, BridgeOpen(sid))
    ensures var p := PlanOf(a, a.ctls[sid]); !p.Complete() && a.ctls[sid].join.Some?
  {
    RelayOf(a, sid);
    hide SlotsAsCalled, LinksAsCalled, SinkWillClose;
  }

  lemma BridgeProbes(a: Net, b: Net, sid: Sid, k: Control, j: Control, p: Plan)
    requires p == PlanOf(a, k) && j == k.(bridge := Some(|a.links|), cmd := Bridging)
    requires b == WithControl(Open(a, sid, p.hop.acceptor, p.join.acceptor, Sink), sid, j)
    requires PlanOf(b, j) == p.(bridge := Leg(Some(|a.links|), p.join.acceptor, false, false))
    requires k.bridge.None? && k.join.Some? && k.join.value < |a.links| && k.hop.Some? && k.hop.value < |a.links|
    ensures ProbesOut(b, sid, j) == ProbesOut(a, sid, k)
  {
    assert SlotOf(b, p.join.acceptor, sid) == SlotOf(a, p.join.acceptor, sid);
    hide PlanOf;
  }

  lemma AttachingPlan(a: Net, sid: Sid, link: LinkId, role: Role, j: Control)
    requires sid in a.ctls && SameStreams(a.ctls[sid], j) && link < |a.links|
    ensures var b := AttachOpener(WithControl(a, sid, j), sid, link, role);
            var p, q := PlanOf(a, a.ctls[sid]), PlanOf(b, j);
            && p.Rerouted() == q.Rerouted() && p.Spread() == q.Spread() && p.RelayIsEntry() == q.RelayIsEntry()
            && p.join.acceptor == q.join.acceptor && p.EntryIsHome() == q.EntryIsHome()
  {}

  lemma AttachingCount(a: Net, sid: Sid, link: LinkId, role: Role, j: Control)
    requires sid in a.ctls && SameStreams(a.ctls[sid], j) && link < |a.links|
    ensures ProbesOut(AttachOpener(WithControl(a, sid, j), sid, link, role), sid, j) == ProbesOut(a, sid, a.ctls[sid])
  {
    AttachingPlan(a, sid, link, role, j);
    var b := AttachOpener(WithControl(a, sid, j), sid, link, role);
    hide PlanOf, LegOf;
    assert forall l :: ProbesIn(b.links, sid, l) == ProbesIn(a.links, sid, l);
    assert forall n :: SlotOf(b, n, sid).probe == SlotOf(a, n, sid).probe;
  }

  /** Attaching a stream moves no message and touches no probe. */
  lemma AttachingSound(a: Net, sid: Sid, link: LinkId, role: Role, j: Control)
    requires Mail(a, sid) && Tally(a, sid) && SameStreams(a.ctls[sid], j)
    requires link < |a.links| && a.links[link].sid == sid
    requires var b := AttachOpener(WithControl(a, sid, j), sid, link, role);
             var p, q := PlanOf(a, a.ctls[sid]), PlanOf(b, j);
             && j.probedE == a.ctls[sid].probedE && j.probedA == a.ctls[sid].probedA
             && (a.ctls[sid].cmd.Replied? ==> j.cmd.Replied?) && (p.Complete() ==> q.Complete())
    ensures Mail(AttachOpener(WithControl(a, sid, j), sid, link, role), sid)
    ensures Tally(AttachOpener(WithControl(a, sid, j), sid, link, role), sid)
  {
    var b := AttachOpener(WithControl(a, sid, j), sid, link, role);
    var k := a.ctls[sid];
    var p, q := PlanOf(a, k), PlanOf(b, j);
    AttachingPlan(a, sid, link, role, j);
    AttachingCount(a, sid, link, role, j);
    hide MailIn, Balanced, ProbesOut, PlanOf;
    ShrinkMail(a.links, b.links, sid, k, j, p.Rerouted(), q.Rerouted(), a.emitted[sid] > 0, b.emitted[sid] > 0);
    TallyKept(a, b, sid);
  }

  lemma SuccessMail(a: Net, n: NodeId, sid: Sid)
    requires Topology(a, sid) && Mail(a, sid)
    ensures Mail(SendBothWays(a, n, sid, Success(sid)), sid)
  {
    var b := SendBothWays(a, n, sid, Success(sid));
    var k := a.ctls[sid];
    var r := PlanOf(a, k).Rerouted();
    var out := TwoWay(SlotOf(a, n, sid), Success(sid));
    CommitKeepsShape(a, n, sid, out);
    ShapeKeepsPlan(a, b, sid);
    hide Topology, MailIn, ShapeKept, PlanOf;
    if out.emits {
      ShrinkMail(a.links, a.links, sid, k, k, r, r, a.emitted[sid] > 0, true);
      CommitMail(a, n, sid, out, k, r, true);
    } else {
      QuietCommit(a, n, sid, SlotOf(a, n, sid));
    }
  }

  lemma SuccessCount(a: Net, n: NodeId, sid: Sid)
    requires sid in a.ctls
    ensures ProbesOut(SendBothWays(a, n, sid, Success(sid)), sid, a.ctls[sid]) == ProbesOut(a, sid, a.ctls[sid])
    ensures PlanOf(SendBothWays(a, n, sid, Success(sid)), a.ctls[sid]) == PlanOf(a, a.ctls[sid])
  {
    var b := SendBothWays(a, n, sid, Success(sid));
    var out := TwoWay(SlotOf(a, n, sid), Success(sid));
    CommitKeepsShape(a, n, sid, out);
    ShapeKeepsPlan(a, b, sid);
    hide PlanOf;
    forall l: Option<LinkId> ensures ProbesIn(b.links, sid, l) == ProbesIn(a.links, sid, l) {
      if l.Some? && l.value < |a.links| { CommitCount(a, n, sid, out, l); }
    }
    hide Commit, ProbesIn, ShapeKept;
    assert forall m :: SlotOf(b, m, sid).probe == SlotOf(a, m, sid).probe by { SameProbes(a, n, sid, out); }
  }

  lemma SameProbes(a: Net, n: NodeId, sid: Sid, out: Outcome)
    requires out.slot.probe == SlotOf(a, n, sid).probe
    ensures forall m :: SlotOf(Commit(a, n, sid, out), m, sid).probe == SlotOf(a, m, sid).probe
  {}

  /** Sending a Success both ways, for the first time, on a complete circuit. */
  lemma SuccessBothWays(a: Net, n: NodeId, sid: Sid)
    requires Sound(a, sid) && a.emitted[sid] == 0
    requires var k := a.ctls[sid]; var p := PlanOf(a, k);
             p.Complete() && (p.RelayIsEntry() ==> k.cmd.Replied?) && !p.Spread()
    ensures Sound(SendBothWays(a, n, sid, Success(sid)), sid)
  {
    var k := a.ctls[sid];
    var b, out := SendBothWays(a, n, sid, Success(sid)), TwoWay(SlotOf(a, n, sid), Success(sid));
    assert b == Commit(a, n, sid, out) && !out.starts && sid in a.ctls;
    hide *;
    SoundParts(a, sid);
    BothWaysTopology(a, n, sid, Success(sid));
    SuccessMail(a, n, sid);
    SuccessCount(a, n, sid);
    CommitHistory(a, n, sid, out);
    TallyAfterSuccess(a, b, sid, k, PlanOf(a, k), out.emits);
    IntoSound(b, sid);
  }

  lemma TallyAfterSuccess(a: Net, b: Net, sid: Sid, k: Control, p: Plan, emits: bool)
    requires Tally(a, sid) && k == a.ctls[sid] && b.ctls == a.ctls && a.emitted[sid] == 0
    requires p == PlanOf(a, k) && PlanOf(b, k) == p && b.started == a.started
             && b.emitted[sid] == a.emitted[sid] + One(emits)
    requires ProbesOut(b, sid, k) == ProbesOut(a, sid, k)
    requires p.Complete() && (p.RelayIsEntry() ==> k.cmd.Replied?) && !p.Spread()
    ensures Tally(b, sid)
  {
    hide PlanOf, ProbesOut, ProbesSent;
  }

  /** The network just before the Success of an attaching step: complete, and still silent. */
  ghost predicate ReadyToEmit(a: Net, sid: Sid) {
    && Sound(a, sid) && a.emitted[sid] == 0
    && var k := a.ctls[sid]; var p := PlanOf(a, k);
    p.Complete() && (p.RelayIsEntry() ==> k.cmd.Replied?)
  }

  lemma JoinAttached(a: Net, sid: Sid)
    requires Sound(a, sid) && EnabledTask(a, JoinAttach(sid))
    ensures var k := a.ctls[sid];
            var b := AttachOpener(a, sid, k.join.value, if k.home == k.entry then Access else Entry);
            && Sound(b, sid) && b.ctls == a.ctls
            && (k.home == k.entry ==> ReadyToEmit(b, sid) && PlanOf(b, k).EntryIsHome() && k.join.Some?)
            && DoTask(a, JoinAttach(sid)) == if k.home == k.entry then SendBothWays(b, k.entry, sid, Success(sid))
               else b
  {
    var k := a.ctls[sid];
    var role := if k.home == k.entry then Access else Entry;
    var b := AttachOpener(a, sid, k.join.value, role);
    assert b == AttachOpener(WithControl(a, sid, k), sid, k.join.value, role);
    var p := PlanOf(a, k);
    assert HandshakeOk(a.links[k.join.value], AskedRole(k, k.join.value));
    assert PlanOf(b, k) == p.(join := p.join.(attached := true));
    JoinAttachPlan(a.clients, p, k, role);
    AttachingTopology(a, sid, k.join.value, role, k);
    assert p.EntryIsHome() ==> !p.Complete();
    assert p.EntryIsHome() ==> !p.RelayIsEntry();
    hide Topology, Mail;
    AttachingSound(a, sid, k.join.value, role, k);
  }

  lemma JoinAttachSound(a: Net, sid: Sid)
    requires Sound(a, sid) && EnabledTask(a, JoinAttach(sid))
    ensures Sound(DoTask(a, JoinAttach(sid)), sid)
  {
    var k := a.ctls[sid];
    JoinAttached(a, sid);
    hide Sound;
    if k.home == k.entry { SuccessBothWays(AttachOpener(a, sid, k.join.value, Access), k.entry, sid); }
  }

  lemma ReachAttached(a: Net, sid: Sid)
    requires Sound(a, sid) && EnabledTask(a, ReachAttach(sid))
    ensures var k := a.ctls[sid];
            var b := AttachOpener(a, sid, k.reach.value, Access);
            && Sound(b, sid) && b.ctls == a.ctls && PlanOf(b, k).SinkIsHome() == (AcceptorOf(a, k.join) == Some(k.home))
            && (PlanOf(b, k).SinkIsHome() ==> ReadyToEmit(b, sid))
            && DoTask(a, ReachAttach(sid)) ==
               if PlanOf(b, k).SinkIsHome() then SendBothWays(b, k.home, sid, Success(sid)) else b
  {
    var k := a.ctls[sid];
    var b := AttachOpener(a, sid, k.reach.value, Access);
    assert b == AttachOpener(WithControl(a, sid, k), sid, k.reach.value, Access);
    var p := PlanOf(a, k);
    assert HandshakeOk(a.links[k.reach.value], AskedRole(k, k.reach.value));
    assert PlanOf(b, k) == p.(reach := p.reach.(attached := true));
    ReachAttachPlan(a.clients, p, k);
    AttachingTopology(a, sid, k.reach.value, Access, k);
    assert p.SinkIsHome() ==> !p.Complete();
    assert AcceptorOf(a, k.join) == Some(k.home) <==> p.SinkIsHome();
    assert p.SinkIsHome() ==> !p.RelayIsEntry();
    hide Topology, Mail;
    AttachingSound(a, sid, k.reach.value, Access, k);
  }

  lemma ReachAttachSound(a: Net, sid: Sid)
    requires Sound(a, sid) && EnabledTask(a, ReachAttach(sid))
    ensures Sound(DoTask(a, ReachAttach(sid)), sid)
  {
    hide Tally, AttachOpener;
    var k := a.ctls[sid];
    ReachAttached(a, sid);
    hide Sound, PlanOf;
    var b := AttachOpener(a, sid, k.reach.value, Access);
    if PlanOf(b, k).SinkIsHome() { SuccessBothWays(b, k.home, sid); }
  }

  lemma HopAttachSound(a: Net, sid: Sid)
    requires Sound(a, sid) && EnabledTask(a, HopAttach(sid))
    ensures Sound(DoTask(a, HopAttach(sid)), sid)
  {
    HopAttachTopology(a, sid);
    var k := a.ctls[sid];
    var p := PlanOf(a, k);
    var j := k.(cmd := Sent);
    var b := AttachOpener(WithControl(a, sid, j), sid, k.hop.value, Access);
    assert PlanOf(b, j) == p.(hop := p.hop.(attached := true));
    assert !k.cmd.Replied?;
    hide Topology, Mail;
    AttachingSound(a, sid, k.hop.value, Access, j);
  }

  lemma BridgeAttachSound(a: Net, sid: Sid)
    requires Sound(a, sid) && EnabledTask(a, BridgeAttach(sid))
    ensures Sound(DoTask(a, BridgeAttach(sid)), sid)
  {
    BridgeAttachTopology(a, sid);
    var k := a.ctls[sid];
    var p := PlanOf(a, k);
    var j := k.(cmd := Replied(true));
    var b := AttachOpener(WithControl(a, sid, j), sid, k.bridge.value, Relay);
    assert PlanOf(b, j) == p.(bridge := p.bridge.(attached := true));
    hide Topology, Mail;
    AttachingSound(a, sid, k.bridge.value, Relay, j);
  }

  lemma DialAttachSound(a: Net, sid: Sid)
    requires Sound(a, sid) && EnabledTask(a, DialAttach(sid))
    ensures Sound(DoTask(a, DialAttach(sid)), sid)
  {
    DialAttachTopology(a, sid);
    var k := a.ctls[sid];
    var p := PlanOf(a, k);
    var b := AttachOpener(WithControl(a, sid, k), sid, k.dial, Caller);
    assert PlanOf(b, k) == p.(dial := p.dial.(attached := true));
    assert WithControl(a, sid, k) == a;
    hide Topology, MailIn;
    AttachingSound(a, sid, k.dial, Caller, k);
    var c := DoTask(a, DialAttach(sid));
    assert PlanOf(c, k) == PlanOf(b, k);
    assert ProbesOut(c, sid, k) == ProbesOut(b, sid, k);
    TallyKept(b, c, sid);
  }

  /** A control step that starts nothing. */
  lemma ControlSound(a: Net, sid: Sid, j: Control)
    requires Sound(a, sid) && SameStreams(a.ctls[sid], j) && InOrder(a.clients, PlanOf(a, a.ctls[sid]), j)
    requires var k := a.ctls[sid];
             (k.cmd.Replied? ==> j.cmd.Replied?) && (k.probedE ==> j.probedE) && (k.probedA ==> j.probedA)
    ensures Sound(WithControl(a, sid, j), sid)
    ensures PlanOf(WithControl(a, sid, j), j) == PlanOf(a, a.ctls[sid])
  {
    var b := WithControl(a, sid, j);
    hide Topology, PlanOf, InOrder, ProbesOut, MailIn;
    ControlTopology(a, sid, j);
    ControlCount(a, sid, j);
    ControlMail(a, sid, j);
    hide Mail;
    TallyKept(a, b, sid);
  }

  lemma ControlMail(a: Net, sid: Sid, j: Control)
    requires Mail(a, sid) && SameStreams(a.ctls[sid], j)
    ensures Mail(WithControl(a, sid, j), sid)
  {
    var r := PlanOf(a, a.ctls[sid]).Rerouted();
    ControlCount(a, sid, j);
    hide PlanOf, MailIn, ProbesOut;
    ShrinkMail(a.links, a.links, sid, a.ctls[sid], j, r, r, a.emitted[sid] > 0, a.emitted[sid] > 0);
  }

  /** The stream end is neither the caller's nor the answering client's. */
  predicate ServerEnd(k: Control, e: Option<End>) {
    e.Some? ==> e.value != End(k.dial, true) && !(k.reach == Some(e.value.link) && !e.value.opener)
  }

  lemma ServerEnds(a: Net, n: NodeId, sid: Sid)
    requires Topology(a, sid) && n != PlanOf(a, a.ctls[sid]).caller && n != PlanOf(a, a.ctls[sid]).answer
    ensures var s := SlotOf(a, n, sid);
            s.session.Some? ==>
              ServerEnd(a.ctls[sid], s.session.value.early) && ServerEnd(a.ctls[sid], s.session.value.later)
  {
    assert SessionAsCalled(PlanOf(a, a.ctls[sid]), n, SlotOf(a, n, sid));
  }

  lemma ProbeBothWaysMail(a: Net, n: NodeId, sid: Sid)
    requires Topology(a, sid) && Mail(a, sid) && n != PlanOf(a, a.ctls[sid]).caller
             && n != PlanOf(a, a.ctls[sid]).answer
    ensures Mail(SendBothWays(a, n, sid, OwnProbe(sid)), sid)
  {
    var k := a.ctls[sid];
    var r := PlanOf(a, k).Rerouted();
    var out := TwoWay(SlotOf(a, n, sid), OwnProbe(sid));
    var b := Commit(a, n, sid, out);
    ServerEnds(a, n, sid);
    CommitKeepsShape(a, n, sid, out);
    ShapeKeepsPlan(a, b, sid);
    hide Topology, MailIn, ShapeKept, PlanOf;
    CommitMail(a, n, sid, out, k, r, a.emitted[sid] > 0);
  }

  function AllHits(l: Option<LinkId>, out: Outcome, sid: Sid): nat {
    Hits(l, out.first, sid) + Hits(l, out.second, sid)
  }

  /** The probes an outcome puts on a stream that leads to the sink. */
  function TowardSink(p: Plan, k: Control, out: Outcome, sid: Sid): nat {
    AllHits(k.join, out, sid) + if p.Spread() then AllHits(k.hop, out, sid) + AllHits(k.bridge, out, sid) else 0
  }

  /** A probe sent both ways adds what it adds to the three streams that lead to the sink. */
  lemma ProbeBothWaysCount(a: Net, n: NodeId, sid: Sid)
    requires Topology(a, sid)
    ensures var k := a.ctls[sid];
            var p := PlanOf(a, k);
            var out := TwoWay(SlotOf(a, n, sid), OwnProbe(sid));
            var b := SendBothWays(a, n, sid, OwnProbe(sid));
            && PlanOf(b, k) == p
            && ProbesOut(b, sid, k) == ProbesOut(a, sid, k) + TowardSink(p, k, out, sid)
  {
    var k := a.ctls[sid];
    var out := TwoWay(SlotOf(a, n, sid), OwnProbe(sid));
    var b := Commit(a, n, sid, out);
    CommitKeepsShape(a, n, sid, out);
    ShapeKeepsPlan(a, b, sid);
    CommitCount(a, n, sid, out, k.join);
    CommitCount(a, n, sid, out, k.hop);
    CommitCount(a, n, sid, out, k.bridge);
    SameProbes(a, n, sid, out);
    hide Commit, ProbesIn, ShapeKept, SlotsAsCalled, LinksAsCalled, InOrder, TwoWay, Hits, SinkWillClose;
  }

  lemma ControlCount(a: Net, sid: Sid, j: Control)
    requires sid in a.ctls && SameStreams(a.ctls[sid], j)
    ensures ProbesOut(WithControl(a, sid, j), sid, j) == ProbesOut(a, sid, a.ctls[sid])
    ensures PlanOf(WithControl(a, sid, j), j) == PlanOf(a, a.ctls[sid])
  {
    assert forall n :: SlotOf(WithControl(a, sid, j), n, sid) == SlotOf(a, n, sid);
  }

  lemma EntryHits(a: Net, sid: Sid, k: Control, p: Plan)
    requires Topology(a, sid) && k == a.ctls[sid] && p == PlanOf(a, k) && k.published
    ensures p.entry != p.caller && p.entry != p.answer && k.join.Some? && !p.EntryIsHome()
    ensures TowardSink(p, k, TwoWay(SlotOf(a, p.entry, sid), OwnProbe(sid)), sid) <= 1
  {
    assert SessionAsCalled(p, p.entry, SlotOf(a, p.entry, sid));
  }

  lemma HomeHits(a: Net, sid: Sid, k: Control, p: Plan)
    requires Topology(a, sid) && k == a.ctls[sid] && p == PlanOf(a, k) && k.cmd.Replied?
    ensures p.home != p.caller && p.home != p.answer && k.join.Some? && !p.EntryIsHome()
    ensures TowardSink(p, k, TwoWay(SlotOf(a, p.home, sid), OwnProbe(sid)), sid) <= One(p.Spread())
  {
    assert SessionAsCalled(p, p.home, SlotOf(a, p.home, sid));
  }

  lemma ProbeIsQuiet(s: Slot, sid: Sid)
    ensures !TwoWay(s, OwnProbe(sid)).emits && !TwoWay(s, OwnProbe(sid)).starts
  {}

  /** The entry or the access node records that it has probed, and sends the probe. */
  lemma ProbingSound(a: Net, sid: Sid, j: Control, n: NodeId)
    requires Sound(a, sid) && SameStreams(a.ctls[sid], j) && InOrder(a.clients, PlanOf(a, a.ctls[sid]), j)
    requires var k := a.ctls[sid];
             var p := PlanOf(a, k);
             && j.cmd == k.cmd && (k.probedE ==> j.probedE) && (k.probedA ==> j.probedA)
             && n != p.caller && n != p.answer
             && TowardSink(p, k, TwoWay(SlotOf(a, n, sid), OwnProbe(sid)), sid) <= ProbesSent(p, j) - ProbesSent(p, k)
    ensures Sound(SendBothWays(WithControl(a, sid, j), n, sid, OwnProbe(sid)), sid)
  {
    hide Topology;
    var k := a.ctls[sid];
    var a1 := WithControl(a, sid, j);
    var b := SendBothWays(a1, n, sid, OwnProbe(sid));
    var out := TwoWay(SlotOf(a, n, sid), OwnProbe(sid));
    assert SlotOf(a1, n, sid) == SlotOf(a, n, sid) && b == Commit(a1, n, sid, out) && a1.ctls[sid] == j;
    assert a1.emitted == a.emitted && a1.started == a.started && sid in a1.ctls && Tally(a, sid) && One(false) == 0;
    assert TowardSink(PlanOf(a, k), j, out, sid) == TowardSink(PlanOf(a, k), k, out, sid) by { hide PlanOf, Hits; }
    hide *;
    ControlSound(a, sid, j);
    ControlCount(a, sid, j);
    SoundParts(a1, sid);
    ControlKeepsClients(a, a1, sid, j);
    ProbeBothWaysMail(a1, n, sid);
    ProbeBothWaysCount(a1, n, sid);
    BothWaysTopology(a1, n, sid, OwnProbe(sid));
    CommitHistory(a1, n, sid, out);
    ProbeIsQuiet(SlotOf(a1, n, sid), sid);
    TallyAfterProbing(a, b, sid, k, j, PlanOf(a, k));
    IntoSound(b, sid);
  }

  lemma SoundParts(a: Net, sid: Sid)
    requires Sound(a, sid)
    ensures Topology(a, sid) && Mail(a, sid) && Tally(a, sid)
  {}

  lemma IntoSound(a: Net, sid: Sid)
    requires Topology(a, sid) && Mail(a, sid) && Tally(a, sid)
    ensures Sound(a, sid)
  {}

  lemma ControlKeepsClients(a: Net, b: Net, sid: Sid, j: Control)
    requires sid in a.ctls && sid in b.ctls && b.ctls[sid] == j && SameStreams(a.ctls[sid], j)
    requires PlanOf(b, j) == PlanOf(a, a.ctls[sid])
    ensures PlanOf(b, b.ctls[sid]).caller == PlanOf(a, a.ctls[sid]).caller
            && PlanOf(b, b.ctls[sid]).answer == PlanOf(a, a.ctls[sid]).answer
  {}

  lemma TallyAfterProbing(a: Net, b: Net, sid: Sid, k: Control, j: Control, p: Plan)
    requires Tally(a, sid) && k == a.ctls[sid] && sid in b.ctls && j == b.ctls[sid] && SameStreams(k, j)
             && j.cmd == k.cmd
    requires p == PlanOf(a, k) && PlanOf(b, j) == p && b.started == a.started && b.emitted[sid] == a.emitted[sid]
    requires ProbesOut(b, sid, j) - ProbesOut(a, sid, k) <= ProbesSent(p, j) - ProbesSent(p, k)
    ensures Tally(b, sid)
  {
    hide PlanOf, ProbesOut, ProbesSent;
  }

  lemma ProbeFromEntrySound(a: Net, sid: Sid)
    requires Sound(a, sid) && EnabledTask(a, ProbeFromEntry(sid))
    ensures Sound(DoTask(a, ProbeFromEntry(sid)), sid)
  {
    var k := a.ctls[sid];
    EntryHits(a, sid, k, PlanOf(a, k));
    assert InOrder(a.clients, PlanOf(a, k), k.(probedE := true));
    hide Topology, TowardSink, Mail, Tally;
    ProbingSound(a, sid, k.(probedE := true), k.entry);
  }

  lemma ExpandReplySound(a: Net, sid: Sid)
    requires Sound(a, sid) && EnabledTask(a, ExpandReply(sid))
    ensures Sound(DoTask(a, ExpandReply(sid)), sid)
  {
    var k := a.ctls[sid];
    HomeHits(a, sid, k, PlanOf(a, k));
    assert InOrder(a.clients, PlanOf(a, k), k.(probedA := true));
    hide Topology, TowardSink, Mail, Tally;
    ProbingSound(a, sid, k.(probedA := true), k.home);
  }

  lemma CmdReadied(a: Net, sid: Sid)
    requires Sound(a, sid) && EnabledTask(a, CmdReady(sid))
    ensures var k := a.ctls[sid];
            var b := WithControl(a, sid, k.(cmd := Replied(true)));
            && ReadyToEmit(b, sid) && PlanOf(b, b.ctls[sid]).RelayIsEntry() && !PlanOf(b, b.ctls[sid]).SinkIsHome()
            && AcceptorOf(a, k.hop).value == k.entry && k.home != k.entry
            && DoTask(a, CmdReady(sid)) == SendBothWays(b, k.entry, sid, Success(sid))
  {
    var k := a.ctls[sid];
    var j := k.(cmd := Replied(true));
    var p := PlanOf(a, k);
    RelayOf(a, sid);
    assert InOrder(a.clients, p, j) && p.Complete() && a.emitted[sid] == 0;
    ControlSound(a, sid, j);
  }

  lemma CmdReadySound(a: Net, sid: Sid)
    requires Sound(a, sid) && EnabledTask(a, CmdReady(sid))
    ensures Sound(DoTask(a, CmdReady(sid)), sid)
  {
    var k := a.ctls[sid];
    CmdReadied(a, sid);
    hide Sound;
    SuccessBothWays(WithControl(a, sid, k.(cmd := Replied(true))), k.entry, sid);
  }

  lemma SoundInOrder(a: Net, sid: Sid)
    requires Sound(a, sid)
    ensures Topology(a, sid) && sid in a.ctls && InOrder(a.clients, PlanOf(a, a.ctls[sid]), a.ctls[sid])
  {}

  lemma JoinDone(a: Net, k: Control)
    requires Done(a, k.join)
    ensures PlanOf(a, k).join.attached && (PlanOf(a, k).EntryIsHome() <==> k.home == k.entry)
  {}

  lemma ControlTaskSound(a: Net, st: Step)
    requires st.JoinRefuse? || st.JoinGiveUp? || st.Publish? || st.CmdRefuse? || st.ReachGiveUp? || st.HopGiveUp?
             || st.BridgeGiveUp?
    requires EnabledTask(a, st) && Sound(a, st.sid) && st.sid !in DoTask(a, st).broken
    ensures Sound(DoTask(a, st), st.sid)
  {
    hide Sound, Topology, PlanOf, HalfOpen, Close, RelaySlot, SlotOf;
    SoundInOrder(a, st.sid);
    var k := a.ctls[st.sid];
    if st.CmdRefuse? { RelayOf(a, st.sid); }
    if st.Publish? { JoinDone(a, k); }
    match st
    case JoinRefuse(sid) => ControlSound(a, sid, k.(endedE := true));
    case JoinGiveUp(sid) => ControlSound(a, sid, k.(endedE := true));
    case Publish(sid) => ControlSound(a, sid, k.(published := true));
    case _ =>
  }

  lemma TaskSound(a: Net, st: Step)
    requires !IsRelayStep(st) && !st.Dial? && EnabledTask(a, st) && Sound(a, st.sid)
    requires st.sid !in DoTask(a, st).broken
    ensures Sound(DoTask(a, st), st.sid)
  {
    hide Sound, DoTask, EnabledTask;
    match st
    case DialAttach(sid) => DialAttachSound(a, sid);
    case JoinOpen(sid, peer) => JoinOpenSound(a, sid, peer);
    case JoinAttach(sid) => JoinAttachSound(a, sid);
    case ProbeFromEntry(sid) => ProbeFromEntrySound(a, sid);
    case ReachOpen(sid) => ReachOpenSound(a, sid);
    case ReachAttach(sid) => ReachAttachSound(a, sid);
    case HopOpen(sid, peer) => HopOpenSound(a, sid, peer);
    case HopAttach(sid) => HopAttachSound(a, sid);
    case CmdReady(sid) => CmdReadySound(a, sid);
    case BridgeOpen(sid) => BridgeOpenSound(a, sid);
    case BridgeAttach(sid) => BridgeAttachSound(a, sid);
    case ExpandReply(sid) => ExpandReplySound(a, sid);
    case _ => ControlTaskSound(a, st);
  }

  // ---- the relay handlers --------------------------------------------------------------------------

  predicate ServerSlot(k: Control, s: Slot) {
    s.session.Some? && (s.session.value.Ready() || s.session.value.role == Sink) ==>
      ServerEnd(k, s.session.value.early) && ServerEnd(k, s.session.value.later)
  }

  /** A client's session is never ready, so only servers forward. */
  lemma ServerSlots(a: Net, n: NodeId, sid: Sid)
    requires Topology(a, sid)
    ensures ServerSlot(a.ctls[sid], SlotOf(a, n, sid))
  {
    var p := PlanOf(a, a.ctls[sid]);
    assert SessionAsCalled(p, n, SlotOf(a, n, sid));
    if n != p.caller && n != p.answer { ServerEnds(a, n, sid); }
  }

  /** A probe forwarded by a node goes to a server, not back to a client. */
  lemma TrafficInPlace(k: Control, rerouted: bool, emitted: bool, s: Slot, e: End, sid: Sid, m: Message)
    requires IsTraffic(m) && ServerSlot(k, s) && InPlace(k, rerouted, emitted, e.link, e.opener, m)
    requires Carries(m, sid) && (s.probe.Some? ==> s.probe.value == ProbeRand(sid))
    ensures var out := OnMessage(s, e, sid, m);
            && WriteInPlace(k, rerouted, emitted || out.emits, out.first)
            && WriteInPlace(k, rerouted, emitted || out.emits, out.second)
  {}

  lemma TrafficWrites(a: Net, e: End, m: Message)
    requires WellFormed(a) && EnabledRelay(a, Deliver(e, m)) && IsTraffic(m)
    requires Topology(a, a.links[e.link].sid) && Mail(a, a.links[e.link].sid)
    ensures var sid := a.links[e.link].sid;
            var k := a.ctls[sid];
            var out := OnMessage(SlotOf(a, OwnerOf(a, e), sid), e, sid, m);
            && InPlace(k, PlanOf(a, k).Rerouted(), a.emitted[sid] > 0, e.link, e.opener, m)
            && WriteInPlace(k, PlanOf(a, k).Rerouted(), a.emitted[sid] > 0 || out.emits, out.first)
            && WriteInPlace(k, PlanOf(a, k).Rerouted(), a.emitted[sid] > 0 || out.emits, out.second)
  {
    var sid, n := a.links[e.link].sid, OwnerOf(a, e);
    var k := a.ctls[sid];
    var r := PlanOf(a, k).Rerouted();
    TrafficStep(a, e, m);
    ServerSlots(a, n, sid);
    assert InPlace(k, r, a.emitted[sid] > 0, e.link, e.opener, m);
    hide Topology, WellFormed, OnMessage, DoDeliver;
    TrafficInPlace(k, r, a.emitted[sid] > 0, SlotOf(a, n, sid), e, sid, m);
  }

  lemma TakingMail(a: Net, e: End, m: Message, sid: Sid, k: Control, rerouted: bool, emitted: bool, open: bool)
    requires Known(a, e) && MailIn(a.links, sid, k, rerouted, emitted) && (emitted ==> open)
    ensures MailIn(Take(a, e, m, StateOf(a, e).handler).links, sid, k, rerouted, open)
  {
    var n1 := Take(a, e, m, StateOf(a, e).handler);
    hide MailIn;
    ShrinkMail(a.links, n1.links, sid, k, k, rerouted, rerouted, emitted, open);
  }

  lemma TrafficMail(a: Net, e: End, m: Message)
    requires WellFormed(a) && EnabledRelay(a, Deliver(e, m)) && IsTraffic(m)
    requires Topology(a, a.links[e.link].sid) && Mail(a, a.links[e.link].sid)
    ensures Mail(DoDeliver(a, e, m), a.links[e.link].sid)
  {
    var sid, n := a.links[e.link].sid, OwnerOf(a, e);
    var k := a.ctls[sid];
    var r := PlanOf(a, k).Rerouted();
    var n1 := Take(a, e, m, StateOf(a, e).handler);
    var out := OnMessage(SlotOf(a, n, sid), e, sid, m);
    var open := a.emitted[sid] > 0 || out.emits;
    TrafficStep(a, e, m);
    TrafficWrites(a, e, m);
    TrafficKeepsShape(a, e, m);
    ShapeKeepsPlan(a, DoDeliver(a, e, m), sid);
    hide Topology, WellFormed, MailIn, ShapeKept, PlanOf, OnMessage, DoDeliver, InPlace, WriteInPlace, SlotOk, EndOk,
         Post, Shut;
    TakingMail(a, e, m, sid, k, r, a.emitted[sid] > 0, open);
    CommitMail(n1, n, sid, out, k, r, open);
  }

  /** How many of the streams counted for the probes the message was taken from. */
  function Taken(p: Plan, k: Control, e: End): nat {
    if e.opener then 0
    else One(k.join == Some(e.link)) + if p.Spread() then One(k.hop == Some(e.link)) + One(k.bridge == Some(e.link))
        else 0
  }

  /** A node passes a probe on towards the sink only if it came that way, and the sink stores the first
      probe and originates a Success on the next. */
  predicate ProbeHandled(p: Plan, k: Control, n: NodeId, s: Slot, e: End, sid: Sid) {
    var out := OnProbe(s, e, sid, OwnProbe(sid));
    && !out.starts
    && (out.slot.probe != s.probe ==> n == p.join.acceptor && k.join.Some?)
    && (out.emits ==> n == p.join.acceptor && s.probe.Some? && out.slot == s && k.join.Some? && !p.EntryIsHome()
                      && Taken(p, k, e) == 1 && TowardSink(p, k, out, sid) == 0)
    && (!out.emits ==> TowardSink(p, k, out, sid) + One(out.slot.probe.Some?) <= Taken(p, k, e) + One(s.probe.Some?))
  }

  /** The facts about one stream end that the cases below rest on. */
  ghost predicate ProbeSite(clients: set<NodeId>, p: Plan, k: Control, n: NodeId, s: Slot, e: End, sid: Sid) {
    && InOrder(clients, p, k) && SessionAsCalled(p, n, s) && CircuitAsCalled(p, n, s)
    && (s.probe.Some? ==> s.probe.value == ProbeRand(sid))
    && p.dial.id == Some(k.dial) && p.join.id == k.join && p.reach.id == k.reach && p.hop.id == k.hop
       && p.bridge.id == k.bridge
    && k.join != Some(k.dial) && (k.reach.Some? ==> k.reach != Some(k.dial) && k.reach != k.join)
    && (k.hop.Some? ==> k.hop != Some(k.dial) && k.hop != k.join && k.hop != k.reach)
    && (k.bridge.Some? ==> k.bridge != Some(k.dial) && k.bridge != k.join && k.bridge != k.reach && k.bridge != k.hop)
  }

  lemma ProbeAtDial(clients: set<NodeId>, p: Plan, k: Control, n: NodeId, s: Slot, e: End, sid: Sid)
    requires ProbeSite(clients, p, k, n, s, e, sid) && e == End(k.dial, true) && n == p.caller
    ensures ProbeHandled(p, k, n, s, e, sid)
  {}

  lemma ProbeAtJoin(clients: set<NodeId>, p: Plan, k: Control, n: NodeId, s: Slot, e: End, sid: Sid)
    requires ProbeSite(clients, p, k, n, s, e, sid) && k.join == Some(e.link)
    requires n == if e.opener then p.entry else p.join.acceptor
    ensures ProbeHandled(p, k, n, s, e, sid)
  {
    hide Abandoned;
  }

  lemma ProbeAtReach(clients: set<NodeId>, p: Plan, k: Control, n: NodeId, s: Slot, e: End, sid: Sid)
    requires ProbeSite(clients, p, k, n, s, e, sid) && k.reach == Some(e.link) && !e.opener && n == p.answer
    ensures ProbeHandled(p, k, n, s, e, sid)
  {}

  lemma ProbeAtHop(clients: set<NodeId>, p: Plan, k: Control, n: NodeId, s: Slot, e: End, sid: Sid)
    requires ProbeSite(clients, p, k, n, s, e, sid) && k.hop == Some(e.link)
    requires n == if e.opener then p.home else p.hop.acceptor
    ensures ProbeHandled(p, k, n, s, e, sid)
  {}

  lemma ProbeAtBridge(clients: set<NodeId>, p: Plan, k: Control, n: NodeId, s: Slot, e: End, sid: Sid)
    requires ProbeSite(clients, p, k, n, s, e, sid) && k.bridge == Some(e.link)
    requires n == if e.opener then p.hop.acceptor else p.join.acceptor
    ensures ProbeHandled(p, k, n, s, e, sid)
  {}

  lemma ProbeAtNode(a: Net, e: End, sid: Sid)
    requires Topology(a, sid) && Known(a, e) && a.links[e.link].sid == sid
    requires InPlace(a.ctls[sid], PlanOf(a, a.ctls[sid]).Rerouted(), a.emitted[sid] > 0, e.link, e.opener,
                        OwnProbe(sid))
    requires var s := SlotOf(a, OwnerOf(a, e), sid); s.probe.Some? ==> s.probe.value == ProbeRand(sid)
    ensures ProbeHandled(PlanOf(a, a.ctls[sid]), a.ctls[sid], OwnerOf(a, e), SlotOf(a, OwnerOf(a, e), sid), e, sid)
  {
    var k, n := a.ctls[sid], OwnerOf(a, e);
    var p, s := PlanOf(a, k), SlotOf(a, n, sid);
    assert SessionAsCalled(p, n, s) && CircuitAsCalled(p, n, s);
    assert ProbeSite(a.clients, p, k, n, s, e, sid);
    hide SlotsAsCalled, LinksAsCalled, SinkWillClose, InOrder, SessionAsCalled, CircuitAsCalled, ProbeHandled,
         ProbeSite;
    if e.link == k.dial { ProbeAtDial(a.clients, p, k, n, s, e, sid); }
    else if k.join == Some(e.link) { ProbeAtJoin(a.clients, p, k, n, s, e, sid); }
    else if k.reach == Some(e.link) { ProbeAtReach(a.clients, p, k, n, s, e, sid); }
    else if k.hop == Some(e.link) { ProbeAtHop(a.clients, p, k, n, s, e, sid); }
    else { ProbeAtBridge(a.clients, p, k, n, s, e, sid); }
  }

  /** Taking a message from an inbox. */
  lemma TakingCount(a: Net, e: End, m: Message, h: Handler, sid: Sid, k: Control)
    requires Known(a, e) && m in StateOf(a, e).inbox && sid in a.ctls
    requires PlanOf(Take(a, e, m, h), k) == PlanOf(a, k)
    ensures ProbesOut(Take(a, e, m, h), sid, k) + (if m == OwnProbe(sid) then Taken(PlanOf(a, k), k, e) else 0)
         == ProbesOut(a, sid, k)
  {
    var n1 := Take(a, e, m, h);
    TakingFrom(a, e, m, h, sid, k.join);
    TakingFrom(a, e, m, h, sid, k.hop);
    TakingFrom(a, e, m, h, sid, k.bridge);
    assert forall n :: SlotOf(n1, n, sid) == SlotOf(a, n, sid);
    hide PlanOf, ProbesIn, Take;
  }

  lemma TakingFrom(a: Net, e: End, m: Message, h: Handler, sid: Sid, l: Option<LinkId>)
    requires Known(a, e) && m in StateOf(a, e).inbox
    ensures ProbesIn(Take(a, e, m, h).links, sid, l) + One(m == OwnProbe(sid) && !e.opener && l == Some(e.link))
         == ProbesIn(a.links, sid, l)
  {}

  /** Committing an outcome that leaves the plan alone. */
  lemma CommitProbes(a: Net, n: NodeId, sid: Sid, out: Outcome, k: Control)
    requires PlanOf(Commit(a, n, sid, out), k) == PlanOf(a, k)
    requires (k.join.Some? ==> k.join.value < |a.links|) && (k.hop.Some? ==> k.hop.value < |a.links|)
    requires k.bridge.Some? ==> k.bridge.value < |a.links|
    requires out.slot.probe != SlotOf(a, n, sid).probe ==> n == PlanOf(a, k).join.acceptor
    ensures var p := PlanOf(a, k);
            ProbesOut(Commit(a, n, sid, out), sid, k) + One(SlotOf(a, n, sid).probe.Some?)
            == ProbesOut(a, sid, k) + TowardSink(p, k, out, sid) + One(out.slot.probe.Some?)
  {
    hide PlanOf, Hits, ProbesIn, Commit;
    CommitCount(a, n, sid, out, k.join);
    CommitCount(a, n, sid, out, k.hop);
    CommitCount(a, n, sid, out, k.bridge);
    CommittedSlot(a, n, sid, out, PlanOf(a, k).join.acceptor);
  }

  lemma CommittedSlot(a: Net, n: NodeId, sid: Sid, out: Outcome, x: NodeId)
    ensures SlotOf(Commit(a, n, sid, out), x, sid) == if n == x then out.slot else SlotOf(a, x, sid)
  {
  }

  lemma LinksInRange(a: Net, sid: Sid)
    requires Topology(a, sid)
    ensures var k := a.ctls[sid];
            && (k.join.Some? ==> k.join.value < |a.links|) && (k.hop.Some? ==> k.hop.value < |a.links|)
            && (k.bridge.Some? ==> k.bridge.value < |a.links|)
  {}

  /** When the second probe reaches the sink, both have been sent, and the circuit is complete. */
  lemma SecondProbe(a: Net, sid: Sid, taken: nat)
    requires Topology(a, sid) && Tally(a, sid) && taken == 1
    requires var k := a.ctls[sid];
             var p := PlanOf(a, k);
             && k.join.Some? && !p.EntryIsHome()
             && ProbesOut(a, sid, k) >= taken + 1
    ensures a.emitted[sid] == 0 && PlanOf(a, a.ctls[sid]).Complete() && PlanOf(a, a.ctls[sid]).Spread()
  {
    hide SlotsAsCalled, LinksAsCalled, Streams, SinkWillClose, ProbesOut;
  }

  /** Traffic leaves the plan alone, and is taking followed by committing. */
  lemma TrafficPlans(a: Net, e: End, m: Message)
    requires WellFormed(a) && EnabledRelay(a, Deliver(e, m)) && IsTraffic(m) && a.links[e.link].sid in a.ctls
    ensures var sid, n := a.links[e.link].sid, OwnerOf(a, e);
            var k, n1 := a.ctls[sid], Take(a, e, m, StateOf(a, e).handler);
            && DoDeliver(a, e, m) == Commit(n1, n, sid, OnMessage(SlotOf(a, n, sid), e, sid, m))
            && PlanOf(n1, k) == PlanOf(a, k) && PlanOf(DoDeliver(a, e, m), k) == PlanOf(a, k)
            && DoDeliver(a, e, m).ctls == a.ctls
            && (SlotOf(a, n, sid).probe.Some? ==> SlotOf(a, n, sid).probe.value == ProbeRand(sid))
  {
    var sid := a.links[e.link].sid;
    TrafficStep(a, e, m);
    TrafficKeepsShape(a, e, m);
    TakingKeepsShape(a, e, m, sid);
    hide WellFormed, DoDeliver, OnMessage, ShapeKept, PlanOf;
    ShapeKeepsPlan(a, Take(a, e, m, StateOf(a, e).handler), sid);
    ShapeKeepsPlan(a, DoDeliver(a, e, m), sid);
  }

  lemma ProbeTally(a: Net, e: End, sid: Sid)
    requires WellFormed(a) && EnabledRelay(a, Deliver(e, OwnProbe(sid))) && Sound(a, sid) && a.links[e.link].sid == sid
    ensures Tally(DoDeliver(a, e, OwnProbe(sid)), sid)
  {
    var m, n := OwnProbe(sid), OwnerOf(a, e);
    var k := a.ctls[sid];
    TrafficPlans(a, e, m);
    TrafficWrites(a, e, m);
    hide Topology, WellFormed, Mail, Tally, Commit, Take, PlanOf, ProbeHandled, DoDeliver, InPlace, WriteInPlace;
    ProbeAtNode(a, e, sid);
    ProbeTallies(a, e, Take(a, e, m, StateOf(a, e).handler), OnMessage(SlotOf(a, n, sid), e, sid, m), k, PlanOf(a, k));
  }

  lemma ProbeTallies(a: Net, e: End, n1: Net, out: Outcome, k: Control, p: Plan)
    requires Known(a, e) && a.links[e.link].sid in a.ctls && k == a.ctls[a.links[e.link].sid] && p == PlanOf(a, k)
    requires Topology(a, a.links[e.link].sid) && Tally(a, a.links[e.link].sid)
    requires OwnProbe(a.links[e.link].sid) in StateOf(a, e).inbox
    requires n1 == Take(a, e, OwnProbe(a.links[e.link].sid), StateOf(a, e).handler) && PlanOf(n1, k) == p
    requires var sid, n := a.links[e.link].sid, OwnerOf(a, e);
             var s := SlotOf(a, n, sid);
             && out == OnProbe(s, e, sid, OwnProbe(sid)) && ProbeHandled(p, k, n, s, e, sid)
             && PlanOf(Commit(n1, n, sid, out), k) == p
    ensures Tally(Commit(n1, OwnerOf(a, e), a.links[e.link].sid, out), a.links[e.link].sid)
  {
    var sid, n := a.links[e.link].sid, OwnerOf(a, e);
    var b, m := Commit(n1, n, sid, out), OwnProbe(sid);
    ProbeArithmetic(a, e, n1, out, k, p, sid);
    CommitHistory(n1, n, sid, out);
    TakeKeeps(a, e, m, StateOf(a, e).handler, n, sid);
    assert out.emits ==> a.emitted[sid] == 0 && p.Complete() && p.Spread() && !p.RelayIsEntry();
    assert !out.starts by { ProbeStartsNothing(SlotOf(a, n, sid), e, sid); }
    hide *;
    TallyAfterProbe(a, b, sid, k, p, out.emits);
  }

  lemma ProbeStartsNothing(s: Slot, e: End, sid: Sid)
    ensures !OnProbe(s, e, sid, OwnProbe(sid)).starts
  {}

  /** Handling a probe uses it up, and a Success that it sets off uses up the stored one too. */
  lemma ProbeArithmetic(a: Net, e: End, n1: Net, out: Outcome, k: Control, p: Plan, sid: Sid)
    requires Known(a, e) && sid == a.links[e.link].sid && sid in a.ctls && k == a.ctls[sid] && p == PlanOf(a, k)
    requires Topology(a, sid) && Tally(a, sid) && OwnProbe(sid) in StateOf(a, e).inbox
    requires n1 == Take(a, e, OwnProbe(sid), StateOf(a, e).handler) && PlanOf(n1, k) == p
    requires var n := OwnerOf(a, e);
             var s := SlotOf(a, n, sid);
             && out == OnProbe(s, e, sid, OwnProbe(sid)) && ProbeHandled(p, k, n, s, e, sid)
             && PlanOf(Commit(n1, n, sid, out), k) == p
    ensures ProbesOut(Commit(n1, OwnerOf(a, e), sid, out), sid, k) + One(out.emits) <= ProbesOut(a, sid, k)
    ensures out.emits ==> a.emitted[sid] == 0 && p.Complete() && p.Spread() && !p.EntryIsHome() && k.join.Some?
  {
    var n := OwnerOf(a, e);
    hide Topology, PlanOf, Commit, OnProbe, TowardSink, Taken, Tally, ProbesOut;
    LinksInRange(a, sid);
    TakingCount(a, e, OwnProbe(sid), StateOf(a, e).handler, sid, k);
    TakeKeeps(a, e, OwnProbe(sid), StateOf(a, e).handler, n, sid);
    hide Take;
    CommitProbes(n1, n, sid, out, k);
    if out.emits {
      StoredProbe(a, n, sid, k, p, Taken(p, k, e));
      SecondProbe(a, sid, Taken(p, k, e));
    }
  }

  /** The probe stored at the sink counts. */
  lemma StoredProbe(a: Net, n: NodeId, sid: Sid, k: Control, p: Plan, taken: nat)
    requires p == PlanOf(a, k) && n == p.join.acceptor && SlotOf(a, n, sid).probe.Some?
    ensures ProbesOut(a, sid, k) >= 1
  {
    hide PlanOf, ProbesIn;
  }

  lemma TallyAfterProbe(a: Net, b: Net, sid: Sid, k: Control, p: Plan, emits: bool)
    requires Tally(a, sid) && k == a.ctls[sid] && b.ctls == a.ctls && p == PlanOf(a, k) && PlanOf(b, k) == p
    requires b.started == a.started && b.emitted[sid] == a.emitted[sid] + One(emits)
    requires ProbesOut(b, sid, k) + One(emits) <= ProbesOut(a, sid, k)
    requires emits ==> a.emitted[sid] == 0 && p.Complete() && p.Spread() && !p.RelayIsEntry()
    ensures Tally(b, sid)
  {
    hide PlanOf, ProbesOut;
  }

  lemma CommitHistory(a: Net, n: NodeId, sid: Sid, out: Outcome)
    ensures var b := Commit(a, n, sid, out);
            && b.ctls == a.ctls && b.clients == a.clients && (!out.starts ==> b.started == a.started)
            && b.emitted[sid] == a.emitted[sid] + One(out.emits)
  {
    hide Post, Shut;
  }

  /** What a probe does to the slot it meets. */
  lemma ProbeOutcome(s: Slot, e: End, sid: Sid)
    requires s.probe.Some? ==> s.probe.value == ProbeRand(sid)
    ensures var out := OnProbe(s, e, sid, OwnProbe(sid));
            out.slot.circuit == s.circuit && (out.emits ==> s.probe.Some? && out == TwoWay(s, Success(sid)))
  {}

  /** A sink that originates a Success does so on a complete circuit with four different server nodes. */
  lemma ProbeEmits(a: Net, e: End, sid: Sid)
    requires WellFormed(a) && EnabledRelay(a, Deliver(e, OwnProbe(sid))) && Sound(a, sid) && a.links[e.link].sid == sid
    requires OnProbe(SlotOf(a, OwnerOf(a, e), sid), e, sid, OwnProbe(sid)).emits
    ensures var n, k := OwnerOf(a, e), a.ctls[sid];
            var p := PlanOf(a, k);
            a.emitted[sid] == 0 && p.Complete() && p.Spread() && !p.EntryIsHome() && !p.SinkIsHome()
                && n == p.join.acceptor
  {
    var m, n := OwnProbe(sid), OwnerOf(a, e);
    var k := a.ctls[sid];
    var p, s := PlanOf(a, k), SlotOf(a, n, sid);
    TrafficPlans(a, e, m);
    TrafficWrites(a, e, m);
    assert Topology(a, sid) && Tally(a, sid);
    assert InOrder(a.clients, p, k);
    hide Topology, WellFormed, Mail, Sound, Take, PlanOf, DoDeliver, InPlace, WriteInPlace, InOrder, Tally;
    ProbeAtNode(a, e, sid);
    ProbeOutcome(s, e, sid);
    hide OnProbe, TowardSink;
    TakingCount(a, e, m, StateOf(a, e).handler, sid, k);
    assert ProbesOut(a, sid, k) >= 2 by { assert SlotOf(a, p.join.acceptor, sid).probe.Some?; }
    SecondProbe(a, sid, Taken(p, k, e));
    SpreadSink(a.clients, p, k);
  }

  lemma SpreadSink(clients: set<NodeId>, p: Plan, k: Control)
    requires InOrder(clients, p, k) && p.Spread()
    ensures !p.SinkIsHome()
  {}

  /** Successes and data carry no probes; a handshake starts only on a Success. */
  lemma CargoOutcome(s: Slot, e: End, sid: Sid, m: Message, p: Plan, k: Control)
    requires m.Success? || m.Data?
    ensures var out := OnMessage(s, e, sid, m);
            && out.slot.probe == s.probe && TowardSink(p, k, out, sid) == 0 && !out.emits
            && (out.starts ==> m.Success?)
  {}

  lemma CargoTally(a: Net, e: End, m: Message)
    requires WellFormed(a) && EnabledRelay(a, Deliver(e, m)) && (m.Success? || m.Data?) && Sound(a, a.links[e.link].sid)
    ensures Tally(DoDeliver(a, e, m), a.links[e.link].sid)
  {
    var sid, n := a.links[e.link].sid, OwnerOf(a, e);
    var k := a.ctls[sid];
    var p := PlanOf(a, k);
    var n1 := Take(a, e, m, StateOf(a, e).handler);
    var out := OnMessage(SlotOf(a, n, sid), e, sid, m);
    var b := DoDeliver(a, e, m);
    assert m in StateOf(a, e).inbox && m != OwnProbe(sid) && IsTraffic(m) && sid in a.ctls && Topology(a, sid)
           && Mail(a, sid) && Tally(a, sid);
    hide *;
    TrafficPlans(a, e, m);
    CargoStarts(a, e, m);
    if out.starts { StartsAtClient(a, n, e, sid, m); }
    LinksInRange(a, sid);
    CargoOutcome(SlotOf(a, n, sid), e, sid, m, p, k);
    TakingCount(a, e, m, StateOf(a, e).handler, sid, k);
    TakeKeeps(a, e, m, StateOf(a, e).handler, n, sid);
    CommitProbes(n1, n, sid, out, k);
    CommitHistory(n1, n, sid, out);
    CommitStarts(n1, n, sid, out);
    TallyKept(a, b, sid);
  }

  lemma TakeKeeps(a: Net, e: End, m: Message, h: Handler, n: NodeId, sid: Sid)
    requires Known(a, e)
    ensures var n1 := Take(a, e, m, h);
            && n1.started == a.started && n1.emitted == a.emitted && n1.ctls == a.ctls && |n1.links| == |a.links|
            && SlotOf(n1, n, sid) == SlotOf(a, n, sid)
  {}

  /** A handshake starts only at a client. */
  lemma StartsAtClient(a: Net, n: NodeId, e: End, sid: Sid, m: Message)
    requires Topology(a, sid) && (m.Success? || m.Data?) && OnMessage(SlotOf(a, n, sid), e, sid, m).starts
    ensures IsClient(a.ctls[sid], n)
  {
    assert SessionAsCalled(PlanOf(a, a.ctls[sid]), n, SlotOf(a, n, sid));
    hide LinksAsCalled, Streams, InOrder, SinkWillClose;
  }

  /** A handshake starts only after a Success has been originated. */
  lemma CargoStarts(a: Net, e: End, m: Message)
    requires WellFormed(a) && EnabledRelay(a, Deliver(e, m)) && (m.Success? || m.Data?)
    requires Topology(a, a.links[e.link].sid) && Mail(a, a.links[e.link].sid)
    ensures a.emitted[a.links[e.link].sid] > 0
  {
    hide WellFormed, Topology, PlanOf;
    assert InPlace(a.ctls[a.links[e.link].sid], PlanOf(a, a.ctls[a.links[e.link].sid]).Rerouted(),
                      a.emitted[a.links[e.link].sid] > 0, e.link, e.opener, m);
  }

  lemma CommitStarts(a: Net, n: NodeId, sid: Sid, out: Outcome)
    ensures forall x :: Commit(a, n, sid, out).started[(x, sid)] > 0 ==>
                a.started[(x, sid)] > 0 || (out.starts && x == n)
  {
    hide Post, Shut;
  }

  lemma WakeSound(a: Net, e: End)
    requires WellFormed(a) && EnabledRelay(a, Deliver(e, Wake)) && Sound(a, a.links[e.link].sid)
    ensures Sound(DoDeliver(a, e, Wake), a.links[e.link].sid)
  {
    WakeTopology(a, e);
    assert LinkOk(a.links[e.link]);
    TakenSound(a, e, Wake);
  }

  /** Losing one unread message. */
  lemma TakenSound(a: Net, e: End, m: Message)
    requires Known(a, e) && m in StateOf(a, e).inbox && !m.SetSession? && Sound(a, a.links[e.link].sid)
    ensures var b := Take(a, e, m, StateOf(a, e).handler);
            Mail(b, a.links[e.link].sid) && Tally(b, a.links[e.link].sid)
  {
    var sid := a.links[e.link].sid;
    var k := a.ctls[sid];
    var b := Take(a, e, m, StateOf(a, e).handler);
    TakingKeepsShape(a, e, m, sid);
    ShapeKeepsPlan(a, b, sid);
    TakingCount(a, e, m, StateOf(a, e).handler, sid, k);
    TakingMail(a, e, m, sid, k, PlanOf(a, k).Rerouted(), a.emitted[sid] > 0, a.emitted[sid] > 0);
    hide Topology, PlanOf, ProbesOut, ShapeKept, MailIn;
    TallyKept(a, b, sid);
  }

  lemma LoseSound(a: Net, e: End, m: Message)
    requires WellFormed(a) && EnabledRelay(a, Lose(e, m)) && Sound(a, a.links[e.link].sid)
    ensures Sound(DoRelay(a, Lose(e, m)), a.links[e.link].sid)
  {
    hide WellFormed, Take, Topology, Mail, Tally;
    LoseTopology(a, e, m);
    LosesNoSetSession(a, e, m);
    TakenSound(a, e, m);
  }

  lemma LosesNoSetSession(a: Net, e: End, m: Message)
    requires WellFormed(a) && EnabledRelay(a, Lose(e, m)) && Topology(a, a.links[e.link].sid)
    ensures !m.SetSession? && Carries(m, a.links[e.link].sid)
  {
    var sid := a.links[e.link].sid;
    assert HandshakeOk(a.links[e.link], AskedRole(a.ctls[sid], e.link)) && LinkOk(a.links[e.link]) && Carries(m, sid);
  }

  lemma SendCount(a: Net, n: NodeId, sid: Sid, payload: Payload)
    requires EnabledRelay(a, Send(n, sid, payload)) && sid in a.ctls
    ensures var b, k := DoSend(a, n, sid, payload), a.ctls[sid];
            PlanOf(b, k) == PlanOf(a, k) && ProbesOut(b, sid, k) == ProbesOut(a, sid, k)
  {
    var b := DoSend(a, n, sid, payload);
    var w := Some(Write(SlotOf(a, n, sid).circuit.value.out, Data(sid, payload)));
    SendKeepsShape(a, n, sid, payload);
    ShapeKeepsPlan(a, b, sid);
    assert forall x :: SlotOf(b, x, sid).probe == SlotOf(a, x, sid).probe;
    PostCount(a.links, sid, a.ctls[sid].join, w);
    PostCount(a.links, sid, a.ctls[sid].hop, w);
    PostCount(a.links, sid, a.ctls[sid].bridge, w);
    hide PlanOf, ShapeKept, ProbesIn;
  }

  lemma SendSound(a: Net, n: NodeId, sid: Sid, payload: Payload)
    requires WellFormed(a) && EnabledRelay(a, Send(n, sid, payload)) && Sound(a, sid)
    ensures Sound(DoSend(a, n, sid, payload), sid)
  {
    hide WellFormed, Topology;
    var b := DoSend(a, n, sid, payload);
    var k := a.ctls[sid];
    var w := Some(Write(SlotOf(a, n, sid).circuit.value.out, Data(sid, payload)));
    SendKeepsShape(a, n, sid, payload);
    SendCount(a, n, sid, payload);
    ShapeTopology(a, b, sid);
    assert a.emitted[sid] > 0;
    hide PlanOf, ShapeKept, MailIn, Post, ProbesOut;
    PostMail(a.links, sid, k, PlanOf(a, k).Rerouted(), true, w);
    TallyKept(a, b, sid);
  }

  lemma AcceptedMail(links: seq<Link>, sid: Sid, k: Control, l: LinkId, m: Message, rerouted: bool, emitted: bool)
    requires MailIn(links, sid, k, rerouted, emitted) && l < |links|
    ensures MailIn(links[l := AcceptedLink(links[l], m)], sid, k, rerouted, emitted)
  {
    hide MailIn;
    ShrinkMail(links, links[l := AcceptedLink(links[l], m)], sid, k, k, rerouted, rerouted, emitted, emitted);
  }

  lemma AbandonedMail(links: seq<Link>, sid: Sid, k: Control, i: LinkId, rerouted: bool, emitted: bool)
    requires MailIn(links, sid, k, rerouted, emitted) && i < |links| && links[i].sid == sid && k.join == Some(i)
    ensures MailIn(links[i := AbandonedLink(links[i])], sid, k, true, emitted)
  {
    var w := Some(Write(End(i, true), Disconnect(sid)));
    var l1 := Post(links, w);
    ShrinkMail(links, links, sid, k, k, rerouted, true, emitted, emitted);
    PostMail(links, sid, k, true, emitted, w);
    assert Shut(l1, Some(End(i, true))) == links[i := AbandonedLink(links[i])];
    hide MailIn;
    ShrinkMail(l1, Shut(l1, Some(End(i, true))), sid, k, k, true, true, emitted, emitted);
  }

  lemma TopologyStreams(a: Net, sid: Sid)
    requires Topology(a, sid)
    ensures sid in a.ctls && Streams(a.links, sid, a.ctls[sid])
  {}

  /** The streams after a set-session message has been read. */
  lemma AcceptedStreams(a: Net, e: End, m: Message, sid: Sid)
    requires WellFormed(a) && EnabledRelay(a, Deliver(e, m)) && m.SetSession? && sid == a.links[e.link].sid
             && Topology(a, sid)
    ensures var k, b := a.ctls[sid], DoDeliver(a, e, m);
            var l1 := a.links[e.link := AcceptedLink(a.links[e.link], m)];
            && b.ctls == a.ctls && b.emitted == a.emitted
            && (Reroutes(PlanOf(a, k), k, e.link) ==>
                  k.join.Some? && k.join.value < |a.links| && k.join.value != e.link && a.links[k.join.value].sid == sid
                  && b.links == l1[k.join.value := AbandonedLink(l1[k.join.value])])
            && (!Reroutes(PlanOf(a, k), k, e.link) ==> b.links == l1)
            && PlanOf(b, k) == Accepting(PlanOf(a, k), k, e.link)
            && !PlanOf(a, k).Rerouted() && (PlanOf(b, k).Rerouted() <==> Reroutes(PlanOf(a, k), k, e.link))
  {
    hide WellFormed, AcceptsTo, InOrder, DoDeliver, AskedRole, Attach, Topology, Streams, WithCircuit, SlotOf, PlanOf,
         Accepting, LegAt;
    TopologyStreams(a, sid);
    var k, b := a.ctls[sid], DoDeliver(a, e, m);
    AcceptForm(a, e, m);
    PlanAfterAccepting(a, b, sid, k, e.link);
  }

  lemma AcceptMail(a: Net, e: End, m: Message)
    requires WellFormed(a) && EnabledRelay(a, Deliver(e, m)) && m.SetSession? && Sound(a, a.links[e.link].sid)
    ensures Mail(DoDeliver(a, e, m), a.links[e.link].sid)
    ensures PlanOf(DoDeliver(a, e, m), a.ctls[a.links[e.link].sid])
         == Accepting(PlanOf(a, a.ctls[a.links[e.link].sid]), a.ctls[a.links[e.link].sid], e.link)
  {
    var sid := a.links[e.link].sid;
    var k := a.ctls[sid];
    var p := PlanOf(a, k);
    hide WellFormed, MailIn, DoDeliver, Topology, Tally, PlanOf, Accepting, Reroutes, AcceptedLink, AbandonedLink,
         EnabledRelay;
    AcceptedStreams(a, e, m, sid);
    AcceptedMail(a.links, sid, k, e.link, m, p.Rerouted(), a.emitted[sid] > 0);
    if Reroutes(p, k, e.link) {
      AbandonedMail(a.links[e.link := AcceptedLink(a.links[e.link], m)], sid, k, k.join.value, p.Rerouted(),
                       a.emitted[sid] > 0);
    }
  }

  lemma AcceptedCount(links: seq<Link>, sid: Sid, l: LinkId, m: Message)
    requires l < |links| && m.SetSession?
    ensures forall x :: ProbesIn(links[l := AcceptedLink(links[l], m)], sid, x) == ProbesIn(links, sid, x)
  {}

  lemma AbandonedCount(links: seq<Link>, sid: Sid, i: LinkId)
    requires i < |links|
    ensures forall x :: ProbesIn(links[i := AbandonedLink(links[i])], sid, x) == ProbesIn(links, sid, x)
  {}

  lemma AcceptedSlot(a: Net, e: End, m: Message)
    requires WellFormed(a) && EnabledRelay(a, Deliver(e, m)) && m.SetSession? && Topology(a, a.links[e.link].sid)
    ensures var sid, n0, b := a.links[e.link].sid, OwnerOf(a, e), DoDeliver(a, e, m);
            && b.slots == a.slots[(n0, sid) := SlotOf(b, n0, sid)]
               && SlotOf(b, n0, sid).probe == SlotOf(a, n0, sid).probe
            && b.ctls == a.ctls && b.emitted == a.emitted && b.started == a.started
  {
    AcceptForm(a, e, m);
    hide WellFormed, AcceptsTo, InOrder, DoDeliver, AskedRole, Topology, PlanOf, Accepting, LegAt, Reroutes,
         AcceptedLink, AbandonedLink;
  }

  lemma AcceptHistory(a: Net, e: End, m: Message)
    requires WellFormed(a) && EnabledRelay(a, Deliver(e, m)) && m.SetSession? && Topology(a, a.links[e.link].sid)
    ensures var sid, b := a.links[e.link].sid, DoDeliver(a, e, m);
            && (forall n :: SlotOf(b, n, sid).probe == SlotOf(a, n, sid).probe)
            && b.ctls == a.ctls && b.emitted == a.emitted && b.started == a.started
  {
    AcceptedSlot(a, e, m);
    hide WellFormed, Topology, DoDeliver;
  }

  lemma AcceptCount(a: Net, e: End, m: Message)
    requires WellFormed(a) && EnabledRelay(a, Deliver(e, m)) && m.SetSession? && Topology(a, a.links[e.link].sid)
    ensures var sid, b := a.links[e.link].sid, DoDeliver(a, e, m);
            forall x :: ProbesIn(b.links, sid, x) == ProbesIn(a.links, sid, x)
  {
    var sid := a.links[e.link].sid;
    var k := a.ctls[sid];
    AcceptForm(a, e, m);
    hide WellFormed, AcceptsTo, InOrder, DoDeliver, AskedRole, Topology, ProbesIn, PlanOf, Accepting, Attach,
         WithCircuit, LegAt, SlotOf, Reroutes;
    hide AcceptedLink, AbandonedLink;
    AcceptedCount(a.links, sid, e.link, m);
    if Reroutes(PlanOf(a, k), k, e.link) {
      var l1 := a.links[e.link := AcceptedLink(a.links[e.link], m)];
      assert l1[k.join.value] == a.links[k.join.value];
      AbandonedCount(l1, sid, k.join.value);
    }
  }

  lemma AcceptTally(a: Net, e: End, m: Message)
    requires WellFormed(a) && EnabledRelay(a, Deliver(e, m)) && m.SetSession? && Sound(a, a.links[e.link].sid)
    ensures Tally(DoDeliver(a, e, m), a.links[e.link].sid)
  {
    hide WellFormed;
    var sid := a.links[e.link].sid;
    AcceptedPlan(a, e, m);
    hide DoDeliver, Mail, Topology, ProbesIn, PlanOf, Accepting, EnabledRelay;
    AcceptMail(a, e, m);
    AcceptCount(a, e, m);
    AcceptHistory(a, e, m);
    TallyKept(a, DoDeliver(a, e, m), sid);
  }

  /** Reading a set-session message changes the plan only by one stream being accepted. */
  lemma AcceptedPlan(a: Net, e: End, m: Message)
    requires WellFormed(a) && EnabledRelay(a, Deliver(e, m)) && m.SetSession? && Topology(a, a.links[e.link].sid)
    ensures var k := a.ctls[a.links[e.link].sid];
            var p := PlanOf(a, k);
            var q := Accepting(p, k, e.link);
            && p.join.id == k.join
            && p.EntryIsHome() == q.EntryIsHome() && p.Spread() == q.Spread() && p.RelayIsEntry() == q.RelayIsEntry()
            && p.join.id == q.join.id && p.join.acceptor == q.join.acceptor && (p.Complete() ==> q.Complete())
  {
    SetSessionIsFirst(a, e, m);
    hide WellFormed, SlotsAsCalled, LinksAsCalled, SinkWillClose;
  }

  lemma DyingPlan(a: Net, b: Net, sid: Sid, e: End)
    requires Topology(a, sid) && Dies(a, b, sid, e)
    ensures PlanOf(b, a.ctls[sid]) == PlanOf(a, a.ctls[sid]) && a.links[e.link].sid == sid
  {
    assert Dying(a.links[e.link]);
    hide SlotsAsCalled, InOrder, SinkWillClose;
  }

  /** Dropping the slot of the abandoned sink, or stopping a handler of its stream. */
  lemma DyingSound(a: Net, b: Net, sid: Sid, e: End)
    requires Sound(a, sid) && Dies(a, b, sid, e) && b.emitted == a.emitted && b.started == a.started
    requires b.links[e.link].o.inbox <= a.links[e.link].o.inbox && b.links[e.link].a.inbox <= a.links[e.link].a.inbox
    ensures Mail(b, sid) && Tally(b, sid)
  {
    var k := a.ctls[sid];
    DyingPlan(a, b, sid, e);
    hide Topology, MailIn, HandshakeOk;
    ShrinkMail(a.links, b.links, sid, k, k, PlanOf(a, k).Rerouted(), PlanOf(b, k).Rerouted(), a.emitted[sid] > 0,
                  b.emitted[sid] > 0);
    hide MailIn, Mail;
    DyingCount(a, b, sid, e, k);
    assert b.ctls == a.ctls;
    hide ProbesOut, PlanOf, Dies;
    TallyKept(a, b, sid);
  }

  lemma DyingCount(a: Net, b: Net, sid: Sid, e: End, k: Control)
    requires Dies(a, b, sid, e) && PlanOf(b, k) == PlanOf(a, k)
    requires b.links[e.link].o.inbox <= a.links[e.link].o.inbox && b.links[e.link].a.inbox <= a.links[e.link].a.inbox
    ensures ProbesOut(b, sid, k) <= ProbesOut(a, sid, k)
  {
    hide PlanOf, HandshakeOk;
    assert forall l :: ProbesIn(b.links, sid, l) <= ProbesIn(a.links, sid, l);
    assert forall n :: SlotOf(b, n, sid).probe.Some? ==> SlotOf(a, n, sid).probe.Some?;
    hide ProbesIn, SlotOf;
  }

  lemma DisconnectSound(a: Net, e: End, m: Message)
    requires WellFormed(a) && EnabledRelay(a, Deliver(e, m)) && m.Disconnect? && Sound(a, a.links[e.link].sid)
    ensures Sound(DoDeliver(a, e, m), a.links[e.link].sid)
  {
    var sid := a.links[e.link].sid;
    DisconnectTopology(a, e, m);
    DisconnectDies(a, e, m);
    hide WellFormed, Topology, Mail, Tally, Dies, DoDeliver;
    DyingSound(a, DoDeliver(a, e, m), sid, e);
  }

  lemma FaultSound(a: Net, e: End)
    requires WellFormed(a) && EnabledRelay(a, Fault(e)) && Sound(a, a.links[e.link].sid)
    ensures Sound(DoFault(a, e), a.links[e.link].sid)
  {
    var sid := a.links[e.link].sid;
    FaultTopology(a, e);
    FaultDies(a, e);
    hide WellFormed, Topology, Mail, Tally, Dies, DoFault;
    DyingSound(a, DoFault(a, e), sid, e);
  }

  // ---- whole runs ------------------------------------------------------------------------------------

  /** While nobody has given up, a finished handshake finds its circuit entry in place. */
  lemma StoreIsIdle(a: Net, n: NodeId, sid: Sid, e: End)
    requires EnabledRelay(a, Store(n, sid, e)) && Sound(a, sid)
    ensures DoStore(a, n, sid, e) == a
  {
    var k := a.ctls[sid];
    var p := PlanOf(a, k);
    assert a.started[(n, sid)] > 0;
    assert p.Complete() && IsClient(k, n);
    assert CircuitAsCalled(p, n, SlotOf(a, n, sid));
    hide LinksAsCalled, Streams, SinkWillClose, Mail, Balanced;
  }

  lemma RelaySound(a: Net, st: Step)
    requires WellFormed(a) && IsRelayStep(st) && EnabledRelay(a, st) && Sound(a, StepSid(a, st))
    requires StepSid(a, st) !in DoRelay(a, st).broken
    ensures Sound(DoRelay(a, st), StepSid(a, st))
  {
    hide WellFormed, Sound, DoDeliver, DoFault, DoSend;
    match st
    case Deliver(e, m) =>
      if m.SetSession? {
        AcceptSound(a, e, m);
      } else if m.Disconnect? {
        DisconnectSound(a, e, m);
      } else if m.Wake? {
        WakeSound(a, e);
      } else {
        TrafficSound(a, e, m);
      }
    case Fault(e) => FaultSound(a, e);
    case Lose(e, m) => LoseSound(a, e, m);
    case Send(n, sid, payload) => SendSound(a, n, sid, payload);
    case Store(n, sid, e) => StoreIsIdle(a, n, sid, e);
    case _ =>
  }

  lemma AcceptSound(a: Net, e: End, m: Message)
    requires WellFormed(a) && EnabledRelay(a, Deliver(e, m)) && m.SetSession? && Sound(a, a.links[e.link].sid)
    ensures Sound(DoDeliver(a, e, m), a.links[e.link].sid)
  {
    AcceptTopology(a, e, m);
    AcceptMail(a, e, m);
    AcceptTally(a, e, m);
  }

  lemma TrafficSound(a: Net, e: End, m: Message)
    requires WellFormed(a) && EnabledRelay(a, Deliver(e, m)) && IsTraffic(m) && Sound(a, a.links[e.link].sid)
    ensures Sound(DoDeliver(a, e, m), a.links[e.link].sid)
  {
    var sid := a.links[e.link].sid;
    TrafficStep(a, e, m);
    TrafficKeepsShape(a, e, m);
    TrafficMail(a, e, m);
    hide WellFormed, DoDeliver, ShapeKept, Topology, Mail, Tally;
    if m.Probe? { ProbeTally(a, e, sid); } else { CargoTally(a, e, m); }
    ShapeTopology(a, DoDeliver(a, e, m), sid);
  }

  /** What holds of the invariant in a well-formed network does not depend on other session ids. */
  lemma SameSound(a: Net, b: Net, sid: Sid)
    requires Sound(a, sid) && SameFor(a, b, sid)
    ensures Sound(b, sid)
  {
    hide ProbesOut;
    var k := a.ctls[sid];
    assert Streams(a.links, sid, k) && Topology(a, sid);
    hide Topology, MailIn, InOrder;
    SamePlan(a, b, sid, k);
    hide PlanOf;
    SameTopology(a, b, sid, k);
    SameMail(a.links, b.links, sid, k, PlanOf(a, k).Rerouted(), a.emitted[sid] > 0);
    SameProbesOut(a, b, sid, k);
    hide Streams;
  }

  lemma SamePlan(a: Net, b: Net, sid: Sid, k: Control)
    requires Streams(a.links, sid, k) && SameFor(a, b, sid)
    ensures PlanOf(b, k) == PlanOf(a, k) && Streams(b.links, sid, k)
  {}

  lemma SameMail(a: seq<Link>, b: seq<Link>, sid: Sid, k: Control, rerouted: bool, emitted: bool)
    requires MailIn(a, sid, k, rerouted, emitted) && |a| <= |b|
    requires forall l :: 0 <= l < |b| && b[l].sid == sid ==> l < |a| && b[l] == a[l]
    ensures MailIn(b, sid, k, rerouted, emitted)
  {}

  lemma SameTopology(a: Net, b: Net, sid: Sid, k: Control)
    requires Topology(a, sid) && SameFor(a, b, sid) && k == a.ctls[sid]
    requires PlanOf(b, k) == PlanOf(a, k) && Streams(b.links, sid, k)
    ensures Topology(b, sid)
  {
    assert k.join.Some? ==> b.links[k.join.value] == a.links[k.join.value];
    hide Streams, InOrder, Called;
    assert LinksAsCalled(b, sid, k);
    assert SlotsAsCalled(b, sid, k) by {
      forall n
        ensures SessionAsCalled(PlanOf(b, k), n, SlotOf(b, n, sid))
                && CircuitAsCalled(PlanOf(b, k), n, SlotOf(b, n, sid))
      {
        assert SessionAsCalled(PlanOf(a, k), n, SlotOf(a, n, sid))
               && CircuitAsCalled(PlanOf(a, k), n, SlotOf(a, n, sid));
      }
    }
  }

  lemma SameProbesOut(a: Net, b: Net, sid: Sid, k: Control)
    requires Streams(a.links, sid, k) && SameFor(a, b, sid) && PlanOf(b, k) == PlanOf(a, k)
    ensures ProbesOut(b, sid, k) == ProbesOut(a, sid, k)
  {
    assert ProbesIn(b.links, sid, k.join) == ProbesIn(a.links, sid, k.join);
    assert ProbesIn(b.links, sid, k.hop) == ProbesIn(a.links, sid, k.hop);
    assert ProbesIn(b.links, sid, k.bridge) == ProbesIn(a.links, sid, k.bridge);
    hide PlanOf, ProbesIn, Streams;
  }

  /** A session id that exists and has not been given up on satisfies the invariant; one that does not
      exist has no Success and no handshake. */
  ghost predicate AllSound(net: Net) {
    && WellFormed(net)
    && (forall sid :: sid in net.ctls && sid !in net.broken ==> Sound(net, sid))
    && (forall sid :: sid !in net.ctls ==> net.emitted[sid] == 0)
    && (forall n, sid :: sid !in net.ctls ==> net.started[(n, sid)] == 0)
  }

  lemma SameHistory(a: Net, b: Net, x: Sid)
    requires Confined(a, b, x)
    requires (forall sid :: sid !in a.ctls ==> a.emitted[sid] == 0)
                  && (forall n, sid :: sid !in a.ctls ==> a.started[(n, sid)] == 0)
    requires x in b.ctls
    ensures (forall sid :: sid !in b.ctls ==> b.emitted[sid] == 0)
                 && (forall n, sid :: sid !in b.ctls ==> b.started[(n, sid)] == 0)
  {}

  /** Nobody takes back that a session id has been given up on. */
  lemma StaysBroken(a: Net, st: Step)
    requires Enabled(a, st)
    ensures a.broken <= Do(a, st).broken
  {
    hide EnabledTask, EnabledRelay, OnMessage, OnError, Post, Shut, SlotOf, TwoWay, OnClose, AcceptorOf, NewLink;
  }

  lemma StepExists(a: Net, st: Step)
    requires WellFormed(a) && Enabled(a, st) && !st.Dial?
    ensures StepSid(a, st) in a.ctls
  {
    if st.Send? { assert (st.node, st.sid) in a.slots; }
  }

  /** A step for `x` leaves the invariant of the other session ids alone. */
  lemma OthersSound(a: Net, b: Net, x: Sid)
    requires Confined(a, b, x) && forall sid :: sid in a.ctls && sid !in a.broken ==> Sound(a, sid)
    ensures forall sid :: sid in b.ctls && sid !in b.broken && sid != x ==> Sound(b, sid)
  {
    hide Sound;
    forall sid | sid in b.ctls && sid !in b.broken && sid != x ensures Sound(b, sid) {
      ConfinedIsSame(a, b, x, sid);
      SameSound(a, b, sid);
    }
  }

  lemma StepAllSound(a: Net, st: Step)
    requires AllSound(a) && Enabled(a, st)
    ensures AllSound(Do(a, st))
  {
    assert WellFormed(a);
    hide *;
    StepIsolated(a, st);
    if StepSid(a, st) !in Do(a, st).broken { OwnStepSound(a, st); }
    AllSoundKept(a, Do(a, st), StepSid(a, st));
  }

  lemma AllSoundKept(a: Net, b: Net, x: Sid)
    requires AllSound(a) && Confined(a, b, x) && WellFormed(b) && x in b.ctls
    requires x !in b.broken ==> Sound(b, x)
    ensures AllSound(b)
  {
    hide WellFormed, Sound, Confined;
    SameHistory(a, b, x);
    OthersSound(a, b, x);
  }

  lemma OwnStepSound(a: Net, st: Step)
    requires AllSound(a) && Enabled(a, st) && StepSid(a, st) !in Do(a, st).broken
    ensures Sound(Do(a, st), StepSid(a, st))
  {
    if !st.Dial? { StepExists(a, st); }
    StaysBroken(a, st);
    hide WellFormed, Sound, DoRelay, DoTask;
    if IsRelayStep(st) {
      RelaySound(a, st);
    } else if st.Dial? {
      DialSound(a, st.sid, st.caller, st.entry, st.answer, st.home);
    } else {
      TaskSound(a, st);
    }
  }

  lemma {:induction false} RunAllSound(net: Net, steps: seq<Step>)
    requires AllSound(net) && CanRun(net, steps)
    ensures AllSound(Run(net, steps))
    decreases |steps|
  {
    hide AllSound;
    if steps != [] {
      StepAllSound(net, steps[0]);
      RunAllSound(Do(net, steps[0]), steps[1..]);
    }
  }

  /** In every run from the empty network, every session id that nobody has given up on satisfies the
      invariant of its construction. */
  lemma ReachableSound(net: Net, steps: seq<Step>)
    requires Initial(net) && CanRun(net, steps)
    ensures AllSound(Run(net, steps))
  {
    RunAllSound(net, steps);
  }
}
