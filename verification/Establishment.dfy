/** How a circuit is built. While nobody gives up on a session id, the sessions stored for it at all
    nodes are exactly those that the streams opened so far call for, in every overlap of roles. */
module Establishment {
  import opened Wrappers
  import opened Protocol
  import opened RelayLogic
  import opened Network
  import opened Isolation

  /** A stream of the circuit: whether its acceptor has read the set-session message, and whether
      its opener has put it into its session. */
  datatype Leg = Leg(id: Option<LinkId>, acceptor: NodeId, accepted: bool, attached: bool) {
    function Opener(): Option<End> { if id.Some? && attached then Some(End(id.value, true)) else None }

    function Acceptor(): Option<End> { if id.Some? && accepted then Some(End(id.value, false)) else None }
  }

  /** The circuit of one session id as far as it has been built. */
  datatype Plan = Plan(
    caller: NodeId, entry: NodeId, answer: NodeId, home: NodeId,
    dial: Leg, join: Leg, reach: Leg, hop: Leg, bridge: Leg)
  {
    /** The entry node is the access node too: its second stream leads to the answering client. */
    predicate EntryIsHome() { home == entry }

    predicate SinkIsHome() { !EntryIsHome() && join.id.Some? && join.acceptor == home }

    /** The access node chose the entry node as relay, which has replaced its stream to the sink. */
    predicate Rerouted() { hop.id.Some? && hop.acceptor == entry && hop.accepted }

    predicate RelayIsEntry() { hop.id.Some? && hop.acceptor == entry }

    /** All four server roles at different nodes. */
    predicate Spread() { hop.id.Some? && hop.acceptor != entry }

    function AnswerLeg(): Leg { if EntryIsHome() then join else reach }

    /** Every stream of the circuit is in the sessions at both of its ends. */
    predicate Complete() {
      if EntryIsHome() then join.attached
      else if SinkIsHome() then reach.attached
      else if RelayIsEntry() then hop.attached
      else bridge.attached
    }
  }

  function LegOf(net: Net, link: Option<LinkId>): Leg {
    if link.Some? && link.value < |net.links| then
      var l := net.links[link.value];
      Leg(link, l.acceptor, l.a.handler != Running(None), l.o.handler != Waiting)
    else Leg(None, 0, false, false)
  }

  function PlanOf(net: Net, k: Control): Plan {
    Plan(k.caller, k.entry, k.answer, k.home,
         LegOf(net, Some(k.dial)), LegOf(net, k.join), LegOf(net, k.reach), LegOf(net, k.hop), LegOf(net, k.bridge))
  }

  function SessionWith(role: Role, early: Option<End>, later: Option<End>): Option<Session> {
    if early.None? then None else Some(Session(role, early, later))
  }

  /** The session that the streams opened so far call for at node `n`. */
  function Called(p: Plan, n: NodeId): Option<Session> {
    if n == p.caller then SessionWith(Caller, p.dial.Opener(), None)
    else if n == p.answer then SessionWith(Answer, p.AnswerLeg().Acceptor(), None)
    else if n == p.entry then
      SessionWith(Entry, p.dial.Acceptor(), if p.Rerouted() then p.hop.Acceptor() else p.join.Opener())
    else if p.EntryIsHome() then None
    else if p.join.id.Some? && n == p.join.acceptor then
      SessionWith(Sink, p.join.Acceptor(), if p.SinkIsHome() then p.reach.Opener() else p.bridge.Acceptor())
    else if n == p.home then SessionWith(Access, p.reach.Opener(), p.hop.Opener())
    else if p.hop.id.Some? && n == p.hop.acceptor then SessionWith(Relay, p.hop.Acceptor(), p.bridge.Opener())
    else None
  }

  /** After a rerouting the abandoned sink may already have dropped its session. */
  predicate Abandoned(p: Plan, n: NodeId) { p.Rerouted() && p.join.id.Some? && n == p.join.acceptor }

  predicate SessionAsCalled(p: Plan, n: NodeId, s: Slot) {
    s.session == Called(p, n) || (Abandoned(p, n) && s == EMPTY_SLOT)
  }

  predicate CircuitAsCalled(p: Plan, n: NodeId, s: Slot) {
    && (s.circuit.Some? <==> (n == p.caller && p.dial.attached) || (n == p.answer && p.AnswerLeg().accepted))
    && (s.circuit.Some? ==>
          Some(s.circuit.value.out) == (if n == p.caller then p.dial.Opener() else p.AnswerLeg().Acceptor()))
    && (s.probe.Some? ==> !p.EntryIsHome() && p.join.id.Some? && n == p.join.acceptor)
  }

  predicate LegOk(l: Leg) {
    (l.attached ==> l.accepted) && (l.id.None? ==> !l.accepted)
  }

  /** Which node opened what, in which order, and to whom. */
  predicate InOrder(clients: set<NodeId>, p: Plan, k: Control) {
    && LegOk(p.dial) && LegOk(p.join) && LegOk(p.reach) && LegOk(p.hop) && LegOk(p.bridge)
    && p.dial.id.Some?
    && p.caller in clients && p.answer in clients && p.caller != p.answer
    && p.entry !in clients && p.home !in clients
    && p.dial.acceptor == p.entry
    && (p.join.id.Some? ==>
          && p.dial.attached
          && (if p.EntryIsHome() then p.join.acceptor == p.answer
              else p.join.acceptor !in clients && p.join.acceptor != p.entry))
    && (k.published ==> p.join.attached && !p.EntryIsHome())
    && (k.probedE ==> k.published)
    && (p.reach.id.Some? ==> k.published && p.reach.acceptor == p.answer)
    && (p.hop.id.Some? ==>
          && p.reach.attached && !p.SinkIsHome()
          && p.hop.acceptor !in clients && p.hop.acceptor != p.home && p.hop.acceptor != p.join.acceptor)
    && (k.cmd != Unsent <==> p.hop.attached)
    && (k.cmd.Replied? ==> k.cmd.ok)
    && (k.cmd == Sent ==> p.bridge.id.None?)
    && (p.bridge.id.Some? ==>
          p.hop.attached && !p.RelayIsEntry() && p.bridge.acceptor == p.join.acceptor)
    && (k.cmd.Replied? && p.Spread() ==> p.bridge.attached)
    && (k.cmd == Bridging ==> p.bridge.id.Some?)
    && (k.probedA ==> k.cmd.Replied?)
  }

  /** The recorded stream is one that `opener` opened for `sid`, and is none of the given ones. */
  predicate Separate(links: seq<Link>, sid: Sid, l: Option<LinkId>, opener: NodeId, others: set<Option<LinkId>>) {
    l.Some? ==> l.value < |links| && links[l.value].sid == sid && links[l.value].opener == opener && l !in others
  }

  /** The five streams are different, and the session id has no others. */
  ghost predicate Streams(links: seq<Link>, sid: Sid, k: Control) {
    && Separate(links, sid, Some(k.dial), k.caller, {})
    && Separate(links, sid, k.join, k.entry, {Some(k.dial)})
    && Separate(links, sid, k.reach, k.home, {Some(k.dial), k.join})
    && Separate(links, sid, k.hop, k.home, {Some(k.dial), k.join, k.reach})
    && (k.hop.None? ==> k.bridge.None?)
    && (k.bridge.Some? ==>
          Separate(links, sid, k.bridge, links[k.hop.value].acceptor, {Some(k.dial), k.join, k.reach, k.hop}))
    && (forall l :: 0 <= l < |links| && links[l].sid == sid ==>
          l == k.dial || k.join == Some(l) || k.reach == Some(l) || k.hop == Some(l) || k.bridge == Some(l))
  }

  /** The role that the set-session message on a stream asks its acceptor to take. */
  function AskedRole(k: Control, l: LinkId): Role {
    if l == k.dial then Entry
    else if k.join == Some(l) then (if k.home == k.entry then Answer else Sink)
    else if k.reach == Some(l) then Answer
    else if k.hop == Some(l) then Relay
    else Sink
  }

  /** A set-session message lies unread exactly until the acceptor's handler has a session id, and
      its acknowledgement is on the way exactly until the opener attaches the stream. */
  ghost predicate HandshakeOk(l: Link, role: Role) {
    && (forall r :: l.a.inbox[SetSession(l.sid, r)] == if l.a.handler == Running(None) && r == role then 1 else 0)
    && (forall r :: l.o.inbox[SetSession(l.sid, r)] == 0)
    && (l.acked <==> l.a.handler != Running(None) && l.o.handler == Waiting)
  }

  /** A stream in use has no error pending and live handlers; the stream to an abandoned sink has
      the error pending at both ends. */
  predicate Live(l: Link) { !l.o.eof && !l.a.eof && l.o.handler != Stopped && l.a.handler.Running? }

  predicate Dying(l: Link) { l.o.eof && l.a.eof && l.o.handler != Waiting && l.a.handler != Running(None) }

  ghost predicate LinksAsCalled(net: Net, sid: Sid, k: Control) {
    var p := PlanOf(net, k);
    forall l :: 0 <= l < |net.links| && net.links[l].sid == sid ==>
      && HandshakeOk(net.links[l], AskedRole(k, l))
      && (if p.Rerouted() && k.join == Some(l) then Dying(net.links[l]) else Live(net.links[l]))
  }

  /** The abandoned sink still has a handler that will meet the error or the disconnect message. */
  predicate SinkWillClose(net: Net, sid: Sid, k: Control) {
    var p := PlanOf(net, k);
    p.Rerouted() && k.join.Some? && k.join.value < |net.links|
    && SlotOf(net, p.join.acceptor, sid) != EMPTY_SLOT
    ==> net.links[k.join.value].a.handler.Running?
  }

  ghost predicate SlotsAsCalled(net: Net, sid: Sid, k: Control) {
    var p := PlanOf(net, k);
    forall n :: SessionAsCalled(p, n, SlotOf(net, n, sid)) && CircuitAsCalled(p, n, SlotOf(net, n, sid))
  }

  ghost predicate Topology(net: Net, sid: Sid) {
    && sid in net.ctls
    && var k := net.ctls[sid];
    && Streams(net.links, sid, k)
    && InOrder(net.clients, PlanOf(net, k), k)
    && LinksAsCalled(net, sid, k)
    && SlotsAsCalled(net, sid, k)
    && SinkWillClose(net, sid, k)
  }

  // ---- steps that move messages but change no session ---------------------------------------

  /** The two streams differ at most in the messages lying unread, set-session messages excepted. */
  ghost predicate SameStage(a: Link, b: Link) {
    && a.sid == b.sid && a.opener == b.opener && a.acceptor == b.acceptor && a.acked == b.acked
    && a.o.handler == b.o.handler && a.a.handler == b.a.handler && a.o.eof == b.o.eof && a.a.eof == b.a.eof
    && (forall r :: a.o.inbox[SetSession(a.sid, r)] == b.o.inbox[SetSession(a.sid, r)])
    && (forall r :: a.a.inbox[SetSession(a.sid, r)] == b.a.inbox[SetSession(a.sid, r)])
  }

  ghost predicate SameStages(a: seq<Link>, b: seq<Link>) {
    |a| == |b| && forall l :: 0 <= l < |a| ==> SameStage(a[l], b[l])
  }

  /** The two slots differ at most in the logs of a circuit and in the probe of a sink. */
  predicate SameShape(s: Slot, t: Slot) {
    && s.session == t.session
    && (s.circuit.Some? <==> t.circuit.Some?)
    && (s.circuit.Some? ==> s.circuit.value.out == t.circuit.value.out)
    && (t.probe.Some? ==> s.probe.Some? || (s.session.Some? && s.session.value.role == Sink))
  }

  predicate SameStreams(k: Control, j: Control) {
    && k.caller == j.caller && k.entry == j.entry && k.answer == j.answer && k.home == j.home
    && k.dial == j.dial && k.join == j.join && k.reach == j.reach && k.hop == j.hop && k.bridge == j.bridge
  }

  ghost predicate ShapeKept(a: Net, b: Net, sid: Sid) {
    && a.clients == b.clients && sid in a.ctls && sid in b.ctls && SameStreams(a.ctls[sid], b.ctls[sid])
    && SameStages(a.links, b.links)
    && forall n :: SameShape(SlotOf(a, n, sid), SlotOf(b, n, sid))
  }

  lemma ShapeKeepsPlan(a: Net, b: Net, sid: Sid)
    requires ShapeKept(a, b, sid)
    ensures PlanOf(a, a.ctls[sid]) == PlanOf(b, b.ctls[sid])
  {}

  lemma ShapeKeepsTopology(a: Net, b: Net, sid: Sid)
    requires Topology(a, sid) && ShapeKept(a, b, sid)
    requires InOrder(b.clients, PlanOf(b, b.ctls[sid]), b.ctls[sid])
    ensures Topology(b, sid)
  {
    var k, j := a.ctls[sid], b.ctls[sid];
    ShapeKeepsPlan(a, b, sid);
    ShapeKeepsLinks(a, b, sid, k, j);
    ShapeKeepsSlots(a, b, sid, k, j);
    assert forall l :: 0 <= l < |a.links| ==> SameStage(a.links[l], b.links[l]);
    StreamsStay(a.links, b.links, sid, k, j);
    hide LinksAsCalled, SlotsAsCalled, Streams, InOrder, PlanOf;
    assert SinkWillClose(b, sid, j) by {
      assert SinkWillClose(a, sid, k);
      assert SameShape(SlotOf(a, PlanOf(a, k).join.acceptor, sid), SlotOf(b, PlanOf(a, k).join.acceptor, sid));
    }
  }

  lemma ShapeKeepsLinks(a: Net, b: Net, sid: Sid, k: Control, j: Control)
    requires LinksAsCalled(a, sid, k) && SameStages(a.links, b.links) && SameStreams(k, j)
             && PlanOf(b, j) == PlanOf(a, k)
    ensures LinksAsCalled(b, sid, j)
  {
    hide PlanOf;
    assert forall l :: AskedRole(j, l) == AskedRole(k, l);
    hide AskedRole;
    forall l | 0 <= l < |b.links| && b.links[l].sid == sid
      ensures HandshakeOk(b.links[l], AskedRole(j, l))
      ensures if PlanOf(b, j).Rerouted() && j.join == Some(l) then Dying(b.links[l]) else Live(b.links[l])
    {
      assert SameStage(a.links[l], b.links[l]);
    }
  }

  lemma ShapeKeepsSlots(a: Net, b: Net, sid: Sid, k: Control, j: Control)
    requires SlotsAsCalled(a, sid, k) && PlanOf(b, j) == PlanOf(a, k)
             && forall n :: SameShape(SlotOf(a, n, sid), SlotOf(b, n, sid))
    ensures SlotsAsCalled(b, sid, j)
  {
    var p := PlanOf(a, k);
    hide PlanOf, SlotOf;
    forall n ensures SessionAsCalled(p, n, SlotOf(b, n, sid)) && CircuitAsCalled(p, n, SlotOf(b, n, sid)) {
      assert SameShape(SlotOf(a, n, sid), SlotOf(b, n, sid));
      assert SessionAsCalled(p, n, SlotOf(a, n, sid)) && CircuitAsCalled(p, n, SlotOf(a, n, sid));
    }
  }

  // ---- opening a stream ------------------------------------------------------------------------

  /** The two plans call for the same sessions and circuit entries. */
  ghost predicate CallsAlike(p: Plan, q: Plan) {
    && (forall n :: Called(p, n) == Called(q, n))
    && (forall n, s :: CircuitAsCalled(p, n, s) ==> CircuitAsCalled(q, n, s))
    && p.Rerouted() == q.Rerouted()
    && (p.Rerouted() ==> p.join == q.join)
  }

  /** What an opening step does to the plan: one more stream, which no handler has touched yet. */
  lemma JoinOpenPlan(clients: set<NodeId>, p: Plan, k: Control, id: LinkId, peer: NodeId)
    requires InOrder(clients, p, k) && p.join.id.None? && p.dial.attached
    requires if p.EntryIsHome() then peer == p.answer else peer !in clients && peer != p.entry
    ensures var q := p.(join := Leg(Some(id), peer, false, false));
            InOrder(clients, q, k.(join := Some(id))) && CallsAlike(p, q)
  {}

  lemma ReachOpenPlan(clients: set<NodeId>, p: Plan, k: Control, id: LinkId)
    requires InOrder(clients, p, k) && k.published && p.reach.id.None?
    ensures var q := p.(reach := Leg(Some(id), p.answer, false, false));
            InOrder(clients, q, k.(reach := Some(id))) && CallsAlike(p, q)
  {}

  lemma HopOpenPlan(clients: set<NodeId>, p: Plan, k: Control, id: LinkId, peer: NodeId)
    requires InOrder(clients, p, k) && p.reach.id.Some? && p.reach.attached && p.join.acceptor != p.home
    requires p.hop.id.None?
    requires peer !in clients && peer != p.home && peer != p.join.acceptor
    ensures var q := p.(hop := Leg(Some(id), peer, false, false));
            InOrder(clients, q, k.(hop := Some(id))) && CallsAlike(p, q)
  {}

  lemma BridgeOpenPlan(clients: set<NodeId>, p: Plan, k: Control, id: LinkId)
    requires InOrder(clients, p, k) && k.cmd == Sent && p.bridge.id.None? && !p.RelayIsEntry()
    requires p.hop.id.Some? && p.hop.attached
    ensures var q := p.(bridge := Leg(Some(id), p.join.acceptor, false, false));
            InOrder(clients, q, k.(bridge := Some(id), cmd := Bridging)) && CallsAlike(p, q)
  {}

  lemma OpeningKeepsSlots(a: Net, b: Net, sid: Sid, k: Control, j: Control)
    requires SlotsAsCalled(a, sid, k) && b.slots == a.slots
    requires CallsAlike(PlanOf(a, k), PlanOf(b, j))
    ensures SlotsAsCalled(b, sid, j)
  {
    var p, q := PlanOf(a, k), PlanOf(b, j);
    forall n ensures SessionAsCalled(q, n, SlotOf(b, n, sid)) && CircuitAsCalled(q, n, SlotOf(b, n, sid)) {
      assert SessionAsCalled(p, n, SlotOf(a, n, sid)) && CircuitAsCalled(p, n, SlotOf(a, n, sid));
    }
  }

  lemma OpeningKeepsLinks(a: Net, b: Net, sid: Sid, k: Control, j: Control, opener: NodeId, acceptor: NodeId)
    requires LinksAsCalled(a, sid, k) && Streams(a.links, sid, k)
    requires b.links == a.links + [NewLink(sid, opener, acceptor, AskedRole(j, |a.links|))]
    requires forall l :: 0 <= l < |a.links| && a.links[l].sid == sid ==> AskedRole(j, l) == AskedRole(k, l)
    requires PlanOf(b, j).Rerouted() == PlanOf(a, k).Rerouted()
    requires PlanOf(a, k).Rerouted() ==> j.join == k.join
    ensures LinksAsCalled(b, sid, j)
  {
    var q := PlanOf(b, j);
    forall l | 0 <= l < |b.links| && b.links[l].sid == sid
      ensures HandshakeOk(b.links[l], AskedRole(j, l))
      ensures if q.Rerouted() && j.join == Some(l) then Dying(b.links[l]) else Live(b.links[l])
    {
      if l < |a.links| { assert b.links[l] == a.links[l]; }
    }
  }

  /** An opening step keeps the topology if it keeps the plan in order and calls for nothing new. */
  lemma OpeningTopology(a: Net, b: Net, sid: Sid, opener: NodeId, acceptor: NodeId, j: Control)
    requires Topology(a, sid)
    requires b == WithControl(Open(a, sid, opener, acceptor, AskedRole(j, |a.links|)), sid, j)
    requires Streams(b.links, sid, j)
    requires forall l :: 0 <= l < |a.links| && a.links[l].sid == sid ==> AskedRole(j, l) == AskedRole(a.ctls[sid], l)
    requires InOrder(b.clients, PlanOf(b, j), j) && CallsAlike(PlanOf(a, a.ctls[sid]), PlanOf(b, j))
    requires PlanOf(b, j).Rerouted() ==> j.join == a.ctls[sid].join
    ensures Topology(b, sid)
  {
    var k := a.ctls[sid];
    OpeningKeepsSlots(a, b, sid, k, j);
    OpeningKeepsLinks(a, b, sid, k, j, opener, acceptor);
    hide SlotsAsCalled, LinksAsCalled, InOrder, Streams, CallsAlike;
    assert forall n :: SlotOf(b, n, sid) == SlotOf(a, n, sid);
    assert SinkWillClose(a, sid, k);
  }

  lemma DialTopology(a: Net, sid: Sid, caller: NodeId, entry: NodeId, answer: NodeId, home: NodeId)
    requires WellFormed(a) && EnabledTask(a, Dial(sid, caller, entry, answer, home))
    ensures Topology(DoTask(a, Dial(sid, caller, entry, answer, home)), sid)
  {
    hide WellFormed;
    UnknownSid(a, sid);
    var b := DoTask(a, Dial(sid, caller, entry, answer, home));
    var k := b.ctls[sid];
    assert PlanOf(b, k).dial == Leg(Some(|a.links|), entry, false, false);
    assert forall n :: SlotOf(b, n, sid) == EMPTY_SLOT;
  }

  lemma UnknownSid(a: Net, sid: Sid)
    requires WellFormed(a) && sid !in a.ctls
    ensures forall l :: 0 <= l < |a.links| ==> a.links[l].sid != sid
    ensures forall n :: (n, sid) !in a.slots
  {}

  lemma JoinOpenTopology(a: Net, sid: Sid, peer: NodeId)
    requires Topology(a, sid) && EnabledTask(a, JoinOpen(sid, peer))
    ensures Topology(DoTask(a, JoinOpen(sid, peer)), sid)
  {
    hide LinksAsCalled, SlotsAsCalled;
    var b := DoTask(a, JoinOpen(sid, peer));
    var k, j := a.ctls[sid], b.ctls[sid];
    JoinOpenPlan(a.clients, PlanOf(a, k), k, |a.links|, peer);
    assert PlanOf(b, j) == PlanOf(a, k).(join := Leg(Some(|a.links|), peer, false, false));
    hide InOrder, CallsAlike;
    OpeningTopology(a, b, sid, k.entry, peer, j);
  }

  lemma ReachOpenTopology(a: Net, sid: Sid)
    requires Topology(a, sid) && EnabledTask(a, ReachOpen(sid))
    ensures Topology(DoTask(a, ReachOpen(sid)), sid)
  {
    hide LinksAsCalled, SlotsAsCalled;
    var b := DoTask(a, ReachOpen(sid));
    var k, j := a.ctls[sid], b.ctls[sid];
    ReachOpenPlan(a.clients, PlanOf(a, k), k, |a.links|);
    assert PlanOf(b, j) == PlanOf(a, k).(reach := Leg(Some(|a.links|), k.answer, false, false));
    hide InOrder, CallsAlike;
    OpeningTopology(a, b, sid, k.home, k.answer, j);
  }

  lemma HopStreams(a: seq<Link>, sid: Sid, k: Control, l: Link)
    requires Streams(a, sid, k) && k.hop.None? && l.sid == sid && l.opener == k.home
    requires (k.join.Some? ==> k.join.value < |a|) && (k.reach.Some? ==> k.reach.value < |a|)
    ensures var j := k.(hop := Some(|a|));
            && Streams(a + [l], sid, j) && AskedRole(j, |a|) == Relay
            && forall i :: 0 <= i < |a| && a[i].sid == sid ==> AskedRole(j, i) == AskedRole(k, i)
  {}

  lemma HopOpenForm(a: Net, sid: Sid, peer: NodeId)
    requires Topology(a, sid) && EnabledTask(a, HopOpen(sid, peer))
    ensures var k, p, b := a.ctls[sid], PlanOf(a, a.ctls[sid]), DoTask(a, HopOpen(sid, peer));
            var j := k.(hop := Some(|a.links|));
            && b == WithControl(Open(a, sid, k.home, peer, Relay), sid, j)
            && PlanOf(b, j) == p.(hop := Leg(Some(|a.links|), peer, false, false))
            && k.hop.None? && k.bridge.None? && k.join.Some? && k.join.value < |a.links| && p.join.id == k.join
            && (k.reach.Some? ==> k.reach.value < |a.links|)
            && p.reach.id.Some? && p.reach.attached && p.join.acceptor != p.home && p.hop.id.None?
            && peer !in a.clients && peer != p.home && peer != p.join.acceptor
            && !p.Complete() && !p.Spread() && !p.RelayIsEntry() && !k.probedA
  {
    hide SlotsAsCalled, LinksAsCalled, SinkWillClose;
  }

  lemma HopOpenTopology(a: Net, sid: Sid, peer: NodeId)
    requires Topology(a, sid) && EnabledTask(a, HopOpen(sid, peer))
    ensures Topology(DoTask(a, HopOpen(sid, peer)), sid)
  {
    var b := DoTask(a, HopOpen(sid, peer));
    var k, j := a.ctls[sid], b.ctls[sid];
    var p := PlanOf(a, k);
    HopOpenForm(a, sid, peer);
    assert InOrder(a.clients, p, k) && Streams(a.links, sid, k);
    hide Topology, Streams, InOrder, CallsAlike, PlanOf, DoTask, EnabledTask, AskedRole;
    HopStreams(a.links, sid, k, NewLink(sid, k.home, peer, Relay));
    HopOpenPlan(a.clients, p, k, |a.links|, peer);
    OpeningTopology(a, b, sid, k.home, peer, j);
  }

  /** A relay node whose session is not ready is not the entry node, whose session is. */
  lemma RelayOf(a: Net, sid: Sid)
    requires Topology(a, sid) && CmdPending(a, a.ctls[sid])
    ensures var p := PlanOf(a, a.ctls[sid]);
            && RelaySlot(a, sid, a.ctls[sid]).session == Called(p, p.hop.acceptor)
            && RelaySlot(a, sid, a.ctls[sid]).session.Some?
            && (p.RelayIsEntry() <==> RelaySlot(a, sid, a.ctls[sid]).session.value.Ready())
  {
    var k := a.ctls[sid];
    var p := PlanOf(a, k);
    assert SessionAsCalled(p, p.hop.acceptor, SlotOf(a, p.hop.acceptor, sid));
    assert HandshakeOk(a.links[k.hop.value], AskedRole(k, k.hop.value));
  }

  /** One more stream, which nothing recorded so far is. */
  lemma BridgeStreams(a: seq<Link>, sid: Sid, k: Control, l: Link, cmd: Command)
    requires Streams(a, sid, k) && k.bridge.None? && k.hop.Some? && k.hop.value < |a|
    requires l.sid == sid && l.opener == a[k.hop.value].acceptor
    requires (k.join.Some? ==> k.join.value < |a|) && (k.reach.Some? ==> k.reach.value < |a|)
    ensures var j := k.(bridge := Some(|a|), cmd := cmd);
            && Streams(a + [l], sid, j) && AskedRole(j, |a|) == Sink
            && forall i :: 0 <= i < |a| && a[i].sid == sid ==> AskedRole(j, i) == AskedRole(k, i)
  {}

  lemma BridgeOpenForm(a: Net, sid: Sid)
    requires Topology(a, sid) && EnabledTask(a, BridgeOpen(sid))
    ensures var k, p, b := a.ctls[sid], PlanOf(a, a.ctls[sid]), DoTask(a, BridgeOpen(sid));
            var j := k.(bridge := Some(|a.links|), cmd := Bridging);
            && b == WithControl(Open(a, sid, p.hop.acceptor, p.join.acceptor, Sink), sid, j)
            && PlanOf(b, j) == p.(bridge := Leg(Some(|a.links|), p.join.acceptor, false, false))
            && k.hop.Some? && k.hop.value < |a.links| && a.links[k.hop.value].acceptor == p.hop.acceptor
            && (k.join.Some? ==> k.join.value < |a.links|) && (k.reach.Some? ==> k.reach.value < |a.links|)
            && p.bridge.id.None? && k.bridge.None? && k.cmd == Sent && p.hop.id.Some? && p.hop.attached
  {
    hide SlotsAsCalled, LinksAsCalled, SinkWillClose, RelaySlot, HalfOpen;
  }

  lemma BridgeOpenTopology(a: Net, sid: Sid)
    requires Topology(a, sid) && EnabledTask(a, BridgeOpen(sid))
    ensures Topology(DoTask(a, BridgeOpen(sid)), sid)
  {
    var b := DoTask(a, BridgeOpen(sid));
    var k, j := a.ctls[sid], b.ctls[sid];
    var p := PlanOf(a, k);
    RelayOf(a, sid);
    BridgeOpenForm(a, sid);
    assert InOrder(a.clients, p, k) && Streams(a.links, sid, k) && !p.RelayIsEntry();
    hide Topology, Streams, InOrder, CallsAlike, PlanOf, DoTask, EnabledTask, AskedRole, RelaySlot, Called;
    BridgeStreams(a.links, sid, k, NewLink(sid, p.hop.acceptor, p.join.acceptor, Sink), Bridging);
    BridgeOpenPlan(a.clients, p, k, |a.links|);
    OpeningTopology(a, b, sid, p.hop.acceptor, p.join.acceptor, j);
  }

  // ---- attaching a stream ----------------------------------------------------------------------

  /** Attaching end `e` in a session of node `n0` leads from the one plan to the other. */
  ghost predicate AttachesTo(p: Plan, q: Plan, n0: NodeId, e: End, role: Role) {
    && Called(q, n0) == Attach(EMPTY_SLOT.(session := Called(p, n0)), role, e).session
    && (forall n :: n != n0 ==> Called(q, n) == Called(p, n))
    && (forall n, s :: CircuitAsCalled(p, n, s) ==> CircuitAsCalled(q, n, s))
    && p.Rerouted() == q.Rerouted() && p.join.id == q.join.id && p.join.acceptor == q.join.acceptor
    && !Abandoned(p, n0)
  }

  lemma JoinAttachPlan(clients: set<NodeId>, p: Plan, k: Control, role: Role)
    requires InOrder(clients, p, k) && p.join.id.Some? && p.join.accepted && !p.join.attached
    ensures var q := p.(join := p.join.(attached := true));
            InOrder(clients, q, k) && AttachesTo(p, q, p.entry, End(p.join.id.value, true), role)
  {}

  lemma ReachAttachPlan(clients: set<NodeId>, p: Plan, k: Control)
    requires InOrder(clients, p, k) && p.reach.id.Some? && p.reach.accepted && !p.reach.attached
    ensures var q := p.(reach := p.reach.(attached := true));
            InOrder(clients, q, k) && AttachesTo(p, q, p.home, End(p.reach.id.value, true), Access)
  {}

  lemma HopAttachPlan(clients: set<NodeId>, p: Plan, k: Control)
    requires InOrder(clients, p, k) && p.hop.id.Some? && p.hop.accepted && !p.hop.attached
    ensures var q := p.(hop := p.hop.(attached := true));
            InOrder(clients, q, k.(cmd := Sent)) && AttachesTo(p, q, p.home, End(p.hop.id.value, true), Access)
  {}

  lemma BridgeAttachPlan(clients: set<NodeId>, p: Plan, k: Control)
    requires InOrder(clients, p, k) && p.bridge.id.Some? && p.bridge.accepted && !p.bridge.attached
    ensures var q := p.(bridge := p.bridge.(attached := true));
            && InOrder(clients, q, k.(cmd := Replied(true)))
            && AttachesTo(p, q, p.hop.acceptor, End(p.bridge.id.value, true), Relay)
  {}

  lemma AttachingLinks(a: Net, b: Net, sid: Sid, k: Control, j: Control, link: LinkId, l: Link)
    requires LinksAsCalled(a, sid, k) && SameStreams(k, j)
    requires link < |a.links| && a.links[link].acked && b.links == a.links[link := l]
    requires l == a.links[link].(o := a.links[link].o.(handler := Running(Some(sid))), acked := false)
    requires PlanOf(b, j).Rerouted() == PlanOf(a, k).Rerouted()
    ensures LinksAsCalled(b, sid, j)
  {
    var q := PlanOf(b, j);
    forall i | 0 <= i < |b.links| && b.links[i].sid == sid
      ensures HandshakeOk(b.links[i], AskedRole(j, i))
      ensures if q.Rerouted() && j.join == Some(i) then Dying(b.links[i]) else Live(b.links[i])
    {
      assert HandshakeOk(a.links[i], AskedRole(k, i));
    }
  }

  lemma AttachingTopology(a: Net, sid: Sid, link: LinkId, role: Role, j: Control)
    requires Topology(a, sid) && SameStreams(a.ctls[sid], j)
    requires link < |a.links| && a.links[link].sid == sid && a.links[link].acked
    requires var b := AttachOpener(WithControl(a, sid, j), sid, link, role);
             && InOrder(a.clients, PlanOf(b, j), j)
             && AttachesTo(PlanOf(a, a.ctls[sid]), PlanOf(b, j), a.links[link].opener, End(link, true), role)
    ensures Topology(AttachOpener(WithControl(a, sid, j), sid, link, role), sid)
  {
    hide CircuitAsCalled, LinksAsCalled, SessionWith;
    var b := AttachOpener(WithControl(a, sid, j), sid, link, role);
    var k, n0 := a.ctls[sid], a.links[link].opener;
    var p, q := PlanOf(a, k), PlanOf(b, j);
    AttachingLinks(a, b, sid, k, j, link, b.links[link]);
    assert SinkWillClose(a, sid, k);
    assert forall n :: SlotOf(b, n, sid) == if n == n0 then Attach(SlotOf(a, n0, sid), role, End(link, true))
               else SlotOf(a, n, sid);
    StreamsStay(a.links, b.links, sid, k, j);
    SinkStays(a, b, sid, k, j, n0);
    assert b.ctls[sid] == j && b.clients == a.clients;
    hide InOrder, SlotsAsCalled, Attach, Streams, SinkWillClose, AttachOpener, AttachesTo, PlanOf;
    AttachingSlots(a, b, sid, k, j, n0, End(link, true), role);
  }

  lemma StreamsStay(a: seq<Link>, b: seq<Link>, sid: Sid, k: Control, j: Control)
    requires Streams(a, sid, k) && SameStreams(k, j) && |a| == |b|
    requires forall l :: 0 <= l < |a| ==>
                 b[l].sid == a[l].sid && b[l].opener == a[l].opener && b[l].acceptor == a[l].acceptor
    ensures Streams(b, sid, j)
  {}

  lemma SinkStays(a: Net, b: Net, sid: Sid, k: Control, j: Control, n0: NodeId)
    requires SinkWillClose(a, sid, k) && SameStreams(k, j) && |b.links| == |a.links|
    requires PlanOf(a, k).Rerouted() == PlanOf(b, j).Rerouted()
             && PlanOf(a, k).join.acceptor == PlanOf(b, j).join.acceptor
    requires !Abandoned(PlanOf(a, k), n0) && PlanOf(a, k).join.id == k.join
    requires forall n :: n != n0 ==> SlotOf(b, n, sid) == SlotOf(a, n, sid)
    requires forall l :: 0 <= l < |a.links| ==> b.links[l].a == a.links[l].a
    ensures SinkWillClose(b, sid, j)
  {
    hide PlanOf, SlotOf;
  }

  lemma AttachingSlots(a: Net, b: Net, sid: Sid, k: Control, j: Control, n0: NodeId, e: End, role: Role)
    requires SlotsAsCalled(a, sid, k) && AttachesTo(PlanOf(a, k), PlanOf(b, j), n0, e, role)
    requires forall n :: SlotOf(b, n, sid) == if n == n0 then Attach(SlotOf(a, n0, sid), role, e) else SlotOf(a, n, sid)
    ensures SlotsAsCalled(b, sid, j)
  {
    var p, q := PlanOf(a, k), PlanOf(b, j);
    hide PlanOf, Called, CircuitAsCalled, SlotOf;
    forall n ensures SessionAsCalled(q, n, SlotOf(b, n, sid)) && CircuitAsCalled(q, n, SlotOf(b, n, sid)) {
      assert SessionAsCalled(p, n, SlotOf(a, n, sid)) && CircuitAsCalled(p, n, SlotOf(a, n, sid));
      SessionDoesNotMatter(q, n, SlotOf(a, n, sid), SlotOf(b, n, sid));
    }
  }

  lemma SessionDoesNotMatter(p: Plan, n: NodeId, s: Slot, t: Slot)
    requires s.circuit == t.circuit && s.probe == t.probe
    ensures CircuitAsCalled(p, n, s) == CircuitAsCalled(p, n, t)
  {}

  lemma PostKeepsStages(links: seq<Link>, w: Option<Write>)
    requires w.Some? ==> !w.value.msg.SetSession?
    ensures SameStages(links, Post(links, w))
  {}

  lemma StagesThen(a: seq<Link>, b: seq<Link>, c: seq<Link>)
    requires SameStages(a, b) && SameStages(b, c)
    ensures SameStages(a, c)
  {}

  /** A step that only queues messages other than set-session messages. */
  lemma CommitKeepsShape(a: Net, n: NodeId, sid: Sid, out: Outcome)
    requires sid in a.ctls && SameShape(SlotOf(a, n, sid), out.slot) && out.shut1.None? && out.shut2.None?
    requires out.first.Some? ==> !out.first.value.msg.SetSession?
    requires out.second.Some? ==> !out.second.value.msg.SetSession?
    ensures ShapeKept(a, Commit(a, n, sid, out), sid)
  {
    var l1 := Post(a.links, out.first);
    PostKeepsStages(a.links, out.first);
    PostKeepsStages(l1, out.second);
    StagesThen(a.links, l1, Post(l1, out.second));
    hide SameStages, SameShape, Post;
  }

  lemma BothWaysTopology(a: Net, n: NodeId, sid: Sid, m: Message)
    requires Topology(a, sid) && !m.SetSession?
    ensures Topology(SendBothWays(a, n, sid, m), sid)
  {
    CommitKeepsShape(a, n, sid, TwoWay(SlotOf(a, n, sid), m));
    var b := SendBothWays(a, n, sid, m);
    ShapeKeepsPlan(a, b, sid);
    hide SlotsAsCalled, LinksAsCalled, Streams, SinkWillClose, ShapeKept;
    ShapeKeepsTopology(a, b, sid);
  }

  lemma ControlTopology(a: Net, sid: Sid, j: Control)
    requires Topology(a, sid) && SameStreams(a.ctls[sid], j) && InOrder(a.clients, PlanOf(a, a.ctls[sid]), j)
    ensures Topology(WithControl(a, sid, j), sid)
  {
    var b := WithControl(a, sid, j);
    assert ShapeKept(a, b, sid);
    ShapeKeepsPlan(a, b, sid);
    hide SlotsAsCalled, LinksAsCalled, Streams, SinkWillClose, ShapeKept;
    ShapeKeepsTopology(a, b, sid);
  }

  lemma DialAttachTopology(a: Net, sid: Sid)
    requires Topology(a, sid) && EnabledTask(a, DialAttach(sid))
    ensures Topology(DoTask(a, DialAttach(sid)), sid)
  {
    var b := DoTask(a, DialAttach(sid));
    var k := a.ctls[sid];
    var p, q := PlanOf(a, k), PlanOf(b, k);
    assert q == p.(dial := p.dial.(attached := true));
    AttachingLinks(a, b, sid, k, k, k.dial, b.links[k.dial]);
    hide LinksAsCalled;
    forall n ensures SessionAsCalled(q, n, SlotOf(b, n, sid)) && CircuitAsCalled(q, n, SlotOf(b, n, sid)) {
      assert SessionAsCalled(p, n, SlotOf(a, n, sid)) && CircuitAsCalled(p, n, SlotOf(a, n, sid));
    }
  }

  lemma HopAttachTopology(a: Net, sid: Sid)
    requires Topology(a, sid) && EnabledTask(a, HopAttach(sid))
    ensures Topology(DoTask(a, HopAttach(sid)), sid)
  {
    var k := a.ctls[sid];
    var j := k.(cmd := Sent);
    var b := AttachOpener(WithControl(a, sid, j), sid, k.hop.value, Access);
    var p := PlanOf(a, k);
    assert HandshakeOk(a.links[k.hop.value], AskedRole(k, k.hop.value));
    assert PlanOf(b, j) == p.(hop := p.hop.(attached := true));
    HopAttachPlan(a.clients, p, k);
    AttachingTopology(a, sid, k.hop.value, Access, j);
  }

  lemma BridgeAttachTopology(a: Net, sid: Sid)
    requires Topology(a, sid) && EnabledTask(a, BridgeAttach(sid))
    ensures Topology(DoTask(a, BridgeAttach(sid)), sid)
  {
    var k := a.ctls[sid];
    var j := k.(cmd := Replied(true));
    var b := AttachOpener(WithControl(a, sid, j), sid, k.bridge.value, Relay);
    var p := PlanOf(a, k);
    assert HandshakeOk(a.links[k.bridge.value], AskedRole(k, k.bridge.value));
    assert PlanOf(b, j) == p.(bridge := p.bridge.(attached := true));
    BridgeAttachPlan(a.clients, p, k);
    AttachingTopology(a, sid, k.bridge.value, Relay, j);
  }
}
