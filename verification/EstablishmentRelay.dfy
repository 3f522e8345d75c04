/** What the relay event handlers do while a circuit is being built: the acceptors' side of the
    construction, the rerouting at an entry node, and the end of the abandoned sink. */
module EstablishmentRelay {
  import opened Wrappers
  import opened Protocol
  import opened RelayLogic
  import opened Network
  import opened Isolation
  import opened Establishment

  // ---- reading a set-session message -----------------------------------------------------------

  /** Node `n0` taking end `e` on a set-session message leads from the one plan to the other. */
  ghost predicate AcceptsTo(p: Plan, q: Plan, n0: NodeId, e: End, role: Role, s: Slot) {
    && s.session == Called(p, n0)
    && Called(q, n0) == Attach(s, role, e).session
    && (forall n :: n != n0 ==> Called(q, n) == Called(p, n))
    && (forall n, t :: n != n0 && CircuitAsCalled(p, n, t) ==> CircuitAsCalled(q, n, t))
    && CircuitAsCalled(q, n0, if role == Answer then WithCircuit(s, e) else s)
    && p.join.id == q.join.id && p.join.acceptor == q.join.acceptor
  }

  /** The leg of the plan that stream `l` is. */
  function Accepting(p: Plan, k: Control, l: LinkId): Plan {
    if l == k.dial then p.(dial := p.dial.(accepted := true))
    else if k.join == Some(l) then p.(join := p.join.(accepted := true))
    else if k.reach == Some(l) then p.(reach := p.reach.(accepted := true))
    else if k.hop == Some(l) then p.(hop := p.hop.(accepted := true))
    else p.(bridge := p.bridge.(accepted := true))
  }

  function LegAt(p: Plan, k: Control, l: LinkId): Leg {
    if l == k.dial then p.dial
    else if k.join == Some(l) then p.join
    else if k.reach == Some(l) then p.reach
    else if k.hop == Some(l) then p.hop
    else p.bridge
  }

  lemma AcceptPlan(clients: set<NodeId>, p: Plan, k: Control, l: LinkId, s: Slot)
    requires InOrder(clients, p, k) && p.home == k.home && p.entry == k.entry
    requires LegAt(p, k, l).id == Some(l) && !LegAt(p, k, l).accepted
    requires s.session == Called(p, LegAt(p, k, l).acceptor) && CircuitAsCalled(p, LegAt(p, k, l).acceptor, s)
    ensures InOrder(clients, Accepting(p, k, l), k)
    ensures AcceptsTo(p, Accepting(p, k, l), LegAt(p, k, l).acceptor, End(l, false), AskedRole(k, l), s)
  {}

  /** The stream after its acceptor has read the set-session message and acknowledged it. */
  function AcceptedLink(l: Link, m: Message): Link {
    l.(a := l.a.(inbox := l.a.inbox - multiset{m}, handler := Running(Some(l.sid))), acked := true)
  }

  /** A set-session message lies in the inbox of an acceptor that has no session id yet, and asks for
      the role the opener meant. */
  lemma SetSessionIsFirst(a: Net, e: End, m: Message)
    requires WellFormed(a) && EnabledRelay(a, Deliver(e, m)) && m.SetSession? && Topology(a, a.links[e.link].sid)
    ensures var sid := a.links[e.link].sid;
            var k := a.ctls[sid];
            var leg := LegAt(PlanOf(a, k), k, e.link);
            && !e.opener && StateOf(a, e).handler == Running(None) && m == SetSession(sid, AskedRole(k, e.link))
            && leg.id == Some(e.link) && leg.acceptor == OwnerOf(a, e) && !leg.accepted
            && (k.home == k.entry ==> k.reach.None?)
  {
    var l := a.links[e.link];
    assert LinkOk(l) && Carries(m, l.sid);
    assert HandshakeOk(l, AskedRole(a.ctls[l.sid], e.link));
    assert forall r :: l.o.inbox[SetSession(l.sid, r)] == 0;
    assert l.a.inbox[SetSession(l.sid, m.role)] > 0;
  }

  lemma AcceptedLinksOk(a: Net, b: Net, sid: Sid, k: Control, i: LinkId)
    requires LinksAsCalled(a, sid, k) && Streams(a.links, sid, k) && i < |a.links| && a.links[i].sid == sid
    requires a.links[i].a.handler == Running(None) && a.links[i].o.handler == Waiting
    requires b.links == a.links[i := AcceptedLink(a.links[i], SetSession(sid, AskedRole(k, i)))]
    requires PlanOf(b, k).Rerouted() == PlanOf(a, k).Rerouted()
    ensures LinksAsCalled(b, sid, k)
  {
    var q := PlanOf(b, k);
    forall l | 0 <= l < |b.links| && b.links[l].sid == sid
      ensures HandshakeOk(b.links[l], AskedRole(k, l))
      ensures if q.Rerouted() && k.join == Some(l) then Dying(b.links[l]) else Live(b.links[l])
    {
      assert HandshakeOk(a.links[l], AskedRole(k, l));
    }
  }

  /** The acceptor's slot follows the plan, and the other slots still do. */
  lemma AcceptedSlotsOk(a: Net, b: Net, sid: Sid, k: Control, q: Plan, n0: NodeId, e: End, role: Role)
    requires SlotsAsCalled(a, sid, k) && PlanOf(b, k) == q
    requires AcceptsTo(PlanOf(a, k), q, n0, e, role, SlotOf(a, n0, sid))
    requires SlotOf(b, n0, sid) ==
             Attach(if role == Answer then WithCircuit(SlotOf(a, n0, sid), e) else SlotOf(a, n0, sid), role, e)
    requires forall n :: n != n0 ==> SlotOf(b, n, sid) == SlotOf(a, n, sid)
    requires PlanOf(a, k).Rerouted() ==> q.Rerouted()
    ensures SlotsAsCalled(b, sid, k)
  {
    var p := PlanOf(a, k);
    hide Called, CircuitAsCalled;
    forall n ensures SessionAsCalled(q, n, SlotOf(b, n, sid)) && CircuitAsCalled(q, n, SlotOf(b, n, sid)) {
      assert SessionAsCalled(p, n, SlotOf(a, n, sid)) && CircuitAsCalled(p, n, SlotOf(a, n, sid));
      if n == n0 {
        var s := SlotOf(a, n0, sid);
        SessionDoesNotMatter(q, n0, if role == Answer then WithCircuit(s, e) else s, SlotOf(b, n0, sid));
      }
    }
  }

  /** The stream to the old sink after a rerouting: it carries a disconnect message and is closed. */
  function AbandonedLink(l: Link): Link {
    ShutLink(l.(a := l.a.(inbox := l.a.inbox + multiset{Disconnect(l.sid)})))
  }

  lemma ReroutedLinksOk(a: Net, b: Net, sid: Sid, k: Control)
    requires LinksAsCalled(a, sid, k) && Streams(a.links, sid, k) && k.hop.Some? && k.join.Some?
    requires a.links[k.hop.value].a.handler == Running(None) && a.links[k.hop.value].o.handler == Waiting
    requires !PlanOf(a, k).Rerouted() && PlanOf(b, k).Rerouted() && PlanOf(a, k).join.attached
             && PlanOf(a, k).join.accepted
    requires b.links == a.links[k.hop.value := AcceptedLink(a.links[k.hop.value], SetSession(sid, Relay))]
                               [k.join.value := AbandonedLink(a.links[k.join.value])]
    ensures LinksAsCalled(b, sid, k)
  {
    forall l | 0 <= l < |b.links| && b.links[l].sid == sid
      ensures HandshakeOk(b.links[l], AskedRole(k, l))
      ensures if k.join == Some(l) then Dying(b.links[l]) else Live(b.links[l])
    {
      assert HandshakeOk(a.links[l], AskedRole(k, l));
      assert Live(a.links[l]);
    }
  }

  /** The acceptor either takes the stream and acknowledges, or is the entry node asked to relay: then
      it also queues a disconnect message on its stream to the sink and closes that stream. */
  lemma AcceptingOutcome(clients: set<NodeId>, p: Plan, k: Control, l: LinkId, s: Slot, sid: Sid)
    requires InOrder(clients, p, k) && p.home == k.home && p.entry == k.entry
    requires LegAt(p, k, l).id == Some(l) && !LegAt(p, k, l).accepted
    requires s.session == Called(p, LegAt(p, k, l).acceptor)
    requires p.join.id == k.join && p.hop.id == k.hop && p.dial.id == Some(k.dial)
    requires k.hop == Some(l) ==> k.join != k.hop && l != k.dial && k.reach != k.hop
    ensures var role, e := AskedRole(k, l), End(l, false);
            var out := OnSetSession(s, e, SetSession(sid, role));
            var kept := Quiet(Attach(if role == Answer then WithCircuit(s, e) else s, role, e)).(ack := true);
            if k.hop == Some(l) && p.RelayIsEntry() then
              k.join.Some? && role == Relay
              && out == kept.(first := Some(Write(End(k.join.value, true), Disconnect(sid))),
                              shut1 := Some(End(k.join.value, true)))
            else out == kept
  {}

  /** The network after a set-session message without a rerouting. */
  lemma DeliverKept(a: Net, e: End, m: Message, slot: Slot)
    requires EnabledRelay(a, Deliver(e, m)) && m.SetSession? && !e.opener && StateOf(a, e).handler == Running(None)
    requires m.sid == a.links[e.link].sid
    requires OnSetSession(SlotOf(a, OwnerOf(a, e), m.sid), e, m) == Quiet(slot).(ack := true)
    ensures DoDeliver(a, e, m) ==
            a.(slots := a.slots[(OwnerOf(a, e), m.sid) := slot],
               links := a.links[e.link := AcceptedLink(a.links[e.link], m)])
  {
    var l1 := Take(a, e, m, Running(Some(m.sid))).links;
    assert Post(l1, None) == l1 && Shut(l1, None) == l1;
    hide OnSetSession;
    assert l1[e.link := l1[e.link].(acked := true)] == a.links[e.link := AcceptedLink(a.links[e.link], m)];
  }

  /** The network after a set-session message that reroutes. */
  lemma DeliverRerouted(a: Net, e: End, m: Message, slot: Slot, stale: LinkId)
    requires EnabledRelay(a, Deliver(e, m)) && m.SetSession? && !e.opener && StateOf(a, e).handler == Running(None)
    requires m.sid == a.links[e.link].sid && stale < |a.links| && stale != e.link && a.links[stale].sid == m.sid
    requires OnSetSession(SlotOf(a, OwnerOf(a, e), m.sid), e, m) ==
             Quiet(slot).(first := Some(Write(End(stale, true), Disconnect(m.sid))), shut1 := Some(End(stale, true)),
                             ack := true)
    ensures DoDeliver(a, e, m) ==
            a.(slots := a.slots[(OwnerOf(a, e), m.sid) := slot],
               links := a.links[e.link := AcceptedLink(a.links[e.link], m)][stale := AbandonedLink(a.links[stale])])
  {
    var l1 := Take(a, e, m, Running(Some(m.sid))).links;
    var l2 := Post(l1, Some(Write(End(stale, true), Disconnect(m.sid))));
    var l3 := Shut(l2, Some(End(stale, true)));
    hide OnSetSession;
    assert Post(l2, None) == l2 && Shut(l3, None) == l3;
    assert l3 == l1[stale := AbandonedLink(a.links[stale])];
    assert l3[e.link := l3[e.link].(acked := true)]
        == a.links[e.link := AcceptedLink(a.links[e.link], m)][stale := AbandonedLink(a.links[stale])];
  }

  /** A stream of the session id is recorded exactly once. */
  lemma OnlyOnce(links: seq<Link>, sid: Sid, k: Control, l: LinkId)
    requires Streams(links, sid, k) && l < |links| && links[l].sid == sid
    ensures l == k.dial || k.join == Some(l) || k.reach == Some(l) || k.hop == Some(l) || k.bridge == Some(l)
    ensures l == k.dial ==> k.join != Some(l) && k.reach != Some(l) && k.hop != Some(l) && k.bridge != Some(l)
    ensures k.join == Some(l) ==> k.reach != Some(l) && k.hop != Some(l) && k.bridge != Some(l)
    ensures k.reach == Some(l) ==> k.hop != Some(l) && k.bridge != Some(l)
    ensures k.hop == Some(l) ==> k.bridge != Some(l)
  {}

  lemma LegAfterAccepting(a: Net, b: Net, link: Option<LinkId>, l: LinkId)
    requires l < |a.links| && |b.links| == |a.links|
    requires forall i :: 0 <= i < |a.links| ==>
               && b.links[i].acceptor == a.links[i].acceptor
               && (b.links[i].o.handler == Waiting <==> a.links[i].o.handler == Waiting)
               && (b.links[i].a.handler == Running(None) <==> a.links[i].a.handler == Running(None) && i != l)
    ensures LegOf(b, link) == if link == Some(l) then LegOf(a, link).(accepted := true) else LegOf(a, link)
  {}

  lemma PlanAfterAccepting(a: Net, b: Net, sid: Sid, k: Control, l: LinkId)
    requires Streams(a.links, sid, k) && l < |a.links| && a.links[l].sid == sid && |b.links| == |a.links|
    requires forall i :: 0 <= i < |a.links| ==>
               && b.links[i].acceptor == a.links[i].acceptor
               && (b.links[i].o.handler == Waiting <==> a.links[i].o.handler == Waiting)
               && (b.links[i].a.handler == Running(None) <==> a.links[i].a.handler == Running(None) && i != l)
    ensures PlanOf(b, k) == Accepting(PlanOf(a, k), k, l)
  {
    hide Streams, LegOf;
    OnlyOnce(a.links, sid, k, l);
    LegAfterAccepting(a, b, Some(k.dial), l);
    LegAfterAccepting(a, b, k.join, l);
    LegAfterAccepting(a, b, k.reach, l);
    LegAfterAccepting(a, b, k.hop, l);
    LegAfterAccepting(a, b, k.bridge, l);
  }

  /** Before the rerouting: the acceptor's slot and stream change as `b` says. */
  ghost predicate Accepted(a: Net, b: Net, sid: Sid, e: End, links: seq<Link>) {
    && sid in a.ctls && e.link < |a.links| && a.links[e.link].sid == sid && !e.opener
    && StateOf(a, e).handler == Running(None) && a.links[e.link].o.handler == Waiting
    && var k, n0 := a.ctls[sid], OwnerOf(a, e);
    var p, s, role := PlanOf(a, k), SlotOf(a, n0, sid), AskedRole(k, e.link);
    var slot := Attach(if role == Answer then WithCircuit(s, e) else s, role, e);
    && b == a.(slots := a.slots[(n0, sid) := slot], links := links)
    && InOrder(a.clients, Accepting(p, k, e.link), k)
    && AcceptsTo(p, Accepting(p, k, e.link), n0, e, role, s)
    && !p.Rerouted()
  }

  lemma AcceptKeptTopology(a: Net, b: Net, sid: Sid, e: End)
    requires Topology(a, sid) && sid in a.ctls && e.link < |a.links|
    requires Accepted(a, b, sid, e,
                         a.links[e.link := AcceptedLink(a.links[e.link],
                                                           SetSession(sid, AskedRole(a.ctls[sid], e.link)))])
    requires !Accepting(PlanOf(a, a.ctls[sid]), a.ctls[sid], e.link).Rerouted()
    ensures Topology(b, sid)
  {
    var k := a.ctls[sid];
    hide AcceptsTo, InOrder, SlotsAsCalled, LinksAsCalled, Attach, WithCircuit, Accepting, AskedRole;
    PlanAfterAccepting(a, b, sid, k, e.link);
    AcceptedLinksOk(a, b, sid, k, e.link);
    AcceptedSlotsOk(a, b, sid, k, PlanOf(b, k), OwnerOf(a, e), e, AskedRole(k, e.link));
    StreamsKept(a.links, b.links, sid, k);
  }

  lemma StreamsKept(a: seq<Link>, b: seq<Link>, sid: Sid, k: Control)
    requires Streams(a, sid, k) && |a| == |b|
    requires forall l :: 0 <= l < |a| ==>
                 b[l].sid == a[l].sid && b[l].opener == a[l].opener && b[l].acceptor == a[l].acceptor
    ensures Streams(b, sid, k)
  {}

  lemma AcceptReroutedTopology(a: Net, b: Net, sid: Sid, e: End)
    requires Topology(a, sid) && sid in a.ctls && e.link < |a.links|
    requires var k := a.ctls[sid];
             && k.join.Some? && k.join.value < |a.links| && k.hop == Some(e.link)
             && AskedRole(k, e.link) == Relay && PlanOf(a, k).join.attached && PlanOf(a, k).join.accepted
             && Accepting(PlanOf(a, k), k, e.link).Rerouted()
             && Accepted(a, b, sid, e, a.links[e.link := AcceptedLink(a.links[e.link], SetSession(sid, Relay))]
                                              [k.join.value := AbandonedLink(a.links[k.join.value])])
    ensures Topology(b, sid)
  {
    var k := a.ctls[sid];
    assert Live(a.links[k.join.value]);
    hide AcceptsTo, InOrder, SlotsAsCalled, LinksAsCalled, Attach, WithCircuit, Accepting, AskedRole;
    PlanAfterAccepting(a, b, sid, k, e.link);
    ReroutedLinksOk(a, b, sid, k);
    AcceptedSlotsOk(a, b, sid, k, PlanOf(b, k), OwnerOf(a, e), e, Relay);
    StreamsKept(a.links, b.links, sid, k);
  }

  /** Whether reading the set-session message on `l` reroutes: it comes from the access node to an entry
      node that has a stream to a sink. */
  predicate Reroutes(p: Plan, k: Control, l: LinkId) { k.hop == Some(l) && p.RelayIsEntry() }

  /** The network after an acceptor has read its set-session message. */
  lemma AcceptForm(a: Net, e: End, m: Message)
    requires WellFormed(a) && EnabledRelay(a, Deliver(e, m)) && m.SetSession? && Topology(a, a.links[e.link].sid)
    ensures var sid, n0 := a.links[e.link].sid, OwnerOf(a, e);
            var k := a.ctls[sid];
            var p, s, role := PlanOf(a, k), SlotOf(a, n0, sid), AskedRole(k, e.link);
            var slot := Attach(if role == Answer then WithCircuit(s, e) else s, role, e);
            var l1 := a.links[e.link := AcceptedLink(a.links[e.link], m)];
            && m == SetSession(sid, role) && !e.opener && LegAt(p, k, e.link).id == Some(e.link)
            && StateOf(a, e).handler == Running(None) && a.links[e.link].o.handler == Waiting
            && InOrder(a.clients, Accepting(p, k, e.link), k)
            && AcceptsTo(p, Accepting(p, k, e.link), n0, e, role, s)
            && !p.Rerouted() && (Accepting(p, k, e.link).Rerouted() <==> Reroutes(p, k, e.link))
            && (Reroutes(p, k, e.link) ==>
                  k.join.Some? && k.join.value < |a.links| && k.join.value != e.link && role == Relay
                  && a.links[k.join.value].sid == sid && p.join.attached && p.join.accepted)
            && DoDeliver(a, e, m) ==
               a.(slots := a.slots[(n0, sid) := slot],
                  links := if Reroutes(p, k, e.link) then l1[k.join.value := AbandonedLink(a.links[k.join.value])]
                      else l1)
  {
    var sid := a.links[e.link].sid;
    var k := a.ctls[sid];
    var p, n0, role := PlanOf(a, k), OwnerOf(a, e), AskedRole(k, e.link);
    var s := SlotOf(a, n0, sid);
    SetSessionIsFirst(a, e, m);
    assert LinkOk(a.links[e.link]);
    assert SessionAsCalled(p, n0, s) && CircuitAsCalled(p, n0, s);
    hide WellFormed, LinkOk, HandshakeOk, CircuitAsCalled;
    AcceptPlan(a.clients, p, k, e.link, s);
    AcceptingOutcome(a.clients, p, k, e.link, s, sid);
    var slot := Attach(if role == Answer then WithCircuit(s, e) else s, role, e);
    hide OnSetSession, Called, SlotsAsCalled, LinksAsCalled, AcceptsTo, DoDeliver;
    if Reroutes(p, k, e.link) {
      DeliverRerouted(a, e, m, slot, k.join.value);
    } else {
      DeliverKept(a, e, m, slot);
    }
  }

  lemma AcceptTopology(a: Net, e: End, m: Message)
    requires WellFormed(a) && EnabledRelay(a, Deliver(e, m)) && m.SetSession? && Topology(a, a.links[e.link].sid)
    ensures Topology(DoDeliver(a, e, m), a.links[e.link].sid)
  {
    var sid := a.links[e.link].sid;
    var k := a.ctls[sid];
    AcceptForm(a, e, m);
    hide WellFormed, SlotsAsCalled, LinksAsCalled, AcceptsTo, DoDeliver, InOrder, Streams;
    if Reroutes(PlanOf(a, k), k, e.link) {
      AcceptReroutedTopology(a, DoDeliver(a, e, m), sid, e);
    } else {
      AcceptKeptTopology(a, DoDeliver(a, e, m), sid, e);
    }
  }

  // ---- the other messages ------------------------------------------------------------------------

  /** A stream loses one unread message that is not a set-session message. */
  lemma TakingKeepsShape(a: Net, e: End, m: Message, sid: Sid)
    requires Known(a, e) && !m.SetSession? && sid in a.ctls
    ensures ShapeKept(a, Take(a, e, m, StateOf(a, e).handler), sid)
  {}

  lemma ShapesThen(a: Net, b: Net, c: Net, sid: Sid)
    requires ShapeKept(a, b, sid) && ShapeKept(b, c, sid)
    ensures ShapeKept(a, c, sid)
  {
    StagesThen(a.links, b.links, c.links);
    forall n ensures SameShape(SlotOf(a, n, sid), SlotOf(c, n, sid)) {
      assert SameShape(SlotOf(a, n, sid), SlotOf(b, n, sid)) && SameShape(SlotOf(b, n, sid), SlotOf(c, n, sid));
    }
  }

  predicate IsTraffic(m: Message) { m.Probe? || m.Success? || m.Data? }

  /** Probes, successes and data leave every session as it is: all probes of a session id agree. */
  lemma TrafficOutcome(s: Slot, e: End, sid: Sid, m: Message)
    requires IsTraffic(m) && Carries(m, sid) && (s.probe.Some? ==> s.probe.value == ProbeRand(sid))
    ensures var out := OnMessage(s, e, sid, m);
            && SameShape(s, out.slot) && out.shut1.None? && out.shut2.None? && !out.ack
            && (out.first.Some? ==> IsTraffic(out.first.value.msg))
            && (out.second.Some? ==> IsTraffic(out.second.value.msg))
  {}

  /** Reading such a message is taking it from the inbox and committing the outcome. */
  lemma TrafficStep(a: Net, e: End, m: Message)
    requires WellFormed(a) && EnabledRelay(a, Deliver(e, m)) && IsTraffic(m)
    ensures var sid := a.links[e.link].sid;
            var out := OnMessage(SlotOf(a, OwnerOf(a, e), sid), e, sid, m);
            && Carries(m, sid) && StateOf(a, e).handler == Running(Some(sid)) && EndOk(a.links, OwnerOf(a, e), sid, e)
            && SlotOk(a.links, OwnerOf(a, e), sid, SlotOf(a, OwnerOf(a, e), sid))
            && DoDeliver(a, e, m) == Commit(Take(a, e, m, StateOf(a, e).handler), OwnerOf(a, e), sid, out)
  {
    var sid := a.links[e.link].sid;
    assert LinkOk(a.links[e.link]);
    assert SlotOk(a.links, OwnerOf(a, e), sid, SlotOf(a, OwnerOf(a, e), sid));
    hide WellFormed, LinkOk, SlotOk, Commit;
    TrafficOutcome(SlotOf(a, OwnerOf(a, e), sid), e, sid, m);
  }

  lemma TrafficKeepsShape(a: Net, e: End, m: Message)
    requires WellFormed(a) && EnabledRelay(a, Deliver(e, m)) && IsTraffic(m) && a.links[e.link].sid in a.ctls
    ensures ShapeKept(a, DoDeliver(a, e, m), a.links[e.link].sid) && DoDeliver(a, e, m).ctls == a.ctls
  {
    var sid, n := a.links[e.link].sid, OwnerOf(a, e);
    var n1 := Take(a, e, m, StateOf(a, e).handler);
    TrafficStep(a, e, m);
    hide WellFormed, DoDeliver, ShapeKept, OnMessage;
    TakingKeepsShape(a, e, m, sid);
    TrafficOutcome(SlotOf(a, n, sid), e, sid, m);
    CommitKeepsShape(n1, n, sid, OnMessage(SlotOf(a, n, sid), e, sid, m));
    ShapesThen(a, n1, DoDeliver(a, e, m), sid);
  }

  lemma ShapeTopology(a: Net, b: Net, sid: Sid)
    requires Topology(a, sid) && ShapeKept(a, b, sid) && b.ctls[sid] == a.ctls[sid]
    ensures Topology(b, sid)
  {
    ShapeKeepsPlan(a, b, sid);
    hide ShapeKept, SlotsAsCalled, LinksAsCalled, Streams, SinkWillClose;
    ShapeKeepsTopology(a, b, sid);
  }

  // ---- the abandoned sink ------------------------------------------------------------------------

  /** The handlers at the two ends of the dying stream stop, and the sink drops its slot. */
  ghost predicate Dies(a: Net, b: Net, sid: Sid, e: End) {
    && sid in a.ctls && b.clients == a.clients && b.ctls == a.ctls && |b.links| == |a.links|
    && var k := a.ctls[sid];
    var p := PlanOf(a, k);
    && k.join == Some(e.link) && e.link < |a.links| && p.Rerouted()
    && (forall l :: 0 <= l < |a.links| && l != e.link ==> b.links[l] == a.links[l])
    && b.links[e.link].sid == a.links[e.link].sid && b.links[e.link].opener == a.links[e.link].opener
    && b.links[e.link].acceptor == a.links[e.link].acceptor
    && HandshakeOk(b.links[e.link], AskedRole(k, e.link)) && Dying(b.links[e.link])
    && (forall n :: SlotOf(b, n, sid) == SlotOf(a, n, sid) || (n == p.join.acceptor && SlotOf(b, n, sid) == EMPTY_SLOT))
    && (b.links[e.link].a.handler == a.links[e.link].a.handler || SlotOf(b, p.join.acceptor, sid) == EMPTY_SLOT)
  }

  lemma DyingTopology(a: Net, b: Net, sid: Sid, e: End)
    requires Topology(a, sid) && Dies(a, b, sid, e)
    ensures Topology(b, sid)
  {
    var k := a.ctls[sid];
    var p := PlanOf(a, k);
    assert Dying(a.links[e.link]);
    assert PlanOf(b, k) == p;
    StreamsKept(a.links, b.links, sid, k);
    assert LinksAsCalled(b, sid, k);
    assert p.join.acceptor !in a.clients && p.join.id.Some?;
    forall n ensures SessionAsCalled(p, n, SlotOf(b, n, sid)) && CircuitAsCalled(p, n, SlotOf(b, n, sid)) {
      assert SessionAsCalled(p, n, SlotOf(a, n, sid)) && CircuitAsCalled(p, n, SlotOf(a, n, sid));
    }
  }

  /** Where unread messages may lie: a disconnect message only on the stream to an abandoned sink,
      successes and data only once a Success has been originated, and no probe on its way from a client. */
  predicate InPlace(k: Control, rerouted: bool, emitted: bool, l: LinkId, opener: bool, m: Message) {
    && (m.Disconnect? ==> k.join == Some(l) && !opener && rerouted)
    && (m.Success? || m.Data? ==> emitted)
    && (m.Probe? ==> !(l == k.dial && !opener) && !(k.reach == Some(l) && opener))
  }

  ghost predicate MailIn(links: seq<Link>, sid: Sid, k: Control, rerouted: bool, emitted: bool) {
    && (forall l, m :: 0 <= l < |links| && links[l].sid == sid && m in links[l].o.inbox ==>
          InPlace(k, rerouted, emitted, l, true, m))
    && (forall l, m :: 0 <= l < |links| && links[l].sid == sid && m in links[l].a.inbox ==>
          InPlace(k, rerouted, emitted, l, false, m))
  }

  ghost predicate Mail(net: Net, sid: Sid) {
    && sid in net.ctls
    && MailIn(net.links, sid, net.ctls[sid], PlanOf(net, net.ctls[sid]).Rerouted(), net.emitted[sid] > 0)
  }

  /** The slot of an abandoned sink holds at most the stream that is dying. */
  lemma AbandonedSlot(a: Net, sid: Sid)
    requires Topology(a, sid) && PlanOf(a, a.ctls[sid]).Rerouted()
    ensures var k := a.ctls[sid];
            var p := PlanOf(a, k);
            var s := SlotOf(a, p.join.acceptor, sid);
            && k.join.Some? && p.join.accepted
            && (s == EMPTY_SLOT || s.session == Some(Session(Sink, Some(End(k.join.value, false)), None)))
  {
    var p := PlanOf(a, a.ctls[sid]);
    assert SessionAsCalled(p, p.join.acceptor, SlotOf(a, p.join.acceptor, sid));
  }

  /** Closing the slot of the abandoned sink: its stream is closed already. */
  lemma ClosingAbandoned(a: Net, n1: Net, sid: Sid, e: End, out: Outcome)
    requires Topology(a, sid) && a.ctls[sid].join == Some(e.link) && !e.opener && PlanOf(a, a.ctls[sid]).Rerouted()
    requires n1.slots == a.slots && n1.clients == a.clients && n1.ctls == a.ctls && |n1.links| == |a.links|
    requires forall l :: 0 <= l < |a.links| && l != e.link ==> n1.links[l] == a.links[l]
    requires n1.links[e.link] == WithEnd(a.links[e.link], false, n1.links[e.link].a)
    requires n1.links[e.link].a.eof && n1.links[e.link].a.handler == Stopped
    requires forall r :: n1.links[e.link].a.inbox[SetSession(sid, r)] == a.links[e.link].a.inbox[SetSession(sid, r)]
    requires var s := SlotOf(a, PlanOf(a, a.ctls[sid]).join.acceptor, sid);
             out == OnClose(s) || (s.session.None? && out == Quiet(s))
    ensures var b := Commit(n1, PlanOf(a, a.ctls[sid]).join.acceptor, sid, out);
            && Dies(a, b, sid, e) && b.emitted == n1.emitted && b.started == n1.started
            && b.links[e.link].o.inbox == n1.links[e.link].o.inbox
               && b.links[e.link].a.inbox == n1.links[e.link].a.inbox
            && SlotOf(b, PlanOf(a, a.ctls[sid]).join.acceptor, sid) == EMPTY_SLOT
  {
    var k := a.ctls[sid];
    AbandonedSlot(a, sid);
    assert HandshakeOk(a.links[e.link], AskedRole(k, e.link)) && Dying(a.links[e.link]);
  }

  lemma DisconnectDies(a: Net, e: End, m: Message)
    requires WellFormed(a) && EnabledRelay(a, Deliver(e, m)) && m.Disconnect?
    requires Topology(a, a.links[e.link].sid) && Mail(a, a.links[e.link].sid)
    ensures var sid, b := a.links[e.link].sid, DoDeliver(a, e, m);
            && Dies(a, b, sid, e) && b.emitted == a.emitted && b.started == a.started
            && b.links[e.link].o.inbox <= a.links[e.link].o.inbox && b.links[e.link].a.inbox <= a.links[e.link].a.inbox
            && SlotOf(b, PlanOf(a, a.ctls[sid]).join.acceptor, sid) == EMPTY_SLOT
  {
    hide ControlOk, InOrder, Commit, SlotOf, Dies, Streams;
    var sid := a.links[e.link].sid;
    var k := a.ctls[sid];
    assert LinkOk(a.links[e.link]);
    assert InPlace(k, PlanOf(a, k).Rerouted(), a.emitted[sid] > 0, e.link, e.opener, m);
    var n1 := Take(a, e, m, Stopped);
    AbandonedSlot(a, sid);
    assert Dying(a.links[e.link]);
    var out := OnClose(SlotOf(a, OwnerOf(a, e), sid));
    hide WellFormed, Mail, LinkOk;
    ClosingAbandoned(a, n1, sid, e, out);
  }

  lemma DisconnectTopology(a: Net, e: End, m: Message)
    requires WellFormed(a) && EnabledRelay(a, Deliver(e, m)) && m.Disconnect?
    requires Topology(a, a.links[e.link].sid) && Mail(a, a.links[e.link].sid)
    ensures Topology(DoDeliver(a, e, m), a.links[e.link].sid)
  {
    DisconnectDies(a, e, m);
    hide WellFormed, Topology, Mail, Dies, DoDeliver;
    DyingTopology(a, DoDeliver(a, e, m), a.links[e.link].sid, e);
  }

  /** A read error reaches only a handler of the stream to an abandoned sink. */
  lemma FaultSite(a: Net, e: End)
    requires WellFormed(a) && EnabledRelay(a, Fault(e)) && Topology(a, a.links[e.link].sid)
    ensures var sid := a.links[e.link].sid;
            var k := a.ctls[sid];
            var p := PlanOf(a, k);
            && p.Rerouted() && k.join == Some(e.link) && Dying(a.links[e.link])
            && HandshakeOk(a.links[e.link], AskedRole(k, e.link))
            && StateOf(a, e).handler == Running(Some(sid))
            && OwnerOf(a, e) == (if e.opener then p.entry else p.join.acceptor)
            && SessionAsCalled(p, OwnerOf(a, e), SlotOf(a, OwnerOf(a, e), sid))
            && InOrder(a.clients, p, k)
  {
    var sid := a.links[e.link].sid;
    var k := a.ctls[sid];
    assert LinkOk(a.links[e.link]);
    assert HandshakeOk(a.links[e.link], AskedRole(k, e.link));
    assert PlanOf(a, k).Rerouted() && k.join == Some(e.link) && Dying(a.links[e.link]);
    assert SessionAsCalled(PlanOf(a, k), OwnerOf(a, e), SlotOf(a, OwnerOf(a, e), sid));
  }

  /** The stale stream's read error at the entry node closes nothing: the session holds the stream
      from the caller and the one from the access node. */
  lemma StaleErrorIsHarmless(a: Net, e: End)
    requires WellFormed(a) && EnabledRelay(a, Fault(e)) && Topology(a, a.links[e.link].sid) && e.opener
    ensures var sid := a.links[e.link].sid;
            var s := SlotOf(a, a.ctls[sid].entry, sid);
            && OwnerOf(a, e) == a.ctls[sid].entry
            && s.session.Some? && s.session.value.Ready() && !s.session.value.Holds(e)
            && OnError(s, e) == Quiet(s)
            && SlotOf(DoFault(a, e), a.ctls[sid].entry, sid) == s
  {
    FaultSite(a, e);
  }

  lemma QuietCommit(a: Net, n: NodeId, sid: Sid, s: Slot)
    ensures Commit(a, n, sid, Quiet(s)) == a.(slots := a.slots[(n, sid) := s])
  {}

  /** Only the handler at the entry node's end of the dying stream stops. */
  lemma StaleStops(a: Net, b: Net, sid: Sid, e: End)
    requires Topology(a, sid) && e.opener && a.ctls[sid].join == Some(e.link) && PlanOf(a, a.ctls[sid]).Rerouted()
    requires HandshakeOk(a.links[e.link], AskedRole(a.ctls[sid], e.link)) && Dying(a.links[e.link])
    requires b.clients == a.clients && b.ctls == a.ctls && forall n :: SlotOf(b, n, sid) == SlotOf(a, n, sid)
    requires b.links == a.links[e.link := a.links[e.link].(o := a.links[e.link].o.(handler := Stopped))]
    ensures Dies(a, b, sid, e)
  {
    hide LinksAsCalled, SlotsAsCalled, Called, InOrder;
  }

  lemma FaultDies(a: Net, e: End)
    requires WellFormed(a) && EnabledRelay(a, Fault(e)) && Topology(a, a.links[e.link].sid)
    ensures var sid, b := a.links[e.link].sid, DoFault(a, e);
            && Dies(a, b, sid, e) && b.emitted == a.emitted && b.started == a.started
            && b.links[e.link].o.inbox <= a.links[e.link].o.inbox && b.links[e.link].a.inbox <= a.links[e.link].a.inbox
            && (!e.opener ==> SlotOf(b, PlanOf(a, a.ctls[sid]).join.acceptor, sid) == EMPTY_SLOT)
  {
    hide *;
    if e.opener { StaleDies(a, e); } else { SinkDies(a, e); }
  }

  lemma StaleDies(a: Net, e: End)
    requires WellFormed(a) && EnabledRelay(a, Fault(e)) && Topology(a, a.links[e.link].sid) && e.opener
    ensures var sid, b := a.links[e.link].sid, DoFault(a, e);
            && Dies(a, b, sid, e) && b.emitted == a.emitted && b.started == a.started
            && b.links[e.link].o.inbox <= a.links[e.link].o.inbox && b.links[e.link].a.inbox <= a.links[e.link].a.inbox
  {
    hide WellFormed, Topology, OnError, PlanOf, SessionAsCalled, InOrder, Commit, Dies, HandshakeOk;
    var sid, n := a.links[e.link].sid, OwnerOf(a, e);
    var n1 := a.(links := a.links[e.link := WithEnd(a.links[e.link], e.opener, StateOf(a, e).(handler := Stopped))]);
    FaultSite(a, e);
    StaleErrorIsHarmless(a, e);
    QuietCommit(n1, n, sid, SlotOf(a, n, sid));
    StaleStops(a, DoFault(a, e), sid, e);
  }

  lemma SinkDies(a: Net, e: End)
    requires WellFormed(a) && EnabledRelay(a, Fault(e)) && Topology(a, a.links[e.link].sid) && !e.opener
    ensures var sid, b := a.links[e.link].sid, DoFault(a, e);
            && Dies(a, b, sid, e) && b.emitted == a.emitted && b.started == a.started
            && b.links[e.link].o.inbox <= a.links[e.link].o.inbox && b.links[e.link].a.inbox <= a.links[e.link].a.inbox
            && SlotOf(b, PlanOf(a, a.ctls[sid]).join.acceptor, sid) == EMPTY_SLOT
  {
    hide WellFormed, Topology, PlanOf, SessionAsCalled, InOrder, Commit, Dies, HandshakeOk;
    var sid, n := a.links[e.link].sid, OwnerOf(a, e);
    var n1 := a.(links := a.links[e.link := WithEnd(a.links[e.link], e.opener, StateOf(a, e).(handler := Stopped))]);
    FaultSite(a, e);
    AbandonedSlot(a, sid);
    ClosingAbandoned(a, n1, sid, e, OnError(SlotOf(a, n, sid), e));
  }

  lemma FaultTopology(a: Net, e: End)
    requires WellFormed(a) && EnabledRelay(a, Fault(e)) && Topology(a, a.links[e.link].sid)
    ensures Topology(DoFault(a, e), a.links[e.link].sid)
  {
    FaultDies(a, e);
    hide WellFormed, Topology, Dies, DoFault;
    DyingTopology(a, DoFault(a, e), a.links[e.link].sid, e);
  }

  lemma LoseTopology(a: Net, e: End, m: Message)
    requires WellFormed(a) && EnabledRelay(a, Lose(e, m)) && Topology(a, a.links[e.link].sid)
    ensures Topology(DoRelay(a, Lose(e, m)), a.links[e.link].sid)
  {
    hide InOrder;
    var sid := a.links[e.link].sid;
    var k := a.ctls[sid];
    assert HandshakeOk(a.links[e.link], AskedRole(k, e.link));
    assert LinkOk(a.links[e.link]) && Carries(m, sid);
    assert !m.SetSession?;
    hide WellFormed, LinkOk, HandshakeOk;
    TakingKeepsShape(a, e, m, sid);
    ShapeTopology(a, DoRelay(a, Lose(e, m)), sid);
  }

  lemma SendKeepsShape(a: Net, n: NodeId, sid: Sid, payload: Payload)
    requires EnabledRelay(a, Send(n, sid, payload)) && sid in a.ctls
    ensures ShapeKept(a, DoSend(a, n, sid, payload), sid) && DoSend(a, n, sid, payload).ctls == a.ctls
  {
    PostKeepsStages(a.links, Some(Write(SlotOf(a, n, sid).circuit.value.out, Data(sid, payload))));
  }

  lemma WakeTopology(a: Net, e: End)
    requires WellFormed(a) && EnabledRelay(a, Deliver(e, Wake)) && Topology(a, a.links[e.link].sid)
    ensures Topology(DoDeliver(a, e, Wake), a.links[e.link].sid)
  {
    var sid := a.links[e.link].sid;
    assert LinkOk(a.links[e.link]);
    hide WellFormed, LinkOk;
    TakingKeepsShape(a, e, Wake, sid);
    ShapeTopology(a, DoDeliver(a, e, Wake), sid);
  }
}
