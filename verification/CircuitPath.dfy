/** The shape of a finished circuit. Whatever the overlap of roles, its streams form one simple path
    from the calling to the answering client, and no other node keeps a session except an abandoned
    sink that is about to drop it. */
module CircuitPath {
  import opened Wrappers
  import opened Protocol
  import opened RelayLogic
  import opened Network
  import opened Isolation
  import opened Establishment
  import opened EstablishmentRelay
  import opened SuccessOnce
  import opened Chain

  function LinkIn(l: Leg): LinkId { if l.id.Some? then l.id.value else 0 }

  /** The streams of a finished circuit, from the calling client to the answering one. */
  function PathOf(p: Plan): seq<Hop> {
    if p.EntryIsHome() then [Hop(LinkIn(p.dial), true), Hop(LinkIn(p.join), true)]
    else if p.SinkIsHome() then [Hop(LinkIn(p.dial), true), Hop(LinkIn(p.join), true), Hop(LinkIn(p.reach), true)]
    else if p.RelayIsEntry() then [Hop(LinkIn(p.dial), true), Hop(LinkIn(p.hop), false), Hop(LinkIn(p.reach), true)]
    else [Hop(LinkIn(p.dial), true), Hop(LinkIn(p.join), true), Hop(LinkIn(p.bridge), false),
          Hop(LinkIn(p.hop), false), Hop(LinkIn(p.reach), true)]
  }

  /** The nodes of a finished circuit in the same order. */
  function NodesOf(p: Plan): seq<NodeId> {
    if p.EntryIsHome() then [p.caller, p.entry, p.answer]
    else if p.SinkIsHome() then [p.caller, p.entry, p.home, p.answer]
    else if p.RelayIsEntry() then [p.caller, p.entry, p.home, p.answer]
    else [p.caller, p.entry, p.join.acceptor, p.hop.acceptor, p.home, p.answer]
  }

  /** Which legs a finished circuit consists of. */
  lemma FinishedLegs(clients: set<NodeId>, p: Plan, k: Control)
    requires InOrder(clients, p, k) && p.Complete()
    ensures p.dial.id.Some? && p.dial.attached && p.join.id.Some? && p.join.attached
    ensures !p.EntryIsHome() ==> p.reach.id.Some? && p.reach.attached
    ensures p.RelayIsEntry() ==> p.Rerouted()
    ensures !p.EntryIsHome() && !p.SinkIsHome() ==> p.hop.id.Some? && p.hop.attached
    ensures !p.EntryIsHome() && !p.SinkIsHome() && !p.RelayIsEntry() ==> p.bridge.id.Some? && p.bridge.attached
    ensures p.EntryIsHome() ==> p.reach.id.None?
    ensures p.EntryIsHome() || p.SinkIsHome() ==> p.hop.id.None?
    ensures p.RelayIsEntry() ==> p.bridge.id.None?
    ensures forall i, j :: 0 <= i < j < |NodesOf(p)| ==> NodesOf(p)[i] != NodesOf(p)[j]
  {}

  /** A stream of the session id with running readers for it at both ends. */
  predicate InUse(net: Net, sid: Sid, l: LinkId) {
    && l < |net.links| && net.links[l].sid == sid
    && net.links[l].o.handler == Running(Some(sid)) && net.links[l].a.handler == Running(Some(sid))
  }

  lemma LegInUse(net: Net, sid: Sid, l: LinkId)
    requires WellFormed(net) && Topology(net, sid) && l < |net.links| && net.links[l].sid == sid
    requires net.links[l].o.handler != Waiting && net.links[l].a.handler != Running(None)
    requires PlanOf(net, net.ctls[sid]).Rerouted() ==> net.ctls[sid].join != Some(l)
    ensures InUse(net, sid, l)
  {
    assert LinkOk(net.links[l]);
    assert Live(net.links[l]);
  }

  /** The hop leads from node `n` to node `m`. */
  ghost predicate Leads(net: Net, sid: Sid, h: Hop, n: NodeId, m: NodeId) {
    InUse(net, sid, h.link) && OwnerOf(net, LeftEnd(h)) == n && OwnerOf(net, RightEnd(h)) == m
  }

  /** One of the five streams, once it is attached and unless it is dying, leads from its opener to its
      acceptor. */
  lemma LegLeads(net: Net, sid: Sid, o: Option<LinkId>, opener: NodeId)
    requires WellFormed(net) && Topology(net, sid) && o.Some? && o.value < |net.links|
    requires net.links[o.value].sid == sid && net.links[o.value].opener == opener
    requires LegOf(net, o).attached && LegOf(net, o).accepted
    requires PlanOf(net, net.ctls[sid]).Rerouted() ==> o != net.ctls[sid].join
    ensures Leads(net, sid, Hop(LinkIn(LegOf(net, o)), true), opener, LegOf(net, o).acceptor)
    ensures Leads(net, sid, Hop(LinkIn(LegOf(net, o)), false), LegOf(net, o).acceptor, opener)
  {
    hide SlotsAsCalled, LinksAsCalled, WellFormed, InOrder, SinkWillClose, Streams;
    LegInUse(net, sid, o.value);
  }

  /** The legs of a finished circuit lead where the plan says. */
  ghost predicate LegsLead(net: Net, sid: Sid, p: Plan) {
    && Leads(net, sid, Hop(LinkIn(p.dial), true), p.caller, p.entry)
    && (!p.RelayIsEntry() ==> Leads(net, sid, Hop(LinkIn(p.join), true), p.entry, p.join.acceptor))
    && (!p.EntryIsHome() ==> Leads(net, sid, Hop(LinkIn(p.reach), true), p.home, p.reach.acceptor))
    && (!p.EntryIsHome() && !p.SinkIsHome() ==> Leads(net, sid, Hop(LinkIn(p.hop), false), p.hop.acceptor, p.home))
    && (!p.EntryIsHome() && !p.SinkIsHome() && !p.RelayIsEntry() ==>
          Leads(net, sid, Hop(LinkIn(p.bridge), false), p.bridge.acceptor, p.hop.acceptor))
  }

  lemma FinishedLegsLead(net: Net, sid: Sid)
    requires WellFormed(net) && Topology(net, sid) && PlanOf(net, net.ctls[sid]).Complete()
    ensures LegsLead(net, sid, PlanOf(net, net.ctls[sid]))
  {
    var k := net.ctls[sid];
    var p := PlanOf(net, k);
    FinishedLegs(net.clients, p, k);
    assert Separate(net.links, sid, Some(k.dial), k.caller, {})
           && Separate(net.links, sid, k.join, k.entry, {Some(k.dial)});
    hide WellFormed, SlotsAsCalled, LinksAsCalled, SinkWillClose, Leads;
    LegLeads(net, sid, Some(k.dial), k.caller);
    if !p.RelayIsEntry() { LegLeads(net, sid, k.join, k.entry); }
    if !p.EntryIsHome() {
      LegLeads(net, sid, k.reach, k.home);
      if !p.SinkIsHome() {
        LegLeads(net, sid, k.hop, k.home);
        if !p.RelayIsEntry() { LegLeads(net, sid, k.bridge, p.hop.acceptor); }
      }
    }
  }

  lemma PathStream(net: Net, sid: Sid, p: Plan, k: Control, i: nat)
    requires InOrder(net.clients, p, k) && p.Complete() && LegsLead(net, sid, p) && i < |PathOf(p)|
    ensures |NodesOf(p)| == |PathOf(p)| + 1 && Leads(net, sid, PathOf(p)[i], NodesOf(p)[i], NodesOf(p)[i + 1])
  {
    FinishedLegs(net.clients, p, k);
    hide Leads;
  }

  lemma PathDistinct(links: seq<Link>, sid: Sid, p: Plan, k: Control)
    requires Streams(links, sid, k) && p.dial.id == Some(k.dial) && p.join.id == k.join && p.reach.id == k.reach
    requires p.hop.id == k.hop && p.bridge.id == k.bridge && p.join.id.Some?
    requires !p.EntryIsHome() ==> p.reach.id.Some?
    requires !p.EntryIsHome() && !p.SinkIsHome() ==> p.hop.id.Some?
    requires !p.EntryIsHome() && !p.SinkIsHome() && !p.RelayIsEntry() ==> p.bridge.id.Some?
    ensures forall i, j :: 0 <= i < j < |PathOf(p)| ==> PathOf(p)[i].link != PathOf(p)[j].link
  {}

  lemma LegIds(net: Net, sid: Sid)
    requires Topology(net, sid)
    ensures var k, p := net.ctls[sid], PlanOf(net, net.ctls[sid]);
            && p.dial.id == Some(k.dial) && p.join.id == k.join && p.reach.id == k.reach
            && p.hop.id == k.hop && p.bridge.id == k.bridge
  {}

  lemma PathStreams(net: Net, sid: Sid)
    requires WellFormed(net) && Topology(net, sid) && PlanOf(net, net.ctls[sid]).Complete()
    ensures var p := PlanOf(net, net.ctls[sid]);
            && Strung(net, sid, PathOf(p))
            && |NodesOf(p)| == |PathOf(p)| + 1
            && forall i :: 0 <= i < |PathOf(p)| ==> Leads(net, sid, PathOf(p)[i], NodesOf(p)[i], NodesOf(p)[i + 1])
  {
    var k := net.ctls[sid];
    var p := PlanOf(net, k);
    var hops, nodes := PathOf(p), NodesOf(p);
    assert |nodes| == |hops| + 1;
    assert InOrder(net.clients, p, k) && p.Complete() && Streams(net.links, sid, k);
    hide WellFormed, Topology, PathOf, NodesOf, PlanOf, LegsLead, InOrder, Streams;
    LegIds(net, sid);
    FinishedLegs(net.clients, p, k);
    PathDistinct(net.links, sid, p, k);
    FinishedLegsLead(net, sid);
    hide Leads, Strung;
    forall i | 0 <= i < |hops|
      ensures Leads(net, sid, hops[i], nodes[i], nodes[i + 1])
    { PathStream(net, sid, p, k, i); }
    StrungFrom(net, sid, hops, nodes);
  }

  lemma StrungFrom(net: Net, sid: Sid, hops: seq<Hop>, nodes: seq<NodeId>)
    requires |hops| > 0 && |nodes| == |hops| + 1
    requires forall i :: 0 <= i < |hops| ==> Leads(net, sid, hops[i], nodes[i], nodes[i + 1])
    requires forall i, j :: 0 <= i < j < |hops| ==> hops[i].link != hops[j].link
    ensures Strung(net, sid, hops)
  {
    forall i | 0 <= i < |hops|
      ensures InUse(net, sid, hops[i].link)
    { assert Leads(net, sid, hops[i], nodes[i], nodes[i + 1]); }
  }

  /** What the topology says of the nodes of a finished circuit. */
  lemma PathSlots(p: Plan, n: NodeId, s: Slot, k: Control, clients: set<NodeId>, i: nat)
    requires InOrder(clients, p, k) && p.Complete() && i < |NodesOf(p)| && n == NodesOf(p)[i]
    requires SessionAsCalled(p, n, s) && CircuitAsCalled(p, n, s)
    ensures s.session.Some? && |NodesOf(p)| == |PathOf(p)| + 1
    ensures i == 0 ==>
              && s.session.value == Session(Caller, Some(LeftEnd(PathOf(p)[0])), None)
              && s.circuit.Some? && s.circuit.value.out == LeftEnd(PathOf(p)[0])
    ensures i == |PathOf(p)| ==>
              && s.session.value == Session(Answer, Some(RightEnd(PathOf(p)[i - 1])), None)
              && s.circuit.Some? && s.circuit.value.out == RightEnd(PathOf(p)[i - 1])
    ensures 0 < i < |PathOf(p)| ==>
              && !IsClientRole(s.session.value.role) && s.circuit.None?
              && ((s.session.value.early == Some(RightEnd(PathOf(p)[i - 1]))
                      && s.session.value.later == Some(LeftEnd(PathOf(p)[i])))
                  || (s.session.value.early == Some(LeftEnd(PathOf(p)[i]))
                         && s.session.value.later == Some(RightEnd(PathOf(p)[i - 1]))))
  {
    FinishedLegs(clients, p, k);
  }

  /** A stream of the session id that is not on the path leads from the entry node to the abandoned sink. */
  lemma PathSidelines(net: Net, sid: Sid, l: LinkId)
    requires Topology(net, sid) && PlanOf(net, net.ctls[sid]).Complete()
    requires l < |net.links| && net.links[l].sid == sid
    ensures var k, p := net.ctls[sid], PlanOf(net, net.ctls[sid]);
            || !Beside(PathOf(p), l)
            || (p.RelayIsEntry() && k.join == Some(l) && net.links[l].opener == p.entry
                   && net.links[l].acceptor == p.join.acceptor)
  {
    var k, p := net.ctls[sid], PlanOf(net, net.ctls[sid]);
    FinishedLegs(net.clients, p, k);
    LegIds(net, sid);
    hide SlotsAsCalled, LinksAsCalled, SinkWillClose;
    if !(p.RelayIsEntry() && k.join == Some(l)) {
      var i := if l == k.dial then 0 else if k.join == Some(l) then 1 else if k.reach == Some(l) then |PathOf(p)| - 1
               else if k.hop == Some(l) then (if p.RelayIsEntry() then 1 else 3) else 2;
      assert PathOf(p)[i].link == l;
    }
  }

  lemma PathRelays(net: Net, sid: Sid, hops: seq<Hop>, nodes: seq<NodeId>, i: nat)
    requires Strung(net, sid, hops) && |nodes| == |hops| + 1 && 0 < i < |hops|
    requires forall j :: 0 <= j < |hops| ==> Leads(net, sid, hops[j], nodes[j], nodes[j + 1])
    requires var s := SlotOf(net, nodes[i], sid);
             && s.session.Some? && !IsClientRole(s.session.value.role) && s.circuit.None?
             && ((s.session.value.early == Some(RightEnd(hops[i - 1]))
                     && s.session.value.later == Some(LeftEnd(hops[i])))
                 || (s.session.value.early == Some(LeftEnd(hops[i]))
                        && s.session.value.later == Some(RightEnd(hops[i - 1]))))
    ensures Relays(net, sid, hops[i - 1], hops[i])
  {
    assert Leads(net, sid, hops[i - 1], nodes[i - 1], nodes[i]) && Leads(net, sid, hops[i], nodes[i], nodes[i + 1]);
  }

  /** The slot of node `i` of a finished circuit holds its ends of the two streams next to it, or, at a
      client, the one stream and a circuit entry for it. */
  lemma FinishedSlot(net: Net, sid: Sid, i: nat)
    requires WellFormed(net) && Topology(net, sid) && PlanOf(net, net.ctls[sid]).Complete()
    requires i < |NodesOf(PlanOf(net, net.ctls[sid]))|
    ensures var p := PlanOf(net, net.ctls[sid]);
            var hops, nodes := PathOf(p), NodesOf(p);
            && Strung(net, sid, hops) && |nodes| == |hops| + 1
            && (i == 0 ==> Terminates(net, sid, LeftEnd(hops[0])) && nodes[i] in net.clients)
            && (i == |hops| ==> Terminates(net, sid, RightEnd(hops[|hops| - 1])) && nodes[i] in net.clients)
            && (0 < i < |hops| ==> Relays(net, sid, hops[i - 1], hops[i]))
  {
    var k := net.ctls[sid];
    var p := PlanOf(net, k);
    var hops, nodes := PathOf(p), NodesOf(p);
    assert SessionAsCalled(p, nodes[i], SlotOf(net, nodes[i], sid))
           && CircuitAsCalled(p, nodes[i], SlotOf(net, nodes[i], sid));
    assert InOrder(net.clients, p, k) && p.caller in net.clients && p.answer in net.clients;
    assert nodes[0] == p.caller && nodes[|nodes| - 1] == p.answer;
    hide WellFormed, Topology, PathOf, NodesOf, InOrder, PlanOf, SessionAsCalled, CircuitAsCalled, Strung;
    PathStreams(net, sid);
    PathSlots(p, nodes[i], SlotOf(net, nodes[i], sid), k, net.clients, i);
    if i == 0 {
      assert Leads(net, sid, hops[0], nodes[0], nodes[1]);
    } else {
      assert Leads(net, sid, hops[i - 1], nodes[i - 1], nodes[i]);
      if i < |hops| { PathRelays(net, sid, hops, nodes, i); }
    }
  }

  /** The streams of a finished circuit form one simple path between the two clients, each node between
      them relays, and only there. */
  lemma FinishedIsChain(net: Net, sid: Sid)
    requires WellFormed(net) && Topology(net, sid) && PlanOf(net, net.ctls[sid]).Complete()
    ensures var p := PlanOf(net, net.ctls[sid]);
            && IsChain(net, sid, PathOf(p)) && |NodesOf(p)| == |PathOf(p)| + 1
            && forall i :: 0 <= i <= |PathOf(p)| ==> NodeAt(net, PathOf(p), i) == NodesOf(p)[i]
  {
    hide WellFormed;
    var k := net.ctls[sid];
    var p := PlanOf(net, k);
    var hops, nodes := PathOf(p), NodesOf(p);
    PathStreams(net, sid);
    FinishedLegs(net.clients, p, k);
    assert p.entry !in net.clients && (p.RelayIsEntry() ==> p.join.acceptor !in net.clients);
    forall l | 0 <= l < |net.links| && net.links[l].sid == sid && Beside(hops, l)
      ensures net.links[l].opener !in net.clients && net.links[l].acceptor !in net.clients
    { PathSidelines(net, sid, l); }
    hide Topology, PathOf, NodesOf, PlanOf, Relays, Terminates;
    FinishedNodes(net, sid, hops, nodes);
    hide Leads, NodeAt, Strung;
    forall i | 0 < i < |hops| ensures Relays(net, sid, hops[i - 1], hops[i]) { FinishedSlot(net, sid, i); }
    FinishedSlot(net, sid, 0);
    FinishedSlot(net, sid, |hops|);
    ChainFromParts(net, sid, hops);
  }

  lemma FinishedNodes(net: Net, sid: Sid, hops: seq<Hop>, nodes: seq<NodeId>)
    requires Strung(net, sid, hops) && |nodes| == |hops| + 1
    requires forall i :: 0 <= i < |hops| ==> Leads(net, sid, hops[i], nodes[i], nodes[i + 1])
    ensures forall i :: 0 <= i <= |hops| ==> NodeAt(net, hops, i) == nodes[i]
  {
    forall i | 0 <= i <= |hops| ensures NodeAt(net, hops, i) == nodes[i] {
      assert Leads(net, sid, hops[0], nodes[0], nodes[1]);
      if i > 0 { assert Leads(net, sid, hops[i - 1], nodes[i - 1], nodes[i]); }
    }
  }

  lemma ChainFromParts(net: Net, sid: Sid, hops: seq<Hop>)
    requires Strung(net, sid, hops)
    requires forall i :: 0 < i < |hops| ==> Relays(net, sid, hops[i - 1], hops[i])
    requires Terminates(net, sid, LeftEnd(hops[0])) && Terminates(net, sid, RightEnd(hops[|hops| - 1]))
    requires forall i, j :: 0 <= i < j <= |hops| ==> NodeAt(net, hops, i) != NodeAt(net, hops, j)
    requires NodeAt(net, hops, 0) in net.clients && NodeAt(net, hops, |hops|) in net.clients
    requires forall l :: 0 <= l < |net.links| && net.links[l].sid == sid && Beside(hops, l) ==>
               net.links[l].opener !in net.clients && net.links[l].acceptor !in net.clients
    ensures IsChain(net, sid, hops)
  {
    hide Relays, Terminates;
    forall i | 0 <= i < |hops| - 1 ensures Relays(net, sid, hops[i], hops[i + 1]) {
      assert Relays(net, sid, hops[i + 1 - 1], hops[i + 1]);
    }
  }

  /** Any node that still has a session is on the path, or is the abandoned sink: that one's only stream
      has failed, and its reader is about to learn it. */
  lemma NobodyElse(net: Net, sid: Sid, n: NodeId)
    requires WellFormed(net) && Topology(net, sid) && PlanOf(net, net.ctls[sid]).Complete()
    requires SlotOf(net, n, sid) != EMPTY_SLOT
    ensures var k, p := net.ctls[sid], PlanOf(net, net.ctls[sid]);
            || n in NodesOf(p)
            || (&& p.RelayIsEntry() && k.join.Some? && n == p.join.acceptor
                && SlotOf(net, n, sid).session == Some(Session(Sink, Some(End(k.join.value, false)), None))
                && Enabled(net, Fault(End(k.join.value, false))))
  {
    hide WellFormed;
    var k, p := net.ctls[sid], PlanOf(net, net.ctls[sid]);
    FinishedLegs(net.clients, p, k);
    assert SessionAsCalled(p, n, SlotOf(net, n, sid)) && CircuitAsCalled(p, n, SlotOf(net, n, sid));
    if Abandoned(p, n) {
      AbandonedSlot(net, sid);
      assert Dying(net.links[k.join.value]);
    }
  }
}
