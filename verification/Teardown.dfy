/** How an established circuit comes down. After any closing of a client, any failure of a stream, at
    any place of a circuit of any length, the readers' errors spread until no node of the circuit holds
    the session; a measure bounds the closing steps of every run. */
module Teardown {
  import opened Wrappers
  import opened Protocol
  import opened RelayLogic
  import opened Network
  import opened Isolation
  import opened Establishment
  import opened EstablishmentRelay
  import opened SuccessOnce
  import opened Chain
  import opened CircuitPath
  import opened EndToEnd

  // ---- the invariant -----------------------------------------------------------------------------

  /** The streams of the path: different ones of `sid`, whose readers have run for it, and whose error is
      seen at both ends or at none. */
  ghost predicate Wired(net: Net, sid: Sid, hops: seq<Hop>) {
    && |hops| > 0
    && (forall i :: 0 <= i < |hops| ==> hops[i].link < |net.links| && WireOk(net.links[hops[i].link], sid))
    && (forall i, j :: 0 <= i < j < |hops| ==> hops[i].link != hops[j].link)
    && (forall i :: 0 <= i < |hops| - 1 ==> OwnerOf(net, RightEnd(hops[i])) == OwnerOf(net, LeftEnd(hops[i + 1])))
    && (forall i, j :: 0 <= i < j <= |hops| ==> NodeAt(net, hops, i) != NodeAt(net, hops, j))
  }

  predicate WireOk(l: Link, sid: Sid) {
    && l.sid == sid && l.o.eof == l.a.eof
    && (l.o.handler == Running(Some(sid)) || l.o.handler == Stopped)
    && (l.a.handler == Running(Some(sid)) || l.a.handler == Stopped)
  }

  /** The end that node `i` of the path has of the stream to its left, or to its right. */
  function LeftOf(hops: seq<Hop>, i: nat): Option<End>
    requires i <= |hops|
  {
    if i > 0 then Some(RightEnd(hops[i - 1])) else None
  }

  function RightOf(hops: seq<Hop>, i: nat): Option<End>
    requires i <= |hops|
  {
    if i < |hops| then Some(LeftEnd(hops[i])) else None
  }

  predicate Reads(net: Net, sid: Sid, e: Option<End>) {
    e.Some? ==> Known(net, e.value) && StateOf(net, e.value).handler == Running(Some(sid))
  }

  predicate Failed(net: Net, e: Option<End>) {
    e.Some? ==> Known(net, e.value) && StateOf(net, e.value).eof
  }

  /** A node of the path either holds its ends of the streams beside it, with a reader on each, or holds
      nothing any more, and then those streams have failed. */
  ghost predicate StandsOrGone(net: Net, sid: Sid, hops: seq<Hop>, i: nat)
    requires Wired(net, sid, hops) && i <= |hops|
  {
    var s := SlotOf(net, NodeAt(net, hops, i), sid);
    if s.session.Some? then
      && ((s.session.value.early == LeftOf(hops, i) && s.session.value.later == RightOf(hops, i))
          || (s.session.value.early == RightOf(hops, i) && s.session.value.later == LeftOf(hops, i)))
      && Reads(net, sid, LeftOf(hops, i)) && Reads(net, sid, RightOf(hops, i))
    else
      Failed(net, LeftOf(hops, i)) && Failed(net, RightOf(hops, i))
  }

  /** No stream of the session id has an unread set-session message, and no task of it is still building. */
  ghost predicate BuildingOver(net: Net, sid: Sid) {
    && sid in net.ctls
    && TasksOver(net, net.ctls[sid])
    && (forall l, m :: 0 <= l < |net.links| && net.links[l].sid == sid && m in net.links[l].o.inbox ==> !m.SetSession?)
    && (forall l, m :: 0 <= l < |net.links| && net.links[l].sid == sid && m in net.links[l].a.inbox ==> !m.SetSession?)
    && (forall l :: 0 <= l < |net.links| && net.links[l].sid == sid ==> net.links[l].o.handler != Waiting)
  }

  predicate TasksOver(net: Net, k: Control) {
    && k.join.Some?
    && (if k.home == k.entry then !k.published && k.reach.None? else k.published && k.reach.Some?)
    && (k.home == k.entry || AcceptorOf(net, k.join) == Some(k.home) || k.hop.Some?)
    && (k.cmd == Unsent || k.cmd == Bridging || k.cmd == Replied(true))
  }

  ghost predicate Collapsible(net: Net, sid: Sid, hops: seq<Hop>) {
    && WellFormed(net) && BuildingOver(net, sid) && Wired(net, sid, hops)
    && forall i :: 0 <= i <= |hops| ==> StandsOrGone(net, sid, hops, i)
  }

  // ---- what a step may do to the path ------------------------------------------------------------

  predicate WireErodes(a: Link, b: Link) {
    && b.sid == a.sid && b.opener == a.opener && b.acceptor == a.acceptor
    && (a.o.eof ==> b.o.eof) && (b.o.eof == b.a.eof)
    && (b.o.handler == a.o.handler || b.o.handler == Stopped)
    && (b.a.handler == a.a.handler || b.a.handler == Stopped)
  }

  predicate SameReader(a: Net, b: Net, e: Option<End>) {
    e.Some? ==> Known(a, e.value) && Known(b, e.value) && StateOf(b, e.value).handler == StateOf(a, e.value).handler
  }

  /** A node keeps its session and readers, or loses the session together with the streams beside it. */
  ghost predicate NodeErodes(a: Net, b: Net, sid: Sid, hops: seq<Hop>, i: nat)
    requires Wired(a, sid, hops) && i <= |hops|
  {
    var n := NodeAt(a, hops, i);
    var s, t := SlotOf(a, n, sid), SlotOf(b, n, sid);
    || (t.session == s.session
        && (s.session.Some? ==> SameReader(a, b, LeftOf(hops, i)) && SameReader(a, b, RightOf(hops, i))))
    || (t.session.None? && Failed(b, LeftOf(hops, i)) && Failed(b, RightOf(hops, i)))
  }

  ghost predicate Erodes(a: Net, b: Net, sid: Sid, hops: seq<Hop>)
    requires Wired(a, sid, hops)
  {
    && |a.links| <= |b.links|
    && (forall i :: 0 <= i < |hops| ==> WireErodes(a.links[hops[i].link], b.links[hops[i].link]))
    && (forall i :: 0 <= i <= |hops| ==> NodeErodes(a, b, sid, hops, i))
  }

  lemma WiredErodes(a: Net, b: Net, sid: Sid, hops: seq<Hop>)
    requires Wired(a, sid, hops) && Erodes(a, b, sid, hops)
    ensures Wired(b, sid, hops) && forall i :: 0 <= i <= |hops| ==> NodeAt(b, hops, i) == NodeAt(a, hops, i)
  {
    forall i | 0 <= i < |hops| ensures WireOk(b.links[hops[i].link], sid) {
      assert WireErodes(a.links[hops[i].link], b.links[hops[i].link]) && WireOk(a.links[hops[i].link], sid);
    }
    forall i | 0 <= i <= |hops| ensures NodeAt(b, hops, i) == NodeAt(a, hops, i) {
      if i == 0 { assert WireErodes(a.links[hops[0].link], b.links[hops[0].link]); }
      else { assert WireErodes(a.links[hops[i - 1].link], b.links[hops[i - 1].link]); }
    }
    forall i | 0 <= i < |hops| - 1 ensures OwnerOf(b, RightEnd(hops[i])) == OwnerOf(b, LeftEnd(hops[i + 1])) {
      assert WireErodes(a.links[hops[i].link], b.links[hops[i].link]);
      assert WireErodes(a.links[hops[i + 1].link], b.links[hops[i + 1].link]);
    }
    assert forall i, j :: 0 <= i < j <= |hops| ==> NodeAt(a, hops, i) != NodeAt(a, hops, j);
  }

  /** Erosion keeps a node standing or gone, and what is gone stays gone. */
  lemma NodeStays(a: Net, b: Net, sid: Sid, hops: seq<Hop>, i: nat)
    requires Wired(a, sid, hops) && Wired(b, sid, hops) && Erodes(a, b, sid, hops) && i <= |hops|
    requires NodeAt(b, hops, i) == NodeAt(a, hops, i) && StandsOrGone(a, sid, hops, i)
    ensures StandsOrGone(b, sid, hops, i)
    ensures SlotOf(a, NodeAt(a, hops, i), sid).session.None? ==> SlotOf(b, NodeAt(a, hops, i), sid).session.None?
  {
    assert NodeErodes(a, b, sid, hops, i);
    if i > 0 { assert WireErodes(a.links[hops[i - 1].link], b.links[hops[i - 1].link]); }
    if i < |hops| { assert WireErodes(a.links[hops[i].link], b.links[hops[i].link]); }
  }

  // ---- links only wear out -----------------------------------------------------------------------

  predicate LinkWears(a: Link, b: Link, stopO: bool, stopA: bool) {
    && b.sid == a.sid && b.opener == a.opener && b.acceptor == a.acceptor
    && (a.o.eof ==> b.o.eof) && (a.a.eof ==> b.a.eof) && (a.o.eof == a.a.eof ==> b.o.eof == b.a.eof)
    && (b.o.handler == a.o.handler || (stopO && b.o.handler == Stopped))
    && (b.a.handler == a.a.handler || (stopA && b.a.handler == Stopped))
  }

  ghost predicate NoNewRequest(a: Link, b: Link) {
    && (forall m :: m in b.o.inbox && m.SetSession? ==> m in a.o.inbox)
    && (forall m :: m in b.a.inbox && m.SetSession? ==> m in a.a.inbox)
  }

  /** Streams may fail, and the reader on `e` may stop; no set-session message is added. */
  ghost predicate Wears(a: seq<Link>, b: seq<Link>, e: Option<End>) {
    && |a| == |b|
    && forall l :: 0 <= l < |a| ==>
         LinkWears(a[l], b[l], e == Some(End(l, true)), e == Some(End(l, false))) && NoNewRequest(a[l], b[l])
  }

  lemma WearsThen(a: seq<Link>, b: seq<Link>, c: seq<Link>, e: Option<End>)
    requires Wears(a, b, e) && Wears(b, c, None)
    ensures Wears(a, c, e)
  {
    forall l | 0 <= l < |a|
      ensures LinkWears(a[l], c[l], e == Some(End(l, true)), e == Some(End(l, false))) && NoNewRequest(a[l], c[l])
    {
      assert LinkWears(b[l], c[l], false, false) && NoNewRequest(a[l], b[l]) && NoNewRequest(b[l], c[l]);
    }
  }

  lemma PostWears(links: seq<Link>, w: Option<Write>)
    requires w.Some? ==> !w.value.msg.SetSession?
    ensures Wears(links, Post(links, w), None)
  {}

  lemma ShutWears(links: seq<Link>, e: Option<End>)
    ensures Wears(links, Shut(links, e), None)
    ensures FailedIn(Shut(links, e), e)
  {}

  predicate FailedIn(links: seq<Link>, e: Option<End>) {
    e.Some? && e.value.link < |links| ==> links[e.value.link].o.eof && links[e.value.link].a.eof
  }

  lemma StaysFailed(a: seq<Link>, b: seq<Link>, e: Option<End>)
    requires Wears(a, b, None) && FailedIn(a, e)
    ensures FailedIn(b, e)
  {
    if e.Some? && e.value.link < |a| { assert LinkWears(a[e.value.link], b[e.value.link], false, false); }
  }

  lemma CommitWears(a: Net, n: NodeId, sid: Sid, out: Outcome)
    requires (out.first.Some? ==> !out.first.value.msg.SetSession?)
             && (out.second.Some? ==> !out.second.value.msg.SetSession?)
    ensures Wears(a.links, Commit(a, n, sid, out).links, None)
    ensures FailedIn(Commit(a, n, sid, out).links, out.shut1) && FailedIn(Commit(a, n, sid, out).links, out.shut2)
  {
    var l1 := Post(a.links, out.first);
    var l2 := Post(l1, out.second);
    var l3 := Shut(l2, out.shut1);
    var l4 := Shut(l3, out.shut2);
    assert Commit(a, n, sid, out).links == l4;
    hide Post, Shut, Wears, Commit;
    PostWears(a.links, out.first);
    PostWears(l1, out.second);
    ShutWears(l2, out.shut1);
    ShutWears(l3, out.shut2);
    WearsThen(a.links, l1, l2, None);
    WearsThen(a.links, l2, l3, None);
    WearsThen(a.links, l3, l4, None);
    StaysFailed(l3, l4, out.shut1);
  }

  lemma TakeWears(a: Net, e: End, m: Message, h: Handler)
    requires Known(a, e) && (h == Stopped || h == StateOf(a, e).handler)
    ensures Wears(a.links, Take(a, e, m, h).links, if h == Stopped then Some(e) else None)
  {}

  /** A task that only sends probes, and the handlers, leave the building over. */
  lemma StillOver(a: Net, b: Net, sid: Sid, e: Option<End>)
    requires BuildingOver(a, sid) && Wears(a.links, b.links, e) && sid in b.ctls
    requires var k, j := a.ctls[sid], b.ctls[sid];
             SameStreams(k, j) && k.published == j.published && k.cmd == j.cmd
    ensures BuildingOver(b, sid)
  {
    forall l | 0 <= l < |b.links| && b.links[l].sid == sid ensures b.links[l].o.handler != Waiting {
      assert LinkWears(a.links[l], b.links[l], e == Some(End(l, true)), e == Some(End(l, false)));
    }
    forall l, m | 0 <= l < |b.links| && b.links[l].sid == sid && m in b.links[l].o.inbox ensures !m.SetSession? {
      assert LinkWears(a.links[l], b.links[l], e == Some(End(l, true)), e == Some(End(l, false)))
             && NoNewRequest(a.links[l], b.links[l]);
    }
    forall l, m | 0 <= l < |b.links| && b.links[l].sid == sid && m in b.links[l].a.inbox ensures !m.SetSession? {
      assert LinkWears(a.links[l], b.links[l], e == Some(End(l, true)), e == Some(End(l, false)))
             && NoNewRequest(a.links[l], b.links[l]);
    }
    var k, j := a.ctls[sid], b.ctls[sid];
    if k.join.Some? && k.join.value < |a.links| {
      assert LinkWears(a.links[k.join.value], b.links[k.join.value], e == Some(End(k.join.value, true)),
                       e == Some(End(k.join.value, false)));
    }
    assert AcceptorOf(b, j.join) == AcceptorOf(a, k.join);
  }

  // ---- one handler's work erodes the path --------------------------------------------------------

  /** The slot of one node changes: it keeps its session, or loses it with both its streams failed. */
  ghost predicate SlotErodes(a: Net, b: Net, sid: Sid, n: NodeId, e: Option<End>) {
    var s, t := SlotOf(a, n, sid), SlotOf(b, n, sid);
    && (forall m :: m != n ==> SlotOf(b, m, sid) == SlotOf(a, m, sid))
    && (e.Some? ==> Known(a, e.value) && OwnerOf(a, e.value) == n)
    && (|| (t.session == s.session
            && (s.session.Some? && e.Some? ==> !s.session.value.Holds(e.value)))
        || (t.session.None?
               && (s.session.Some? ==> Failed(b, s.session.value.early) && Failed(b, s.session.value.later))))
  }

  lemma WornWire(a: Net, b: Net, sid: Sid, hops: seq<Hop>, e: Option<End>, i: nat)
    requires Wired(a, sid, hops) && Wears(a.links, b.links, e) && i < |hops|
    ensures WireErodes(a.links[hops[i].link], b.links[hops[i].link])
  {
    var l := hops[i].link;
    assert LinkWears(a.links[l], b.links[l], e == Some(End(l, true)), e == Some(End(l, false)));
    assert WireOk(a.links[l], sid);
  }

  lemma WornReader(a: Net, b: Net, e: Option<End>, x: Option<End>)
    requires Wears(a.links, b.links, e) && (x.Some? ==> Known(a, x.value) && x != e)
    ensures SameReader(a, b, x) && (Failed(a, x) ==> Failed(b, x))
  {
    if x.Some? {
      var l := x.value.link;
      assert LinkWears(a.links[l], b.links[l], e == Some(End(l, true)), e == Some(End(l, false)));
    }
  }

  lemma WornFailure(a: Net, b: Net, e: Option<End>, x: Option<End>)
    requires Wears(a.links, b.links, e) && Failed(a, x)
    ensures Failed(b, x)
  {
    if x.Some? {
      var l := x.value.link;
      assert LinkWears(a.links[l], b.links[l], e == Some(End(l, true)), e == Some(End(l, false)));
    }
  }

  lemma BesideOwners(a: Net, sid: Sid, hops: seq<Hop>, i: nat)
    requires Wired(a, sid, hops) && i <= |hops|
    ensures LeftOf(hops, i).Some? ==>
            Known(a, LeftOf(hops, i).value) && OwnerOf(a, LeftOf(hops, i).value) == NodeAt(a, hops, i)
    ensures RightOf(hops, i).Some? ==>
            Known(a, RightOf(hops, i).value) && OwnerOf(a, RightOf(hops, i).value) == NodeAt(a, hops, i)
  {
    if 0 < i < |hops| { assert OwnerOf(a, RightEnd(hops[i - 1])) == OwnerOf(a, LeftEnd(hops[i - 1 + 1])); }
  }

  lemma NodeWears(a: Net, b: Net, sid: Sid, hops: seq<Hop>, n: NodeId, e: Option<End>, i: nat)
    requires Wired(a, sid, hops) && i <= |hops| && StandsOrGone(a, sid, hops, i)
    requires Wears(a.links, b.links, e) && SlotErodes(a, b, sid, n, e)
    ensures NodeErodes(a, b, sid, hops, i)
  {
    BesideOwners(a, sid, hops, i);
    var left, right := LeftOf(hops, i), RightOf(hops, i);
    var s := SlotOf(a, NodeAt(a, hops, i), sid);
    hide Wired, Wears, LeftOf, RightOf;
    if s.session.Some? {
      if left != e { WornReader(a, b, e, left); }
      if right != e { WornReader(a, b, e, right); }
    } else {
      WornFailure(a, b, e, left);
      WornFailure(a, b, e, right);
    }
  }

  lemma HandlerErodes(a: Net, b: Net, sid: Sid, hops: seq<Hop>, n: NodeId, e: Option<End>)
    requires Wired(a, sid, hops) && forall i :: 0 <= i <= |hops| ==> StandsOrGone(a, sid, hops, i)
    requires Wears(a.links, b.links, e) && SlotErodes(a, b, sid, n, e)
    ensures Erodes(a, b, sid, hops)
  {
    WearsLength(a.links, b.links, e);
    hide Wears, SlotErodes, StandsOrGone;
    forall i | 0 <= i < |hops|
      ensures WireErodes(a.links[hops[i].link], b.links[hops[i].link])
    { WornWire(a, b, sid, hops, e, i); }
    forall i | 0 <= i <= |hops| ensures NodeErodes(a, b, sid, hops, i) { NodeWears(a, b, sid, hops, n, e, i); }
  }

  lemma WearsLength(a: seq<Link>, b: seq<Link>, e: Option<End>)
    requires Wears(a, b, e)
    ensures |a| == |b|
  {}

  // ---- the steps ---------------------------------------------------------------------------------

  /** What a step of the session id does once the circuit stands: it erodes the path. */
  ghost predicate Worn(a: Net, b: Net, sid: Sid, n: NodeId, e: Option<End>) {
    && Wears(a.links, b.links, e) && SlotErodes(a, b, sid, n, e) && sid in a.ctls && sid in b.ctls
    && SameStreams(a.ctls[sid], b.ctls[sid])
    && a.ctls[sid].published == b.ctls[sid].published && a.ctls[sid].cmd == b.ctls[sid].cmd
  }

  lemma WornKeeps(a: Net, b: Net, sid: Sid, hops: seq<Hop>, n: NodeId, e: Option<End>)
    requires Collapsible(a, sid, hops) && WellFormed(b) && Worn(a, b, sid, n, e)
    ensures Collapsible(b, sid, hops) && Erodes(a, b, sid, hops)
  {
    hide WellFormed, Wears, SlotErodes, BuildingOver, StandsOrGone, SameStreams;
    HandlerErodes(a, b, sid, hops, n, e);
    StillOver(a, b, sid, e);
    WiredErodes(a, b, sid, hops);
    hide Erodes, Wired;
    forall i | 0 <= i <= |hops| ensures StandsOrGone(b, sid, hops, i) { NodeStays(a, b, sid, hops, i); }
  }

  /** The outcome of a handler that keeps the session or closes it. */
  predicate KeepsOrCloses(s: Slot, out: Outcome) {
    && (out.first.Some? ==> !out.first.value.msg.SetSession?)
       && (out.second.Some? ==> !out.second.value.msg.SetSession?)
    && !out.ack
    && (out.slot.session == s.session || out == OnClose(s))
  }

  /** Committing it after the reader on `e` has stopped: then the session must not go on holding `e`. */
  lemma CommitWorn(a: Net, n1: Net, n: NodeId, sid: Sid, out: Outcome, e: Option<End>)
    requires sid in a.ctls && n1.ctls == a.ctls && n1.slots == a.slots && Wears(a.links, n1.links, e)
    requires KeepsOrCloses(SlotOf(a, n, sid), out) && SlotOk(a.links, n, sid, SlotOf(a, n, sid))
    requires e.Some? ==> Known(a, e.value) && OwnerOf(a, e.value) == n
    requires e.Some? && SlotOf(a, n, sid).session.Some? && SlotOf(a, n, sid).session.value.Holds(e.value) ==>
             out == OnClose(SlotOf(a, n, sid))
    ensures Worn(a, Commit(n1, n, sid, out), sid, n, e)
  {
    var b := Commit(n1, n, sid, out);
    CommitWears(n1, n, sid, out);
    WearsThen(a.links, n1.links, b.links, e);
    WearsLength(a.links, n1.links, e);
    WearsLength(n1.links, b.links, None);
    assert forall m :: SlotOf(b, m, sid) == if m == n then out.slot else SlotOf(a, m, sid);
    hide Wears, Commit;
  }

  lemma MessageKeepsOrCloses(s: Slot, e: End, sid: Sid, m: Message)
    requires !m.SetSession? && Carries(m, sid) && (s.probe.Some? ==> s.probe.value == ProbeRand(sid))
    ensures KeepsOrCloses(s, OnMessage(s, e, sid, m))
  {}

  /** Once the building is over every reader that runs has the session id, and no set-session message is left. */
  lemma OverReader(a: Net, sid: Sid, e: End)
    requires WellFormed(a) && BuildingOver(a, sid) && Known(a, e) && a.links[e.link].sid == sid
             && StateOf(a, e).handler.Running?
    ensures StateOf(a, e).handler == Running(Some(sid))
    ensures forall m :: m in StateOf(a, e).inbox ==> !m.SetSession? && Carries(m, sid)
  {
    assert LinkOk(a.links[e.link]);
  }

  lemma TakenWears(a: Net, e: End, m: Message, sid: Sid)
    requires WellFormed(a) && BuildingOver(a, sid) && EnabledRelay(a, Deliver(e, m)) && a.links[e.link].sid == sid
    ensures var n, h := OwnerOf(a, e), NextHandler(m, StateOf(a, e).handler.sid);
            var n1, s := Take(a, e, m, h), SlotOf(a, n, sid);
            && Wears(a.links, n1.links, if m.Disconnect? then Some(e) else None)
            && sid in a.ctls && n1.ctls == a.ctls && n1.slots == a.slots
            && KeepsOrCloses(s, OnMessage(s, e, sid, m)) && SlotOk(a.links, n, sid, s)
            && (m.Disconnect? ==> OnMessage(s, e, sid, m) == OnClose(s))
            && DoDeliver(a, e, m) == if m.Wake? then n1 else Commit(n1, n, sid, OnMessage(s, e, sid, m))
  {
    var n, h := OwnerOf(a, e), NextHandler(m, StateOf(a, e).handler.sid);
    var s := SlotOf(a, n, sid);
    OverReader(a, sid, e);
    assert SlotOk(a.links, n, sid, s);
    assert sid in a.ctls;
    hide WellFormed, BuildingOver;
    MessageKeepsOrCloses(s, e, sid, m);
    TakeWears(a, e, m, h);
    hide SlotOk, KeepsOrCloses, Wears, Commit, EndOk, OnSetSession, OnProbe, OnSuccess, OnData, OnClose;
  }

  lemma WakeWears(a: Net, n1: Net, sid: Sid, n: NodeId)
    requires sid in a.ctls && n1.ctls == a.ctls && n1.slots == a.slots && Wears(a.links, n1.links, None)
    ensures Worn(a, n1, sid, n, None)
  {
    hide Wears;
  }

  lemma DeliverWears(a: Net, e: End, m: Message, sid: Sid)
    requires WellFormed(a) && BuildingOver(a, sid) && EnabledRelay(a, Deliver(e, m)) && a.links[e.link].sid == sid
    ensures Worn(a, DoDeliver(a, e, m), sid, OwnerOf(a, e), if m.Disconnect? then Some(e) else None)
  {
    var n := OwnerOf(a, e);
    var n1 := Take(a, e, m, NextHandler(m, StateOf(a, e).handler.sid));
    assert Known(a, e);
    hide *;
    TakenWears(a, e, m, sid);
    if m.Wake? {
      WakeWears(a, n1, sid, n);
    } else {
      CommitWorn(a, n1, n, sid, OnMessage(SlotOf(a, n, sid), e, sid, m), if m.Disconnect? then Some(e) else None);
    }
  }

  lemma StoppedLink(a: Net, e: End)
    requires Known(a, e)
    ensures var n1 := a.(links := a.links[e.link := WithEnd(a.links[e.link], e.opener,
                                                               StateOf(a, e).(handler := Stopped))]);
            Wears(a.links, n1.links, Some(e))
  {}

  lemma ErrorKeepsOrCloses(s: Slot, e: End)
    ensures KeepsOrCloses(s, OnError(s, e))
    ensures s.session.Some? && s.session.value.Holds(e) ==> OnError(s, e) == OnClose(s)
  {}

  lemma FaultForm(a: Net, e: End, sid: Sid)
    requires EnabledRelay(a, Fault(e)) && StateOf(a, e).handler == Running(Some(sid))
    ensures var n1 := a.(links := a.links[e.link := WithEnd(a.links[e.link], e.opener,
                                                               StateOf(a, e).(handler := Stopped))]);
            DoFault(a, e) == Commit(n1, OwnerOf(a, e), sid, OnError(SlotOf(a, OwnerOf(a, e), sid), e))
  {
    hide Commit, OnError;
  }

  lemma FaultWears(a: Net, e: End, sid: Sid)
    requires WellFormed(a) && BuildingOver(a, sid) && EnabledRelay(a, Fault(e)) && a.links[e.link].sid == sid
    ensures Worn(a, DoFault(a, e), sid, OwnerOf(a, e), Some(e))
  {
    var n := OwnerOf(a, e);
    var n1 := a.(links := a.links[e.link := WithEnd(a.links[e.link], e.opener, StateOf(a, e).(handler := Stopped))]);
    assert n1.ctls == a.ctls && n1.slots == a.slots && Known(a, e) && sid in a.ctls;
    assert SlotOk(a.links, n, sid, SlotOf(a, n, sid));
    hide *;
    OverReader(a, sid, e);
    FaultForm(a, e, sid);
    StoppedLink(a, e);
    ErrorKeepsOrCloses(SlotOf(a, n, sid), e);
    CommitWorn(a, n1, n, sid, OnError(SlotOf(a, n, sid), e), Some(e));
  }

  lemma WornBreak(a: Net, b: Net, sid: Sid, n: NodeId, e: Option<End>)
    requires Worn(a, b, sid, n, e)
    ensures Worn(a, Break(b, sid), sid, n, e)
  {
    hide Wears;
    assert forall m :: SlotOf(Break(b, sid), m, sid) == SlotOf(b, m, sid);
  }

  lemma SameLinksWear(links: seq<Link>)
    ensures Wears(links, links, None)
  {}

  lemma CloseWears(a: Net, n: NodeId, sid: Sid)
    requires WellFormed(a) && sid in a.ctls
    ensures Worn(a, Break(Close(a, n, sid), sid), sid, n, None)
  {
    var s := SlotOf(a, n, sid);
    assert SlotOk(a.links, n, sid, s);
    assert KeepsOrCloses(s, OnClose(s));
    assert Close(a, n, sid) == Commit(a, n, sid, OnClose(s));
    hide *;
    SameLinksWear(a.links);
    CommitWorn(a, a, n, sid, OnClose(s), None);
    WornBreak(a, Close(a, n, sid), sid, n, None);
  }

  lemma ProbeWears(a: Net, n: NodeId, sid: Sid, j: Control)
    requires WellFormed(a) && sid in a.ctls && SameStreams(a.ctls[sid], j) && j.published == a.ctls[sid].published
             && j.cmd == a.ctls[sid].cmd
    ensures Worn(a, SendBothWays(WithControl(a, sid, j), n, sid, OwnProbe(sid)), sid, n, None)
  {
    var s, n1 := SlotOf(a, n, sid), WithControl(a, sid, j);
    var out := TwoWay(s, OwnProbe(sid));
    var b := Commit(n1, n, sid, out);
    assert SlotOf(n1, n, sid) == s && n1.slots == a.slots && n1.links == a.links && n1.ctls[sid] == j;
    assert b == SendBothWays(n1, n, sid, OwnProbe(sid));
    assert out.slot == s;
    hide WellFormed, Commit, Wears, SendBothWays, SameStreams;
    CommitWears(n1, n, sid, out);
    SameSlots(a, n1, b, n, sid, out);
    CommitControls(n1, n, sid, out);
  }

  lemma SameSlots(a: Net, n1: Net, b: Net, n: NodeId, sid: Sid, out: Outcome)
    requires n1.slots == a.slots && b == Commit(n1, n, sid, out) && out.slot == SlotOf(a, n, sid)
    ensures forall m :: SlotOf(b, m, sid) == SlotOf(a, m, sid)
  {}

  lemma CommitControls(a: Net, n: NodeId, sid: Sid, out: Outcome)
    ensures Commit(a, n, sid, out).ctls == a.ctls
  {}

  lemma SendWears(a: Net, n: NodeId, sid: Sid, payload: Payload)
    requires EnabledRelay(a, Send(n, sid, payload)) && sid in a.ctls
    ensures Worn(a, DoSend(a, n, sid, payload), sid, n, None)
  {
    PostWears(a.links, Some(Write(SlotOf(a, n, sid).circuit.value.out, Data(sid, payload))));
    hide Post, Wears;
  }

  lemma StoreWears(a: Net, n: NodeId, sid: Sid, e: End)
    requires sid in a.ctls
    ensures Worn(a, DoStore(a, n, sid, e), sid, n, None)
  {
    SameLinksWear(a.links);
    hide Wears;
  }

  /** Only probes are left for the tasks to send. */
  lemma OverTasks(a: Net, st: Step)
    requires WellFormed(a) && !IsRelayStep(st) && EnabledTask(a, st) && BuildingOver(a, st.sid)
    ensures st.ProbeFromEntry? || (st.ExpandReply? && a.ctls[st.sid].cmd == Replied(true))
  {
    hide WellFormed, BuildingOver, HalfOpen, RelaySlot;
    OverControl(a, st.sid);
  }

  lemma OverControl(a: Net, sid: Sid)
    requires WellFormed(a) && BuildingOver(a, sid)
    ensures sid in a.ctls && ControlOk(a.links, sid, a.ctls[sid]) && TasksOver(a, a.ctls[sid])
    ensures forall l :: 0 <= l < |a.links| && a.links[l].sid == sid ==> Attached(a, l)
  {}

  /** The node and the reader that a step of `sid` may change. */
  function Actor(a: Net, st: Step): NodeId
    requires Enabled(a, st)
  {
    match st
    case Deliver(e, _) => OwnerOf(a, e)
    case Fault(e) => OwnerOf(a, e)
    case ClientClose(n, _) => n
    case Send(n, _, _) => n
    case Store(n, _, _) => n
    case ProbeFromEntry(sid) => a.ctls[sid].entry
    case ExpandReply(sid) => a.ctls[sid].home
    case _ => 0
  }

  function StoppedEnd(st: Step): Option<End> {
    match st
    case Deliver(e, m) => if m.Disconnect? then Some(e) else None
    case Fault(e) => Some(e)
    case _ => None
  }

  lemma StepWears(a: Net, st: Step, sid: Sid)
    requires WellFormed(a) && BuildingOver(a, sid) && Enabled(a, st) && StepSid(a, st) == sid
    ensures Worn(a, Do(a, st), sid, Actor(a, st), StoppedEnd(st))
  {
    assert sid in a.ctls;
    hide WellFormed, BuildingOver, Worn, DoTask, DoRelay, EnabledTask;
    if IsRelayStep(st) { RelayWears(a, st, sid); } else { TaskWears(a, st); }
  }

  lemma OverKnown(a: Net, sid: Sid)
    requires BuildingOver(a, sid)
    ensures sid in a.ctls
  {}

  lemma RelayWears(a: Net, st: Step, sid: Sid)
    requires WellFormed(a) && BuildingOver(a, sid) && IsRelayStep(st) && EnabledRelay(a, st) && StepSid(a, st) == sid
    ensures Worn(a, DoRelay(a, st), sid, Actor(a, st), StoppedEnd(st))
  {
    hide WellFormed, BuildingOver, Worn, DoDeliver, DoFault, DoSend, DoStore, Close, Take, StateOf;
    OverKnown(a, sid);
    match st
    case Deliver(e, m) => DeliverWears(a, e, m, sid);
    case Fault(e) => FaultWears(a, e, sid);
    case Lose(e, m) => LoseWears(a, e, m, sid);
    case ClientClose(n, _) => CloseWears(a, n, sid);
    case Fail(l) => FailWears(a, l, sid);
    case Send(n, _, payload) => SendWears(a, n, sid, payload);
    case Store(n, _, e) => StoreWears(a, n, sid, e);
    case _ =>
  }

  lemma LoseWears(a: Net, e: End, m: Message, sid: Sid)
    requires EnabledRelay(a, Lose(e, m)) && sid in a.ctls && a.links[e.link].sid == sid
    ensures Worn(a, DoRelay(a, Lose(e, m)), sid, 0, None)
  {}

  lemma FailWears(a: Net, l: LinkId, sid: Sid)
    requires EnabledRelay(a, Fail(l)) && sid in a.ctls && a.links[l].sid == sid
    ensures Worn(a, DoRelay(a, Fail(l)), sid, 0, None)
  {}

  lemma TaskWears(a: Net, st: Step)
    requires WellFormed(a) && !IsRelayStep(st) && EnabledTask(a, st) && BuildingOver(a, st.sid)
    ensures Worn(a, DoTask(a, st), st.sid, Actor(a, st), StoppedEnd(st))
  {
    hide WellFormed, BuildingOver, Worn, SendBothWays, HalfOpen, RelaySlot, Done, ProbeRand;
    OverTasks(a, st);
    var k := a.ctls[st.sid];
    if st.ProbeFromEntry? {
      ProbeWears(a, k.entry, st.sid, k.(probedE := true));
    } else {
      ProbeWears(a, k.home, st.sid, k.(probedA := true));
    }
  }

  /** Steps of other session ids do not touch the path. */
  lemma OthersErode(a: Net, b: Net, sid: Sid, hops: seq<Hop>)
    requires Collapsible(a, sid, hops) && WellFormed(b) && SameFor(a, b, sid)
    ensures Collapsible(b, sid, hops) && Erodes(a, b, sid, hops)
  {
    assert Wired(a, sid, hops);
    forall i | 0 <= i < |hops| ensures WireErodes(a.links[hops[i].link], b.links[hops[i].link]) {
      assert WireOk(a.links[hops[i].link], sid);
    }
    forall i | 0 <= i <= |hops|
      ensures NodeErodes(a, b, sid, hops, i)
    { BesideOwners(a, sid, hops, i); SameNode(a, b, sid, hops, i); }
    OthersOver(a, b, sid);
    hide BuildingOver, SameFor, WellFormed;
    WiredErodes(a, b, sid, hops);
    hide Erodes, Wired, NodeErodes, StandsOrGone;
    forall i | 0 <= i <= |hops| ensures StandsOrGone(b, sid, hops, i) { NodeStays(a, b, sid, hops, i); }
  }

  lemma SameNode(a: Net, b: Net, sid: Sid, hops: seq<Hop>, i: nat)
    requires Wired(a, sid, hops) && SameFor(a, b, sid) && i <= |hops|
    ensures NodeErodes(a, b, sid, hops, i)
  {
    if i > 0 { assert WireOk(a.links[hops[i - 1].link], sid); }
    if i < |hops| { assert WireOk(a.links[hops[i].link], sid); }
  }

  lemma OthersOver(a: Net, b: Net, sid: Sid)
    requires WellFormed(a) && BuildingOver(a, sid) && SameFor(a, b, sid)
    ensures BuildingOver(b, sid)
  {
    assert ControlOk(a.links, sid, a.ctls[sid]);
    assert forall l :: 0 <= l < |b.links| && b.links[l].sid == sid ==> l < |a.links| && b.links[l] == a.links[l];
  }

  /** Every step, whatever it is, keeps a collapsible circuit collapsible and at most erodes it. */
  lemma StepErodes(a: Net, st: Step, sid: Sid, hops: seq<Hop>)
    requires Collapsible(a, sid, hops) && Enabled(a, st)
    ensures Collapsible(Do(a, st), sid, hops) && Erodes(a, Do(a, st), sid, hops)
  {
    assert WellFormed(a) && BuildingOver(a, sid);
    hide *;
    StepIsolated(a, st);
    if StepSid(a, st) == sid {
      StepWears(a, st, sid);
      WornKeeps(a, Do(a, st), sid, hops, Actor(a, st), StoppedEnd(st));
    } else {
      ConfinedIsSame(a, Do(a, st), StepSid(a, st), sid);
      OthersErode(a, Do(a, st), sid, hops);
    }
  }

  // ---- the measure -------------------------------------------------------------------------------

  predicate InRange(net: Net, hops: seq<Hop>) {
    |hops| > 0 && forall i :: 0 <= i < |hops| ==> hops[i].link < |net.links|
  }

  /** What is left to close at node `i` and on the stream to its right: a session and two readers. */
  function Weight(net: Net, sid: Sid, hops: seq<Hop>, i: nat): nat
    requires InRange(net, hops) && i <= |hops|
  {
    One(SlotOf(net, NodeAt(net, hops, i), sid).session.Some?)
    + if i < |hops| then
        One(net.links[hops[i].link].o.handler.Running?) + One(net.links[hops[i].link].a.handler.Running?)
      else 0
  }

  function WeightUpTo(net: Net, sid: Sid, hops: seq<Hop>, k: nat): nat
    requires InRange(net, hops) && k <= |hops| + 1
  {
    if k == 0 then 0 else WeightUpTo(net, sid, hops, k - 1) + Weight(net, sid, hops, k - 1)
  }

  /** The sessions and running readers of the whole path. */
  function Remaining(net: Net, sid: Sid, hops: seq<Hop>): nat
    requires InRange(net, hops)
  {
    WeightUpTo(net, sid, hops, |hops| + 1)
  }

  lemma {:induction false} RemainingBound(net: Net, sid: Sid, hops: seq<Hop>, k: nat)
    requires InRange(net, hops) && k <= |hops| + 1
    ensures WeightUpTo(net, sid, hops, k) <= 3 * k
            && (k == |hops| + 1 ==> WeightUpTo(net, sid, hops, k) <= 3 * |hops| + 1)
  {
    if k > 0 { RemainingBound(net, sid, hops, k - 1); }
  }

  lemma {:induction false} SumsCompare(a: Net, b: Net, sid: Sid, hops: seq<Hop>, k: nat, j: nat, drop: nat)
    requires InRange(a, hops) && InRange(b, hops) && k <= |hops| + 1
    requires forall i :: 0 <= i <= |hops| ==>
                 Weight(b, sid, hops, i) + (if i == j then drop else 0) <= Weight(a, sid, hops, i)
    ensures WeightUpTo(b, sid, hops, k) + (if j < k then drop else 0) <= WeightUpTo(a, sid, hops, k)
  {
    hide Weight;
    if k > 0 { SumsCompare(a, b, sid, hops, k - 1, j, drop); }
  }

  lemma WiredInRange(net: Net, sid: Sid, hops: seq<Hop>)
    requires Wired(net, sid, hops)
    ensures InRange(net, hops)
  {}

  lemma ErodedWeight(a: Net, b: Net, sid: Sid, hops: seq<Hop>, i: nat)
    requires Wired(a, sid, hops) && Wired(b, sid, hops) && Erodes(a, b, sid, hops) && i <= |hops|
    requires NodeAt(b, hops, i) == NodeAt(a, hops, i)
    ensures InRange(a, hops) && InRange(b, hops) && Weight(b, sid, hops, i) <= Weight(a, sid, hops, i)
  {
    assert NodeErodes(a, b, sid, hops, i);
    if i < |hops| { assert WireErodes(a.links[hops[i].link], b.links[hops[i].link]); }
  }

  /** A closing step of the path: a reader meets an error or a disconnect message, or a client or server
      closes a session that stands. */
  predicate Closing(a: Net, st: Step, sid: Sid, hops: seq<Hop>, i: nat)
    requires InRange(a, hops) && i <= |hops|
  {
    match st
    case Fault(e) => i < |hops| && e.link == hops[i].link
    case Deliver(e, m) => i < |hops| && e.link == hops[i].link && m.Disconnect?
    case ClientClose(n, x) => x == sid && n == NodeAt(a, hops, i) && SlotOf(a, n, sid).session.Some?
    case _ => false
  }

  ghost predicate IsClosing(a: Net, st: Step, sid: Sid, hops: seq<Hop>)
    requires InRange(a, hops)
  {
    exists i :: 0 <= i <= |hops| && Closing(a, st, sid, hops, i)
  }

  lemma CommitReaders(a: Net, n: NodeId, sid: Sid, out: Outcome, l: LinkId)
    requires l < |a.links| && out.first.None? && out.second.None?
    ensures var b := Commit(a, n, sid, out);
            |b.links| == |a.links| && b.links[l].o.handler == a.links[l].o.handler
                && b.links[l].a.handler == a.links[l].a.handler
  {
    hide Commit;
    CommitWears(a, n, sid, out);
    assert LinkWears(a.links[l], Commit(a, n, sid, out).links[l], false, false);
  }

  lemma ClosingWritesNothing(s: Slot, e: End)
    ensures OnClose(s).first.None? && OnClose(s).second.None? && !OnClose(s).ack
    ensures OnError(s, e).first.None? && OnError(s, e).second.None? && !OnError(s, e).ack
  {}

  lemma FaultStops(a: Net, e: End)
    requires EnabledRelay(a, Fault(e))
    ensures Known(DoFault(a, e), e) && StateOf(DoFault(a, e), e).handler == Stopped
  {
    var n1 := a.(links := a.links[e.link := WithEnd(a.links[e.link], e.opener, StateOf(a, e).(handler := Stopped))]);
    var x := StateOf(a, e).handler.sid;
    if x.Some? {
      var out := OnError(SlotOf(a, OwnerOf(a, e), x.value), e);
      ClosingWritesNothing(SlotOf(a, OwnerOf(a, e), x.value), e);
      hide OnError, Commit, SlotOf;
      CommitReaders(n1, OwnerOf(a, e), x.value, out, e.link);
    }
  }

  lemma DisconnectStops(a: Net, e: End, m: Message)
    requires EnabledRelay(a, Deliver(e, m)) && m.Disconnect?
    ensures Known(DoDeliver(a, e, m), e) && StateOf(DoDeliver(a, e, m), e).handler == Stopped
  {
    var n1 := Take(a, e, m, Stopped);
    var s := SlotOf(a, OwnerOf(a, e), m.closeSid);
    assert OnMessage(s, e, m.closeSid, m) == OnClose(s);
    ClosingWritesNothing(s, e);
    hide OnClose, OnMessage, Commit, SlotOf;
    CommitReaders(n1, OwnerOf(a, e), m.closeSid, OnClose(s), e.link);
  }

  lemma StopsReader(a: Net, st: Step, e: End)
    requires Enabled(a, st) && (st == Fault(e) || (st.Deliver? && st.end == e && st.msg.Disconnect?))
    ensures var b := Do(a, st);
            Known(a, e) && Known(b, e) && StateOf(a, e).handler.Running? && StateOf(b, e).handler == Stopped
  {
    hide DoFault, DoDeliver;
    if st.Fault? { FaultStops(a, e); } else { DisconnectStops(a, e, st.msg); }
  }

  /** A closing step takes something off the measure. */
  lemma ClosingDrops(a: Net, st: Step, sid: Sid, hops: seq<Hop>, i: nat)
    requires Collapsible(a, sid, hops) && Enabled(a, st) && InRange(a, hops) && i <= |hops|
             && Closing(a, st, sid, hops, i)
    requires var b := Do(a, st);
             && Wired(b, sid, hops) && Erodes(a, b, sid, hops) && InRange(b, hops)
             && NodeAt(b, hops, i) == NodeAt(a, hops, i)
    ensures Weight(Do(a, st), sid, hops, i) + 1 <= Weight(a, sid, hops, i)
  {
    hide WellFormed, BuildingOver;
    var b := Do(a, st);
    assert Wired(a, sid, hops);
    hide Do, Enabled, Collapsible;
    assert NodeErodes(a, b, sid, hops, i);
    if i < |hops| { assert WireErodes(a.links[hops[i].link], b.links[hops[i].link]); }
    if st.ClientClose? {
      ClosedSlot(a, st.node, sid);
    } else {
      StopsReader(a, st, st.end);
    }
    hide Wired, Erodes, NodeAt;
  }

  lemma ClosedSlot(a: Net, n: NodeId, sid: Sid)
    requires Enabled(a, ClientClose(n, sid))
    ensures SlotOf(Do(a, ClientClose(n, sid)), n, sid) == EMPTY_SLOT
  {
    hide Post, Shut;
  }

  /** No step adds to the measure, and closing steps reduce it. */
  lemma StepRemaining(a: Net, st: Step, sid: Sid, hops: seq<Hop>)
    requires Collapsible(a, sid, hops) && Enabled(a, st)
    ensures InRange(a, hops) && Collapsible(Do(a, st), sid, hops) && Erodes(a, Do(a, st), sid, hops)
    ensures InRange(Do(a, st), hops)
    ensures Remaining(Do(a, st), sid, hops) + One(IsClosing(a, st, sid, hops)) <= Remaining(a, sid, hops)
  {
    var b := Do(a, st);
    StepErodes(a, st, sid, hops);
    hide Do, WellFormed, BuildingOver, StandsOrGone;
    WiredInRange(a, sid, hops);
    WiredInRange(b, sid, hops);
    WiredErodes(a, b, sid, hops);
    assert Wired(a, sid, hops) && Wired(b, sid, hops);
    hide Wired, Erodes, NodeAt, Closing, Weight;
    forall i | 0 <= i <= |hops|
      ensures Weight(b, sid, hops, i) <= Weight(a, sid, hops, i)
    { ErodedWeight(a, b, sid, hops, i); }
    if j: nat :| 0 <= j <= |hops| && Closing(a, st, sid, hops, j) {
      ClosingDrops(a, st, sid, hops, j);
      SumsCompare(a, b, sid, hops, |hops| + 1, j, 1);
    } else {
      SumsCompare(a, b, sid, hops, |hops| + 1, 0, 0);
    }
  }

  // ---- damage spreads ----------------------------------------------------------------------------

  ghost predicate Gone(net: Net, sid: Sid, hops: seq<Hop>)
    requires InRange(net, hops)
  {
    forall i :: 0 <= i <= |hops| ==> SlotOf(net, NodeAt(net, hops, i), sid).session.None?
  }

  /** Somewhere a node has dropped the session, or a stream has failed. */
  ghost predicate Damaged(net: Net, sid: Sid, hops: seq<Hop>)
    requires InRange(net, hops)
  {
    || (exists i :: 0 <= i <= |hops| && SlotOf(net, NodeAt(net, hops, i), sid).session.None?)
    || (exists i :: 0 <= i < |hops| && net.links[hops[i].link].o.eof)
  }

  /** No reader of the path has an error before it. */
  ghost predicate NoErrorPending(net: Net, hops: seq<Hop>)
    requires InRange(net, hops)
  {
    forall i :: 0 <= i < |hops| ==>
      && !Enabled(net, Fault(LeftEnd(hops[i]))) && !Enabled(net, Fault(RightEnd(hops[i])))
  }

  /** With no error pending, a failed stream has no session at either end. */
  lemma FailedStream(net: Net, sid: Sid, hops: seq<Hop>, i: nat)
    requires Collapsible(net, sid, hops) && InRange(net, hops) && NoErrorPending(net, hops)
    requires i < |hops| && net.links[hops[i].link].o.eof
    ensures SlotOf(net, NodeAt(net, hops, i), sid).session.None?
            && SlotOf(net, NodeAt(net, hops, i + 1), sid).session.None?
  {
    assert WireOk(net.links[hops[i].link], sid);
    assert StandsOrGone(net, sid, hops, i) && StandsOrGone(net, sid, hops, i + 1);
    assert !Enabled(net, Fault(LeftEnd(hops[i]))) && !Enabled(net, Fault(RightEnd(hops[i])));
    assert RightOf(hops, i) == Some(LeftEnd(hops[i])) && LeftOf(hops, i + 1) == Some(RightEnd(hops[i]));
    hide WellFormed, BuildingOver, NodeAt;
  }

  lemma GoneNeighbour(net: Net, sid: Sid, hops: seq<Hop>, i: nat)
    requires Collapsible(net, sid, hops) && InRange(net, hops) && NoErrorPending(net, hops)
    requires i < |hops|
    ensures SlotOf(net, NodeAt(net, hops, i), sid).session.None? <==>
            SlotOf(net, NodeAt(net, hops, i + 1), sid).session.None?
  {
    hide NoErrorPending;
    assert WireOk(net.links[hops[i].link], sid);
    assert StandsOrGone(net, sid, hops, i) && StandsOrGone(net, sid, hops, i + 1);
    assert RightOf(hops, i) == Some(LeftEnd(hops[i])) && LeftOf(hops, i + 1) == Some(RightEnd(hops[i]));
    hide WellFormed, BuildingOver, NodeAt;
    if net.links[hops[i].link].o.eof { FailedStream(net, sid, hops, i); }
  }

  lemma {:induction false} GoneFrom(net: Net, sid: Sid, hops: seq<Hop>, i: nat, j: nat)
    requires Collapsible(net, sid, hops) && InRange(net, hops) && NoErrorPending(net, hops)
    requires i <= j <= |hops|
    ensures SlotOf(net, NodeAt(net, hops, i), sid).session.None? <==>
            SlotOf(net, NodeAt(net, hops, j), sid).session.None?
    decreases j - i
  {
    hide Collapsible, NoErrorPending, NodeAt, InRange;
    if i < j {
      GoneNeighbour(net, sid, hops, i);
      GoneFrom(net, sid, hops, i + 1, j);
    }
  }

  /** When no closing event is pending, damage anywhere means that no node of the circuit holds the
      session. */
  lemma DamageSpreads(net: Net, sid: Sid, hops: seq<Hop>)
    requires Collapsible(net, sid, hops) && InRange(net, hops) && NoErrorPending(net, hops) && Damaged(net, sid, hops)
    ensures Gone(net, sid, hops)
  {
    hide Collapsible, NoErrorPending, NodeAt;
    var i: nat;
    if k: nat :| k <= |hops| && SlotOf(net, NodeAt(net, hops, k), sid).session.None? {
      i := k;
    } else {
      var k: nat :| k < |hops| && net.links[hops[k].link].o.eof;
      FailedStream(net, sid, hops, k);
      i := k;
    }
    forall j: nat | j <= |hops| ensures SlotOf(net, NodeAt(net, hops, j), sid).session.None? {
      if i <= j { GoneFrom(net, sid, hops, i, j); } else { GoneFrom(net, sid, hops, j, i); }
    }
  }

  lemma DamageLasts(a: Net, b: Net, sid: Sid, hops: seq<Hop>)
    requires Collapsible(a, sid, hops) && Collapsible(b, sid, hops) && Erodes(a, b, sid, hops) && InRange(a, hops)
             && InRange(b, hops)
    ensures Damaged(a, sid, hops) ==> Damaged(b, sid, hops)
    ensures Gone(a, sid, hops) ==> Gone(b, sid, hops)
  {
    WiredErodes(a, b, sid, hops);
    hide WellFormed, BuildingOver;
    forall i | 0 <= i <= |hops| && SlotOf(a, NodeAt(a, hops, i), sid).session.None?
      ensures SlotOf(b, NodeAt(b, hops, i), sid).session.None?
    { NodeStays(a, b, sid, hops, i); }
    forall i | 0 <= i < |hops| && a.links[hops[i].link].o.eof ensures b.links[hops[i].link].o.eof {
      assert WireErodes(a.links[hops[i].link], b.links[hops[i].link]);
    }
    hide Wired, Erodes, StandsOrGone, NodeAt;
  }

  // ---- entries that come back --------------------------------------------------------------------

  lemma EmptyOutcome(e: End, sid: Sid, m: Message)
    requires !m.SetSession?
    ensures OnMessage(EMPTY_SLOT, e, sid, m).slot == EMPTY_SLOT
    ensures OnError(EMPTY_SLOT, e).slot == EMPTY_SLOT && OnClose(EMPTY_SLOT).slot == EMPTY_SLOT
  {}

  lemma CommitSlot(a: Net, n: NodeId, sid: Sid, out: Outcome)
    ensures SlotOf(Commit(a, n, sid, out), n, sid) == out.slot
  {}

  lemma DeliverLeavesEmpty(a: Net, e: End, m: Message, sid: Sid)
    requires WellFormed(a) && BuildingOver(a, sid) && EnabledRelay(a, Deliver(e, m)) && a.links[e.link].sid == sid
    requires SlotOf(a, OwnerOf(a, e), sid) == EMPTY_SLOT
    ensures SlotOf(DoDeliver(a, e, m), OwnerOf(a, e), sid) == EMPTY_SLOT
  {
    var n, n1 := OwnerOf(a, e), Take(a, e, m, NextHandler(m, StateOf(a, e).handler.sid));
    OverReader(a, sid, e);
    TakenWears(a, e, m, sid);
    assert n1.slots == a.slots && !m.SetSession?;
    hide WellFormed, BuildingOver, DoDeliver, Take, NextHandler, SlotOk, KeepsOrCloses, Wears;
    EmptyOutcome(e, sid, m);
    hide OnMessage;
    CommitSlot(n1, n, sid, OnMessage(SlotOf(a, n, sid), e, sid, m));
  }

  lemma FaultLeavesEmpty(a: Net, e: End, sid: Sid)
    requires WellFormed(a) && BuildingOver(a, sid) && EnabledRelay(a, Fault(e)) && a.links[e.link].sid == sid
    requires SlotOf(a, OwnerOf(a, e), sid) == EMPTY_SLOT
    ensures SlotOf(DoFault(a, e), OwnerOf(a, e), sid) == EMPTY_SLOT
  {
    var n1 := a.(links := a.links[e.link := WithEnd(a.links[e.link], e.opener, StateOf(a, e).(handler := Stopped))]);
    hide WellFormed, BuildingOver, DoFault, Commit, OnError;
    OverReader(a, sid, e);
    FaultForm(a, e, sid);
    EmptyOutcome(e, sid, Wake);
    CommitSlot(n1, OwnerOf(a, e), sid, OnError(EMPTY_SLOT, e));
  }

  lemma ActorLeavesEmpty(a: Net, st: Step, sid: Sid)
    requires WellFormed(a) && BuildingOver(a, sid) && Enabled(a, st) && StepSid(a, st) == sid && !st.Store?
    requires SlotOf(a, Actor(a, st), sid) == EMPTY_SLOT
    ensures SlotOf(Do(a, st), Actor(a, st), sid) == EMPTY_SLOT
  {
    hide WellFormed, BuildingOver, DoDeliver, DoFault, Commit, TwoWay, OnClose;
    if !IsRelayStep(st) { OverTasks(a, st); }
    hide EnabledTask;
    match st
    case Deliver(e, m) => DeliverLeavesEmpty(a, e, m, sid);
    case Fault(e) => FaultLeavesEmpty(a, e, sid);
    case ClientClose(n, _) => ClosedSlot(a, n, sid);
    case ProbeFromEntry(_) =>
      assert TwoWay(EMPTY_SLOT, OwnProbe(sid)).slot == EMPTY_SLOT by { TwoWaySlot(OwnProbe(sid)); }
      CommitSlot(WithControl(a, sid, a.ctls[sid].(probedE := true)), a.ctls[sid].entry, sid,
                    TwoWay(EMPTY_SLOT, OwnProbe(sid)));
    case ExpandReply(_) =>
      assert TwoWay(EMPTY_SLOT, OwnProbe(sid)).slot == EMPTY_SLOT by { TwoWaySlot(OwnProbe(sid)); }
      CommitSlot(WithControl(a, sid, a.ctls[sid].(probedA := true)), a.ctls[sid].home, sid,
                    TwoWay(EMPTY_SLOT, OwnProbe(sid)));
    case _ =>
  }

  lemma TwoWaySlot(m: Message)
    ensures TwoWay(EMPTY_SLOT, m).slot == EMPTY_SLOT
  {}

  lemma StoredSlot(a: Net, n: NodeId, sid: Sid, e: End)
    requires SlotOf(a, n, sid) == EMPTY_SLOT
    ensures SlotOf(DoStore(a, n, sid, e), n, sid) == Slot(None, Some(Circuit(e, multiset{}, multiset{})), None)
  {}

  /** A node that has dropped everything of a session id gets an entry again if and only if a handshake task
      puts its copy of the circuit entry back. No session comes with it. */
  lemma EntryReturnsExactlyIf(a: Net, st: Step, sid: Sid, n: NodeId)
    requires WellFormed(a) && BuildingOver(a, sid) && Enabled(a, st) && SlotOf(a, n, sid) == EMPTY_SLOT
    ensures SlotOf(Do(a, st), n, sid) != EMPTY_SLOT <==> st.Store? && st.node == n && st.sid == sid
    ensures SlotOf(Do(a, st), n, sid).session.None?
  {
    hide WellFormed, BuildingOver, Enabled;
    StepIsolated(a, st);
    if StepSid(a, st) != sid {
      ConfinedIsSame(a, Do(a, st), StepSid(a, st), sid);
    } else {
      StepWears(a, st, sid);
      if st.Store? && st.node == n {
        StoredSlot(a, n, sid, st.end);
      } else if n == Actor(a, st) {
        ActorLeavesEmpty(a, st, sid);
      }
    }
  }

  // ---- whole runs --------------------------------------------------------------------------------

  /** How many steps of a run close something of the path. */
  ghost function ClosingSteps(net: Net, steps: seq<Step>, sid: Sid, hops: seq<Hop>): nat
    requires Collapsible(net, sid, hops) && InRange(net, hops) && CanRun(net, steps)
    decreases |steps|
  {
    if steps == [] then 0
    else
      StepRemaining(net, steps[0], sid, hops);
      One(IsClosing(net, steps[0], sid, hops)) + ClosingSteps(Do(net, steps[0]), steps[1..], sid, hops)
  }

  /** Any run from a circuit that stands or is coming down: closing steps are bounded by the measure,
      damage lasts, and what is gone stays gone. */
  lemma {:induction false} RunErodes(net: Net, steps: seq<Step>, sid: Sid, hops: seq<Hop>)
    requires Collapsible(net, sid, hops) && InRange(net, hops) && CanRun(net, steps)
    ensures var b := Run(net, steps);
            && Collapsible(b, sid, hops) && InRange(b, hops)
            && ClosingSteps(net, steps, sid, hops) + Remaining(b, sid, hops) <= Remaining(net, sid, hops)
            && (Damaged(net, sid, hops) ==> Damaged(b, sid, hops))
            && (Gone(net, sid, hops) ==> Gone(b, sid, hops))
    decreases |steps|
  {
    hide Collapsible, InRange, Damaged, Gone, IsClosing, Remaining;
    if steps != [] {
      StepRemaining(net, steps[0], sid, hops);
      DamageLasts(net, Do(net, steps[0]), sid, hops);
      RunErodes(Do(net, steps[0]), steps[1..], sid, hops);
    }
  }

  lemma PendingAt(net: Net, hops: seq<Hop>) returns (i: nat, e: End)
    requires InRange(net, hops) && !NoErrorPending(net, hops)
    ensures i < |hops| && e.link == hops[i].link && Enabled(net, Fault(e))
  {
    hide Enabled;
    i :| i < |hops| && !(!Enabled(net, Fault(LeftEnd(hops[i]))) && !Enabled(net, Fault(RightEnd(hops[i]))));
    e := if Enabled(net, Fault(LeftEnd(hops[i]))) then LeftEnd(hops[i]) else RightEnd(hops[i]);
  }

  /** As long as damage has not spread to every node, some reader of the path has an error before it. */
  lemma ErrorPending(net: Net, sid: Sid, hops: seq<Hop>) returns (e: End)
    requires Collapsible(net, sid, hops) && InRange(net, hops) && Damaged(net, sid, hops) && !Gone(net, sid, hops)
    ensures Enabled(net, Fault(e)) && IsClosing(net, Fault(e), sid, hops)
  {
    hide Collapsible, Damaged, Gone, Enabled, NoErrorPending, InRange;
    if NoErrorPending(net, hops) { DamageSpreads(net, sid, hops); }
    var i;
    i, e := PendingAt(net, hops);
    assert Closing(net, Fault(e), sid, hops, i);
  }

  /** From any damaged state the pending errors alone bring the whole circuit down, one closing step after
      the other. */
  lemma {:induction false} ComesDown(net: Net, sid: Sid, hops: seq<Hop>) returns (steps: seq<Step>)
    requires Collapsible(net, sid, hops) && InRange(net, hops) && Damaged(net, sid, hops)
    ensures CanRun(net, steps) && |steps| <= Remaining(net, sid, hops)
    ensures forall i :: 0 <= i < |steps| ==> steps[i].Fault?
    ensures Collapsible(Run(net, steps), sid, hops) && InRange(Run(net, steps), hops)
            && Gone(Run(net, steps), sid, hops)
    decreases Remaining(net, sid, hops)
  {
    hide Collapsible, InRange, Damaged, Gone, IsClosing, Remaining, Enabled, Do;
    steps := [];
    if !Gone(net, sid, hops) {
      var e := ErrorPending(net, sid, hops);
      var b := Do(net, Fault(e));
      StepRemaining(net, Fault(e), sid, hops);
      DamageLasts(net, b, sid, hops);
      var rest := ComesDown(b, sid, hops);
      steps := [Fault(e)] + rest;
      assert steps[1..] == rest;
    }
  }

  // ---- the damage itself -------------------------------------------------------------------------

  /** A close at any node of the path damages it. */
  lemma CloseDamages(a: Net, sid: Sid, hops: seq<Hop>, i: nat)
    requires Collapsible(a, sid, hops) && InRange(a, hops) && i <= |hops| && sid in a.ctls
    ensures var b := Do(a, ClientClose(NodeAt(a, hops, i), sid)); InRange(b, hops) && Damaged(b, sid, hops)
  {
    var st := ClientClose(NodeAt(a, hops, i), sid);
    StepRemaining(a, st, sid, hops);
    WiredErodes(a, Do(a, st), sid, hops);
    ClosedSlot(a, NodeAt(a, hops, i), sid);
    hide Collapsible, Do, Wired, Erodes, NodeAt;
  }

  /** The failure of any stream of the path damages it. */
  lemma FailureDamages(a: Net, sid: Sid, hops: seq<Hop>, i: nat)
    requires Collapsible(a, sid, hops) && InRange(a, hops) && i < |hops|
    ensures var b := Do(a, Fail(hops[i].link)); InRange(b, hops) && Damaged(b, sid, hops)
  {
    StepRemaining(a, Fail(hops[i].link), sid, hops);
    assert Do(a, Fail(hops[i].link)).links[hops[i].link].o.eof;
    hide Collapsible, Do;
  }

  // ---- established circuits ----------------------------------------------------------------------

  lemma FinishedTasks(clients: set<NodeId>, p: Plan, k: Control)
    requires InOrder(clients, p, k) && p.Complete() && p.home == k.home && p.entry == k.entry
    requires p.join.id == k.join && p.reach.id == k.reach && p.hop.id == k.hop
    requires p.RelayIsEntry() ==> k.cmd.Replied?
    ensures k.join.Some? && (if k.home == k.entry then !k.published && k.reach.None? else k.published && k.reach.Some?)
    ensures k.home == k.entry || p.join.acceptor == k.home || k.hop.Some?
    ensures k.cmd == Unsent || k.cmd == Bridging || k.cmd == Replied(true)
  {
    FinishedLegs(clients, p, k);
  }

  lemma FinishedOver(a: Net, sid: Sid)
    requires WellFormed(a) && Sound(a, sid) && a.emitted[sid] > 0
    ensures BuildingOver(a, sid)
  {
    FinishedTasksOver(a, sid);
    assert Topology(a, sid) && PlanOf(a, a.ctls[sid]).Complete();
    hide Sound, WellFormed, PlanOf, Topology, TasksOver;
    forall l | 0 <= l < |a.links| && a.links[l].sid == sid
      ensures a.links[l].o.handler != Waiting
      ensures forall m :: m in a.links[l].o.inbox ==> !m.SetSession?
      ensures forall m :: m in a.links[l].a.inbox ==> !m.SetSession?
    {
      FinishedLink(a, sid, l);
    }
  }

  lemma FinishedTasksOver(a: Net, sid: Sid)
    requires Sound(a, sid) && a.emitted[sid] > 0
    ensures sid in a.ctls && TasksOver(a, a.ctls[sid])
  {
    var k := a.ctls[sid];
    var p := PlanOf(a, k);
    LegIds(a, sid);
    FinishedLegs(a.clients, p, k);
    FinishedTasks(a.clients, p, k);
    hide SlotsAsCalled, LinksAsCalled, SinkWillClose, InOrder, Mail;
    assert k.join.value < |a.links|;
    assert AcceptorOf(a, k.join) == Some(p.join.acceptor);
  }

  lemma FinishedLink(a: Net, sid: Sid, l: LinkId)
    requires WellFormed(a) && Topology(a, sid) && PlanOf(a, a.ctls[sid]).Complete() && l < |a.links|
             && a.links[l].sid == sid
    ensures a.links[l].o.handler != Waiting
    ensures forall m :: m in a.links[l].o.inbox || m in a.links[l].a.inbox ==> !m.SetSession?
  {
    var k := a.ctls[sid];
    var p := PlanOf(a, k);
    LegIds(a, sid);
    FinishedLegs(a.clients, p, k);
    assert HandshakeOk(a.links[l], AskedRole(k, l));
    assert LinkOk(a.links[l]);
    hide WellFormed, SlotsAsCalled, LinksAsCalled, SinkWillClose, InOrder;
    assert LegAt(p, k, l).attached && LegAt(p, k, l).accepted;
    assert a.links[l].o.handler != Waiting && a.links[l].a.handler != Running(None);
    assert forall r :: a.links[l].o.inbox[SetSession(sid, r)] == 0 && a.links[l].a.inbox[SetSession(sid, r)] == 0;
    forall m | m in a.links[l].o.inbox || m in a.links[l].a.inbox ensures !m.SetSession? {
      assert Carries(m, sid);
    }
  }

  lemma ChainStands(a: Net, sid: Sid, hops: seq<Hop>, i: nat)
    requires IsChain(a, sid, hops) && Wired(a, sid, hops) && i <= |hops|
    ensures StandsOrGone(a, sid, hops, i)
  {
    BesideOwners(a, sid, hops, i);
    if 0 < i < |hops| { assert Relays(a, sid, hops[i - 1], hops[i - 1 + 1]); }
  }

  lemma ChainWired(a: Net, sid: Sid, hops: seq<Hop>)
    requires IsChain(a, sid, hops)
    requires forall i :: 0 <= i < |hops| ==> a.links[hops[i].link].o.eof == a.links[hops[i].link].a.eof
    ensures Wired(a, sid, hops)
  {
    forall i | 0 <= i < |hops| - 1 ensures OwnerOf(a, RightEnd(hops[i])) == OwnerOf(a, LeftEnd(hops[i + 1])) {
      assert Relays(a, sid, hops[i], hops[i + 1]);
    }
    assert forall i, j :: 0 <= i < j <= |hops| ==> NodeAt(a, hops, i) != NodeAt(a, hops, j);
  }

  /** A circuit for which a Success has been originated, while nobody has given up on it, is one to which
      all of the above applies. */
  lemma EstablishedCollapsible(a: Net, sid: Sid)
    requires WellFormed(a) && Sound(a, sid) && a.emitted[sid] > 0
    ensures Collapsible(a, sid, Path(a, sid)) && InRange(a, Path(a, sid)) && |Path(a, sid)| <= 5
  {
    var hops := Path(a, sid);
    FinishedIsChain(a, sid);
    FinishedOver(a, sid);
    forall i | 0 <= i < |hops| ensures a.links[hops[i].link].o.eof == a.links[hops[i].link].a.eof {
      var l := a.links[hops[i].link];
      assert l.sid == sid;
      assert Live(l) || Dying(l);
    }
    hide Sound, PathOf, PlanOf, WellFormed, BuildingOver;
    ChainWired(a, sid, hops);
    hide IsChain, Wired;
    forall i: nat | i <= |hops| ensures StandsOrGone(a, sid, hops, i) { ChainStands(a, sid, hops, i); }
    WiredInRange(a, sid, hops);
  }

  /** From the empty network to the end of a circuit: after any run that establishes the circuit of `sid`,
      and any further run, with failures, closes and other sessions, the closing steps are bounded; and
      if the circuit has been damaged and no reader of it has an error before it, then no node of it
      holds the session any more. */
  lemma CircuitEnds(net: Net, steps: seq<Step>, more: seq<Step>, sid: Sid)
    requires Initial(net) && CanRun(net, steps) && CanRun(Run(net, steps), more)
    requires var a := Run(net, steps); sid in a.ctls && sid !in a.broken && a.emitted[sid] > 0
    ensures var a := Run(net, steps);
            var b, hops := Run(a, more), Path(a, sid);
            && Collapsible(a, sid, hops) && InRange(a, hops) && InRange(b, hops)
            && ClosingSteps(a, more, sid, hops) <= 3 * |hops| + 1
            && (Damaged(b, sid, hops) && NoErrorPending(b, hops) ==> Gone(b, sid, hops))
  {
    hide Sound, Flowing, BuildingOver;
    var a := Run(net, steps);
    var b, hops := Run(a, more), Path(a, sid);
    assert AllFlowing(net);
    RunAllFlowing(net, steps);
    hide Collapsible, Damaged, NoErrorPending, Gone, Run, CanRun, WellFormed;
    assert Sound(a, sid);
    EstablishedCollapsible(a, sid);
    RunErodes(a, more, sid, hops);
    RemainingBound(a, sid, hops, |hops| + 1);
    if Damaged(b, sid, hops) && NoErrorPending(b, hops) { DamageSpreads(b, sid, hops); }
  }
}
