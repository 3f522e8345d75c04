/** An established circuit of any length, and the conservation of what its two ends send: nothing is
    lost, duplicated, altered or turned back on the way. */
module Chain {
  import opened Wrappers
  import opened Protocol
  import opened RelayLogic
  import opened Network
  import opened Isolation
  import opened Establishment
  import opened EstablishmentRelay

  /** A stream as a piece of a path walked from left to right; `forward` if it was opened from the left. */
  datatype Hop = Hop(link: LinkId, forward: bool)

  function LeftEnd(h: Hop): End { End(h.link, h.forward) }

  function RightEnd(h: Hop): End { End(h.link, !h.forward) }

  /** The path walked the other way. */
  function Flip(hops: seq<Hop>): (r: seq<Hop>)
    ensures |r| == |hops|
    ensures forall i :: 0 <= i < |hops| ==> r[i] == Hop(hops[|hops| - 1 - i].link, !hops[|hops| - 1 - i].forward)
  {
    seq(|hops|, i requires 0 <= i < |hops| => Hop(hops[|hops| - 1 - i].link, !hops[|hops| - 1 - i].forward))
  }

  /** The streams are different streams of `sid`, with a running reader at both ends. */
  ghost predicate Strung(net: Net, sid: Sid, hops: seq<Hop>) {
    && |hops| > 0
    && (forall i :: 0 <= i < |hops| ==>
          && hops[i].link < |net.links|
          && net.links[hops[i].link].sid == sid
          && net.links[hops[i].link].o.handler == Running(Some(sid))
          && net.links[hops[i].link].a.handler == Running(Some(sid)))
    && (forall i, j :: 0 <= i < j < |hops| ==> hops[i].link != hops[j].link)
  }

  /** The node between two consecutive streams relays from each to the other. */
  ghost predicate Relays(net: Net, sid: Sid, h: Hop, g: Hop)
    requires h.link < |net.links| && g.link < |net.links|
  {
    var n := OwnerOf(net, RightEnd(h));
    var s := SlotOf(net, n, sid);
    && n == OwnerOf(net, LeftEnd(g))
    && s.session.Some? && !IsClientRole(s.session.value.role) && s.circuit.None?
    && ((s.session.value.early == Some(RightEnd(h)) && s.session.value.later == Some(LeftEnd(g)))
        || (s.session.value.early == Some(LeftEnd(g)) && s.session.value.later == Some(RightEnd(h))))
  }

  /** A client holds one stream, and its circuit entry writes to it. */
  ghost predicate Terminates(net: Net, sid: Sid, e: End)
    requires Known(net, e)
  {
    var s := SlotOf(net, OwnerOf(net, e), sid);
    && s.session.Some? && IsClientRole(s.session.value.role)
    && s.session.value.early == Some(e) && s.session.value.later == None
    && s.circuit.Some? && s.circuit.value.out == e
  }

  function NodeAt(net: Net, hops: seq<Hop>, i: nat): NodeId
    requires |hops| > 0 && i <= |hops| && forall j :: 0 <= j < |hops| ==> hops[j].link < |net.links|
  {
    if i == 0 then OwnerOf(net, LeftEnd(hops[0])) else OwnerOf(net, RightEnd(hops[i - 1]))
  }

  /** The streams form a simple path between two clients, through nodes that relay; any other stream
      of the session id touches neither client. */
  ghost predicate IsChain(net: Net, sid: Sid, hops: seq<Hop>) {
    && Strung(net, sid, hops)
    && (forall i :: 0 <= i < |hops| - 1 ==> Relays(net, sid, hops[i], hops[i + 1]))
    && Terminates(net, sid, LeftEnd(hops[0])) && Terminates(net, sid, RightEnd(hops[|hops| - 1]))
    && (forall i, j :: 0 <= i < j <= |hops| ==> NodeAt(net, hops, i) != NodeAt(net, hops, j))
    && Sidelined(net, sid, hops)
  }

  predicate Beside(hops: seq<Hop>, l: LinkId) { forall i :: 0 <= i < |hops| ==> hops[i].link != l }

  ghost predicate Sidelined(net: Net, sid: Sid, hops: seq<Hop>)
    requires Strung(net, sid, hops)
  {
    forall l :: 0 <= l < |net.links| && net.links[l].sid == sid && Beside(hops, l) ==>
      && net.links[l].opener != NodeAt(net, hops, 0) && net.links[l].acceptor != NodeAt(net, hops, 0)
      && net.links[l].opener != NodeAt(net, hops, |hops|) && net.links[l].acceptor != NodeAt(net, hops, |hops|)
  }

  lemma FlippedStrung(net: Net, sid: Sid, hops: seq<Hop>)
    requires Strung(net, sid, hops)
    ensures Strung(net, sid, Flip(hops))
  {}

  lemma FlippedNode(net: Net, sid: Sid, hops: seq<Hop>, i: nat)
    requires Strung(net, sid, hops) && i <= |hops|
    requires forall j :: 0 <= j < |hops| - 1 ==> Relays(net, sid, hops[j], hops[j + 1])
    ensures Strung(net, sid, Flip(hops)) && NodeAt(net, Flip(hops), i) == NodeAt(net, hops, |hops| - i)
  {
    FlippedStrung(net, sid, hops);
    var n := |hops|;
    hide Strung;
    if 0 < i < n { assert Relays(net, sid, hops[n - 1 - i], hops[n - 1 - i + 1]); }
  }

  lemma FlippedRelays(net: Net, sid: Sid, hops: seq<Hop>, i: nat)
    requires Strung(net, sid, hops) && Strung(net, sid, Flip(hops)) && i < |hops| - 1
    requires forall j :: 0 <= j < |hops| - 1 ==> Relays(net, sid, hops[j], hops[j + 1])
    ensures Relays(net, sid, Flip(hops)[i], Flip(hops)[i + 1])
  {
    var j := |hops| - 2 - i;
    assert Relays(net, sid, hops[j], hops[j + 1]);
  }

  lemma FlippedSidelined(net: Net, sid: Sid, hops: seq<Hop>)
    requires Strung(net, sid, hops) && Sidelined(net, sid, hops) && Strung(net, sid, Flip(hops))
    requires NodeAt(net, Flip(hops), 0) == NodeAt(net, hops, |hops|)
             && NodeAt(net, Flip(hops), |hops|) == NodeAt(net, hops, 0)
    ensures Sidelined(net, sid, Flip(hops))
  {
    var r := Flip(hops);
    forall l | Beside(r, l) ensures Beside(hops, l) {
      forall i | 0 <= i < |hops| ensures hops[i].link != l { assert r[|hops| - 1 - i].link == hops[i].link; }
    }
  }

  /** A circuit is one in either direction. */
  lemma FlippedChain(net: Net, sid: Sid, hops: seq<Hop>)
    requires IsChain(net, sid, hops)
    ensures IsChain(net, sid, Flip(hops))
  {
    var r, n := Flip(hops), |hops|;
    FlippedStrung(net, sid, hops);
    forall i | 0 <= i <= n ensures NodeAt(net, r, i) == NodeAt(net, hops, n - i) { FlippedNode(net, sid, hops, i); }
    forall i | 0 <= i < n - 1 ensures Relays(net, sid, r[i], r[i + 1]) { FlippedRelays(net, sid, hops, i); }
    assert Terminates(net, sid, LeftEnd(hops[0])) && Terminates(net, sid, RightEnd(hops[n - 1]));
    assert LeftEnd(r[0]) == RightEnd(hops[n - 1]) && RightEnd(r[n - 1]) == LeftEnd(hops[0]);
    assert forall i, j :: 0 <= i < j <= n ==> NodeAt(net, hops, i) != NodeAt(net, hops, j);
    hide Relays, Strung, Terminates;
    FlippedSidelined(net, sid, hops);
  }

  // ---- what is in flight -----------------------------------------------------------------------

  /** The copies of a message that lie unread at the right ends of the path's streams. */
  function InFlight(links: seq<Link>, hops: seq<Hop>, m: Message): nat
    requires forall i :: 0 <= i < |hops| ==> hops[i].link < |links|
  {
    if hops == [] then 0
    else EndOf(links[hops[0].link], !hops[0].forward).inbox[m] + InFlight(links, hops[1..], m)
  }

  /** Streams that agree on the unread copies of `m` have the same number in flight. */
  lemma {:induction false} InFlightSame(a: seq<Link>, b: seq<Link>, hops: seq<Hop>, m: Message)
    requires |a| <= |b| && forall i :: 0 <= i < |hops| ==> hops[i].link < |a|
    requires forall i :: 0 <= i < |hops| ==>
               EndOf(b[hops[i].link], !hops[i].forward).inbox[m] == EndOf(a[hops[i].link], !hops[i].forward).inbox[m]
    ensures InFlight(b, hops, m) == InFlight(a, hops, m)
  {
    if hops != [] { InFlightSame(a, b, hops[1..], m); }
  }

  /** A change at one hop of the path changes the number in flight by as much. */
  lemma {:induction false} InFlightAt(a: seq<Link>, b: seq<Link>, hops: seq<Hop>, i: nat, m: Message)
    requires |a| <= |b| && i < |hops| && forall j :: 0 <= j < |hops| ==> hops[j].link < |a|
    requires forall j :: 0 <= j < |hops| && j != i ==>
               EndOf(b[hops[j].link], !hops[j].forward).inbox[m] == EndOf(a[hops[j].link], !hops[j].forward).inbox[m]
    ensures InFlight(b, hops, m) + EndOf(a[hops[i].link], !hops[i].forward).inbox[m]
         == InFlight(a, hops, m) + EndOf(b[hops[i].link], !hops[i].forward).inbox[m]
  {
    if i == 0 {
      InFlightSame(a, b, hops[1..], m);
    } else {
      InFlightAt(a, b, hops[1..], i - 1, m);
    }
  }

  function SentBy(net: Net, n: NodeId, sid: Sid): multiset<Payload> {
    if SlotOf(net, n, sid).circuit.Some? then SlotOf(net, n, sid).circuit.value.sent else multiset{}
  }

  function ReceivedBy(net: Net, n: NodeId, sid: Sid): multiset<Payload> {
    if SlotOf(net, n, sid).circuit.Some? then SlotOf(net, n, sid).circuit.value.received else multiset{}
  }

  /** Left to right: what the left client has sent has reached the right client or is in flight, and
      so has every Success that was originated. */
  ghost predicate Flows(net: Net, sid: Sid, hops: seq<Hop>)
    requires Strung(net, sid, hops)
  {
    var left, right := NodeAt(net, hops, 0), NodeAt(net, hops, |hops|);
    && (forall d :: SentBy(net, left, sid)[d] ==
            ReceivedBy(net, right, sid)[d] + InFlight(net.links, hops, Data(sid, d)))
    && net.started[(right, sid)] + InFlight(net.links, hops, Success(sid)) == net.emitted[sid]
  }

  // ---- steps that keep the circuit ---------------------------------------------------------------

  lemma ShapeKeepsChain(a: Net, b: Net, sid: Sid, hops: seq<Hop>)
    requires IsChain(a, sid, hops) && ShapeKept(a, b, sid)
    ensures IsChain(b, sid, hops)
    ensures forall i :: 0 <= i <= |hops| ==> NodeAt(b, hops, i) == NodeAt(a, hops, i)
  {
    hide Beside, SameStreams, IsClientRole;
    assert forall l :: 0 <= l < |a.links| ==> SameStage(a.links[l], b.links[l]);
    forall i | 0 <= i < |hops| - 1 ensures Relays(b, sid, hops[i], hops[i + 1]) {
      assert Relays(a, sid, hops[i], hops[i + 1]);
      assert SameShape(SlotOf(a, OwnerOf(a, RightEnd(hops[i])), sid), SlotOf(b, OwnerOf(a, RightEnd(hops[i])), sid));
    }
    var n := |hops|;
    forall i | 0 <= i <= n ensures NodeAt(b, hops, i) == NodeAt(a, hops, i) {}
    assert forall i, j :: 0 <= i < j <= n ==> NodeAt(a, hops, i) != NodeAt(a, hops, j);
    assert SameShape(SlotOf(a, OwnerOf(a, LeftEnd(hops[0])), sid), SlotOf(b, OwnerOf(a, LeftEnd(hops[0])), sid));
    assert SameShape(SlotOf(a, OwnerOf(a, RightEnd(hops[n - 1])), sid),
                        SlotOf(b, OwnerOf(a, RightEnd(hops[n - 1])), sid));
  }

  // ---- where a message at an end of the path goes ----------------------------------------------------

  predicate IsCargo(m: Message) { m.Success? || m.Data? }

  lemma PostOffPath(links: seq<Link>, hops: seq<Hop>, w: Option<Write>, m: Message)
    requires forall i :: 0 <= i < |hops| ==> hops[i].link < |links|
    requires w.Some? ==> w.value.msg != m || forall i :: 0 <= i < |hops| ==> w.value.end != LeftEnd(hops[i])
    ensures InFlight(Post(links, w), hops, m) == InFlight(links, hops, m)
  {
    InFlightSame(links, Post(links, w), hops, m);
  }

  lemma PostOnPath(links: seq<Link>, hops: seq<Hop>, i: nat, m: Message)
    requires i < |hops| && forall j :: 0 <= j < |hops| ==> hops[j].link < |links|
    requires forall j, k :: 0 <= j < k < |hops| ==> hops[j].link != hops[k].link
    ensures InFlight(Post(links, Some(Write(LeftEnd(hops[i]), m))), hops, m) == InFlight(links, hops, m) + 1
  {
    InFlightAt(links, Post(links, Some(Write(LeftEnd(hops[i]), m))), hops, i, m);
  }

  lemma TakeOffPath(a: Net, hops: seq<Hop>, e: End, m: Message, h: Handler, x: Message)
    requires Known(a, e) && m in StateOf(a, e).inbox && forall i :: 0 <= i < |hops| ==> hops[i].link < |a.links|
    requires x != m || forall i :: 0 <= i < |hops| ==> e != RightEnd(hops[i])
    ensures InFlight(Take(a, e, m, h).links, hops, x) == InFlight(a.links, hops, x)
  {
    InFlightSame(a.links, Take(a, e, m, h).links, hops, x);
  }

  lemma TakeOnPath(a: Net, hops: seq<Hop>, i: nat, m: Message, h: Handler)
    requires i < |hops| && forall j :: 0 <= j < |hops| ==> hops[j].link < |a.links|
    requires forall j, k :: 0 <= j < k < |hops| ==> hops[j].link != hops[k].link
    requires m in StateOf(a, RightEnd(hops[i])).inbox
    ensures InFlight(Take(a, RightEnd(hops[i]), m, h).links, hops, m) + 1 == InFlight(a.links, hops, m)
  {
    InFlightAt(a.links, Take(a, RightEnd(hops[i]), m, h).links, hops, i, m);
  }

  /** At the right client a message arrives; at any other node of the path it leaves for the next stream
      in the same direction. */
  lemma RightwardRoute(a: Net, sid: Sid, hops: seq<Hop>, i: nat, m: Message)
    requires IsChain(a, sid, hops) && i < |hops| && IsCargo(m)
    ensures var e := RightEnd(hops[i]);
            var s := SlotOf(a, OwnerOf(a, e), sid);
            var out := OnMessage(s, e, sid, m);
            && OwnerOf(a, e) == NodeAt(a, hops, i + 1)
            && (i + 1 < |hops| ==> out == Quiet(s).(first := Some(Write(LeftEnd(hops[i + 1]), m))))
            && (i + 1 == |hops| ==>
                  && out.first.None? && (out.starts <==> m.Success?)
                  && out.slot == (if m.Success? then s
                                  else s.(circuit := Some(s.circuit.value.(
                                            received := s.circuit.value.received + multiset{m.payload})))))
  {
    if i + 1 < |hops| { assert Relays(a, sid, hops[i], hops[i + 1]); }
  }

  lemma LeftwardRoute(a: Net, sid: Sid, hops: seq<Hop>, i: nat, m: Message)
    requires IsChain(a, sid, hops) && i < |hops| && IsCargo(m)
    ensures var e := LeftEnd(hops[i]);
            var s := SlotOf(a, OwnerOf(a, e), sid);
            var out := OnMessage(s, e, sid, m);
            && OwnerOf(a, e) == NodeAt(a, hops, i)
            && (i > 0 ==> out == Quiet(s).(first := Some(Write(RightEnd(hops[i - 1]), m))))
            && (i == 0 ==>
                  out.first.None? && out.slot.circuit.Some? && out.slot.circuit.value.sent == s.circuit.value.sent)
  {
    if i > 0 { assert Relays(a, sid, hops[i - 1], hops[i]); }
  }

  /** An end of a stream of the path belongs to a node of the path, whose session holds only ends of the
      path's streams. */
  lemma PathEndOwner(a: Net, sid: Sid, hops: seq<Hop>, n: NodeId, w: End, i: nat)
    requires IsChain(a, sid, hops) && i < |hops| && w.link == hops[i].link && OwnerOf(a, w) == n
    ensures var s := SlotOf(a, n, sid);
            && s.session.Some?
            && (s.session.value.early.Some? ==> !Beside(hops, s.session.value.early.value.link))
            && (s.session.value.later.Some? ==> !Beside(hops, s.session.value.later.value.link))
  {
    if w == LeftEnd(hops[i]) && i > 0 { assert Relays(a, sid, hops[i - 1], hops[i]); }
    if w == RightEnd(hops[i]) && i + 1 < |hops| { assert Relays(a, sid, hops[i], hops[i + 1]); }
  }

  /** A node passes a message on only if its session holds the stream it came on, and to a stream of its own. */
  lemma CargoForwards(links: seq<Link>, n: NodeId, s: Slot, e: End, sid: Sid, m: Message)
    requires SlotOk(links, n, sid, s) && IsCargo(m)
    ensures var out := OnMessage(s, e, sid, m);
            out.first.Some? ==> s.session.Some? && s.session.value.Holds(e) && EndOk(links, n, sid, out.first.value.end)
  {
    hide EndOk;
  }

  /** A message on a stream beside the path stays beside it. */
  lemma SideRoute(a: Net, sid: Sid, hops: seq<Hop>, e: End, m: Message)
    requires WellFormed(a) && IsChain(a, sid, hops) && IsCargo(m)
    requires Known(a, e) && a.links[e.link].sid == sid && Beside(hops, e.link)
    ensures var n := OwnerOf(a, e);
            var out := OnMessage(SlotOf(a, n, sid), e, sid, m);
            && n != NodeAt(a, hops, 0) && n != NodeAt(a, hops, |hops|)
            && (out.first.Some? ==> Beside(hops, out.first.value.end.link))
  {
    var n := OwnerOf(a, e);
    var s := SlotOf(a, n, sid);
    var out := OnMessage(s, e, sid, m);
    assert SlotOk(a.links, n, sid, s);
    CargoForwards(a.links, n, s, e, sid, m);
    hide OnMessage;
    if out.first.Some? {
      var w := out.first.value.end;
      hide WellFormed, IsChain;
      forall i | 0 <= i < |hops| ensures w.link != hops[i].link {
        if w.link == hops[i].link { PathEndOwner(a, sid, hops, n, w, i); }
      }
    }
  }

  /** The message is read by the right client. */
  predicate Arrives(hops: seq<Hop>, e: End)
    requires |hops| > 0
  {
    e == RightEnd(hops[|hops| - 1])
  }

  lemma CargoCommit(a: Net, n: NodeId, sid: Sid, out: Outcome)
    requires out.second.None? && out.shut1.None? && out.shut2.None? && !out.emits
    ensures Commit(a, n, sid, out) ==
            a.(slots := a.slots[(n, sid) := out.slot], links := Post(a.links, out.first),
               started := if out.starts then a.started + multiset{(n, sid)} else a.started)
  {}

  lemma InFlightRightward(a: Net, sid: Sid, hops: seq<Hop>, i: nat, m: Message, h: Handler, x: Message)
    requires Strung(a, sid, hops) && i < |hops| && m in StateOf(a, RightEnd(hops[i])).inbox
    ensures var n1 := Take(a, RightEnd(hops[i]), m, h);
            && (i + 1 < |hops| ==>
                  InFlight(Post(n1.links, Some(Write(LeftEnd(hops[i + 1]), m))), hops, x) == InFlight(a.links, hops, x))
            && InFlight(n1.links, hops, x) + One(x == m) == InFlight(a.links, hops, x)
  {
    var n1 := Take(a, RightEnd(hops[i]), m, h);
    if x == m {
      TakeOnPath(a, hops, i, m, h);
      if i + 1 < |hops| { PostOnPath(n1.links, hops, i + 1, m); }
    } else {
      TakeOffPath(a, hops, RightEnd(hops[i]), m, h, x);
      if i + 1 < |hops| { PostOffPath(n1.links, hops, Some(Write(LeftEnd(hops[i + 1]), m)), x); }
    }
  }

  /** Reading and passing on a message that is not moving right leaves the count alone. */
  lemma InFlightElsewhere(a: Net, sid: Sid, hops: seq<Hop>, e: End, m: Message, h: Handler, w: Option<Write>,
          x: Message)
    requires Strung(a, sid, hops) && Known(a, e) && m in StateOf(a, e).inbox
    requires forall i :: 0 <= i < |hops| ==> e != RightEnd(hops[i])
    requires w.Some? ==> forall i :: 0 <= i < |hops| ==> w.value.end != LeftEnd(hops[i])
    ensures InFlight(Post(Take(a, e, m, h).links, w), hops, x) == InFlight(a.links, hops, x)
  {
    TakeOffPath(a, hops, e, m, h, x);
    PostOffPath(Take(a, e, m, h).links, hops, w, x);
  }

  ghost predicate CargoMoves(a: Net, b: Net, sid: Sid, hops: seq<Hop>, e: End, m: Message)
    requires Strung(a, sid, hops) && Strung(b, sid, hops)
  {
    var left, right := NodeAt(a, hops, 0), NodeAt(a, hops, |hops|);
    && NodeAt(b, hops, 0) == left && NodeAt(b, hops, |hops|) == right
    && (forall x :: InFlight(b.links, hops, x) + One(x == m && Arrives(hops, e)) == InFlight(a.links, hops, x))
    && SentBy(b, left, sid) == SentBy(a, left, sid)
    && ReceivedBy(b, right, sid) ==
       ReceivedBy(a, right, sid) + (if m.Data? && Arrives(hops, e) then multiset{m.payload} else multiset{})
    && b.started[(right, sid)] == a.started[(right, sid)] + One(m.Success? && Arrives(hops, e))
    && b.emitted == a.emitted
  }

  /** The part of `CargoMoves` about slots and history. */
  lemma SlotMoves(a: Net, b: Net, n1: Net, sid: Sid, n: NodeId, out: Outcome, left: NodeId, right: NodeId, m: Message,
          arrives: bool)
    requires IsCargo(m) && left != right && n1.slots == a.slots && n1.started == a.started && n1.emitted == a.emitted
    requires b == n1.(slots := n1.slots[(n, sid) := out.slot], links := b.links,
                      started := if out.starts then n1.started + multiset{(n, sid)} else n1.started)
    requires n == left ==>
               out.slot.circuit.Some? && SlotOf(a, n, sid).circuit.Some?
                   && out.slot.circuit.value.sent == SlotOf(a, n, sid).circuit.value.sent
    requires n == right ==> arrives && SlotOf(a, n, sid).circuit.Some? && (out.starts <==> m.Success?)
    requires n == right ==>
               var c := SlotOf(a, n, sid).circuit.value;
               out.slot.circuit == Some(if m.Success? then c else c.(received := c.received + multiset{m.payload}))
    requires n != right ==> !arrives
    ensures SentBy(b, left, sid) == SentBy(a, left, sid)
    ensures ReceivedBy(b, right, sid) ==
            ReceivedBy(a, right, sid) + (if m.Data? && arrives then multiset{m.payload} else multiset{})
    ensures b.started[(right, sid)] == a.started[(right, sid)] + One(m.Success? && arrives)
    ensures b.emitted == a.emitted
  {}

  /** The part of `CargoMoves` about what is in flight, for a message moving right. */
  lemma RightwardCount(a: Net, b: Net, sid: Sid, hops: seq<Hop>, i: nat, m: Message, h: Handler, first: Option<Write>,
          x: Message)
    requires Strung(a, sid, hops) && i < |hops| && m in StateOf(a, RightEnd(hops[i])).inbox
    requires first == if i + 1 < |hops| then Some(Write(LeftEnd(hops[i + 1]), m)) else None
    requires b.links == Post(Take(a, RightEnd(hops[i]), m, h).links, first)
    ensures |b.links| == |a.links|
    ensures InFlight(b.links, hops, x) + One(x == m && i + 1 == |hops|) == InFlight(a.links, hops, x)
  {
    InFlightRightward(a, sid, hops, i, m, h, x);
  }

  lemma {:induction false} RightwardCounts(a: Net, b: Net, sid: Sid, hops: seq<Hop>, i: nat, m: Message, h: Handler,
          first: Option<Write>, arrives: bool)
    requires Strung(a, sid, hops) && i < |hops| && m in StateOf(a, RightEnd(hops[i])).inbox
    requires first == (if i + 1 < |hops| then Some(Write(LeftEnd(hops[i + 1]), m)) else None)
             && (arrives <==> i + 1 == |hops|)
    requires b.links == Post(Take(a, RightEnd(hops[i]), m, h).links, first)
    ensures |b.links| == |a.links|
    ensures forall x :: InFlight(b.links, hops, x) + One(x == m && arrives) == InFlight(a.links, hops, x)
  {
    forall x
      ensures |b.links| == |a.links|
              && InFlight(b.links, hops, x) + One(x == m && arrives) == InFlight(a.links, hops, x)
    {
      RightwardCount(a, b, sid, hops, i, m, h, first, x);
    }
    hide Post, Take, InFlight, Strung;
  }

  lemma ArrivesAt(sid: Sid, a: Net, hops: seq<Hop>, i: nat)
    requires Strung(a, sid, hops) && i < |hops|
    ensures Arrives(hops, RightEnd(hops[i])) <==> i + 1 == |hops|
  {}

  lemma IntoCargoMoves(a: Net, b: Net, sid: Sid, hops: seq<Hop>, e: End, m: Message, arrives: bool)
    requires Strung(a, sid, hops) && Strung(b, sid, hops) && arrives == Arrives(hops, e)
    requires NodeAt(b, hops, 0) == NodeAt(a, hops, 0) && NodeAt(b, hops, |hops|) == NodeAt(a, hops, |hops|)
    requires forall x :: InFlight(b.links, hops, x) + One(x == m && arrives) == InFlight(a.links, hops, x)
    requires SentBy(b, NodeAt(a, hops, 0), sid) == SentBy(a, NodeAt(a, hops, 0), sid)
    requires ReceivedBy(b, NodeAt(a, hops, |hops|), sid) ==
             ReceivedBy(a, NodeAt(a, hops, |hops|), sid)
                 + (if m.Data? && arrives then multiset{m.payload} else multiset{})
    requires b.started[(NodeAt(a, hops, |hops|), sid)] ==
             a.started[(NodeAt(a, hops, |hops|), sid)] + One(m.Success? && arrives)
    requires b.emitted == a.emitted
    ensures CargoMoves(a, b, sid, hops, e, m)
  {
    hide InFlight, SentBy, ReceivedBy, NodeAt, Arrives, Strung, One;
  }

  lemma RightwardMoves(a: Net, b: Net, sid: Sid, hops: seq<Hop>, i: nat, m: Message, h: Handler)
    requires IsChain(a, sid, hops) && Strung(b, sid, hops) && i < |hops| && IsCargo(m)
    requires m in StateOf(a, RightEnd(hops[i])).inbox
    requires forall j :: 0 <= j <= |hops| ==> NodeAt(b, hops, j) == NodeAt(a, hops, j)
    requires var e := RightEnd(hops[i]);
             b == Commit(Take(a, e, m, h), OwnerOf(a, e), sid, OnMessage(SlotOf(a, OwnerOf(a, e), sid), e, sid, m))
    ensures CargoMoves(a, b, sid, hops, RightEnd(hops[i]), m)
  {
    var e := RightEnd(hops[i]);
    var n, n1, s := OwnerOf(a, e), Take(a, e, m, h), SlotOf(a, OwnerOf(a, e), sid);
    var out := OnMessage(s, e, sid, m);
    var left, right := NodeAt(a, hops, 0), NodeAt(a, hops, |hops|);
    RightwardRoute(a, sid, hops, i, m);
    assert left != right && n != left;
    assert i + 1 < |hops| ==> n != right;
    assert n == right ==> s.circuit.Some? by { assert Terminates(a, sid, RightEnd(hops[|hops| - 1])); }
    CargoShape(s, e, sid, m);
    ArrivesAt(sid, a, hops, i);
    hide IsChain, Strung, OnMessage, Arrives, IsCargo, InFlight, Take, Commit, Post;
    assert n1.slots == a.slots && n1.started == a.started && n1.emitted == a.emitted by { TakeOnlyLinks(a, e, m, h); }
    CargoCommit(n1, n, sid, out);
    RightwardCounts(a, b, sid, hops, i, m, h, out.first, Arrives(hops, e));
    SlotMoves(a, b, n1, sid, n, out, left, right, m, Arrives(hops, e));
    assert NodeAt(b, hops, 0) == left && NodeAt(b, hops, |hops|) == right;
    hide *;
    IntoCargoMoves(a, b, sid, hops, e, m, Arrives(hops, e));
  }

  lemma TakeOnlyLinks(a: Net, e: End, m: Message, h: Handler)
    requires Known(a, e)
    ensures var n1 := Take(a, e, m, h); n1 == a.(links := n1.links) && |n1.links| == |a.links|
  {}

  /** Likewise for a message that is not moving right. */
  lemma {:induction false} ElsewhereCount(a: Net, b: Net, sid: Sid, hops: seq<Hop>, e: End, m: Message, h: Handler,
          first: Option<Write>)
    requires Strung(a, sid, hops) && Known(a, e) && m in StateOf(a, e).inbox
    requires forall i :: 0 <= i < |hops| ==> e != RightEnd(hops[i])
    requires first.Some? ==> forall i :: 0 <= i < |hops| ==> first.value.end != LeftEnd(hops[i])
    requires b.links == Post(Take(a, e, m, h).links, first)
    ensures |b.links| == |a.links|
    ensures forall x :: InFlight(b.links, hops, x) + One(x == m && false) == InFlight(a.links, hops, x)
  {
    forall x ensures InFlight(b.links, hops, x) == InFlight(a.links, hops, x) {
      InFlightElsewhere(a, sid, hops, e, m, h, first, x);
    }
    hide Post, Take, InFlight, Strung;
  }

  lemma ElsewhereMoves(a: Net, b: Net, sid: Sid, hops: seq<Hop>, e: End, m: Message, h: Handler)
    requires WellFormed(a) && IsChain(a, sid, hops) && Strung(b, sid, hops) && IsCargo(m)
    requires Known(a, e) && a.links[e.link].sid == sid && m in StateOf(a, e).inbox
    requires forall i :: 0 <= i < |hops| ==> e != RightEnd(hops[i])
    requires forall j :: 0 <= j <= |hops| ==> NodeAt(b, hops, j) == NodeAt(a, hops, j)
    requires b == Commit(Take(a, e, m, h), OwnerOf(a, e), sid, OnMessage(SlotOf(a, OwnerOf(a, e), sid), e, sid, m))
    ensures CargoMoves(a, b, sid, hops, e, m)
  {
    var n, n1, s := OwnerOf(a, e), Take(a, e, m, h), SlotOf(a, OwnerOf(a, e), sid);
    var out := OnMessage(s, e, sid, m);
    var left, right := NodeAt(a, hops, 0), NodeAt(a, hops, |hops|);
    assert left != right && Strung(a, sid, hops);
    assert !Arrives(hops, e);
    assert NodeAt(b, hops, 0) == left && NodeAt(b, hops, |hops|) == right;
    assert One(false) == 0 && |hops| > 0 && forall i :: 0 <= i < |hops| ==> hops[i].link < |a.links|;
    hide *;
    ElsewhereRoute(a, sid, hops, e, m);
    CargoShape(s, e, sid, m);
    TakeOnlyLinks(a, e, m, h);
    CargoCommit(n1, n, sid, out);
    ElsewhereCount(a, b, sid, hops, e, m, h, out.first);
    SlotMoves(a, b, n1, sid, n, out, left, right, m, false);
    IntoCargoMoves(a, b, sid, hops, e, m, false);
  }

  lemma CargoShape(s: Slot, e: End, sid: Sid, m: Message)
    requires IsCargo(m)
    ensures var out := OnMessage(s, e, sid, m);
            out.second.None? && out.shut1.None? && out.shut2.None? && !out.emits
  {}

  lemma ElsewhereRoute(a: Net, sid: Sid, hops: seq<Hop>, e: End, m: Message)
    requires WellFormed(a) && IsChain(a, sid, hops) && IsCargo(m)
    requires Known(a, e) && a.links[e.link].sid == sid
    requires forall i :: 0 <= i < |hops| ==> e != RightEnd(hops[i])
    ensures var n := OwnerOf(a, e);
            var s := SlotOf(a, n, sid);
            var out := OnMessage(s, e, sid, m);
            && n != NodeAt(a, hops, |hops|)
            && (out.first.Some? ==> forall i :: 0 <= i < |hops| ==> out.first.value.end != LeftEnd(hops[i]))
            && (n == NodeAt(a, hops, 0) ==>
                   out.slot.circuit.Some? && s.circuit.Some? && out.slot.circuit.value.sent == s.circuit.value.sent)
  {
    hide WellFormed;
    if Beside(hops, e.link) {
      SideRoute(a, sid, hops, e, m);
    } else {
      var i :| 0 <= i < |hops| && hops[i].link == e.link;
      assert e == LeftEnd(hops[i]);
      LeftwardRoute(a, sid, hops, i, m);
      assert NodeAt(a, hops, i) != NodeAt(a, hops, |hops|);
      assert i > 0 ==> NodeAt(a, hops, 0) != NodeAt(a, hops, i);
    }
  }

  /** A cargo message that a reader takes from its inbox: what was in flight and is read arrives at the
      right client or is in flight again. */
  lemma CargoFlows(a: Net, e: End, m: Message, hops: seq<Hop>)
    requires WellFormed(a) && EnabledRelay(a, Deliver(e, m)) && IsCargo(m)
    requires IsChain(a, a.links[e.link].sid, hops) && Flows(a, a.links[e.link].sid, hops)
    ensures IsChain(DoDeliver(a, e, m), a.links[e.link].sid, hops)
            && Flows(DoDeliver(a, e, m), a.links[e.link].sid, hops)
  {
    var sid, n, b, h := a.links[e.link].sid, OwnerOf(a, e), DoDeliver(a, e, m), StateOf(a, e).handler;
    assert LinkOk(a.links[e.link]) && sid in a.ctls;
    TrafficStep(a, e, m);
    TrafficKeepsShape(a, e, m);
    ShapeKeepsChain(a, b, sid, hops);
    hide DoDeliver, ShapeKept;
    if i :| 0 <= i < |hops| && e == RightEnd(hops[i]) {
      RightwardMoves(a, b, sid, hops, i, m, h);
    } else {
      ElsewhereMoves(a, b, sid, hops, e, m, h);
    }
    MovesKeepFlows(a, b, sid, hops, e, m);
  }

  lemma MovesKeepFlows(a: Net, b: Net, sid: Sid, hops: seq<Hop>, e: End, m: Message)
    requires Strung(a, sid, hops) && Strung(b, sid, hops) && Flows(a, sid, hops) && CargoMoves(a, b, sid, hops, e, m)
    requires Carries(m, sid) && IsCargo(m)
    ensures Flows(b, sid, hops)
  {
    var left, right := NodeAt(a, hops, 0), NodeAt(a, hops, |hops|);
    hide InFlight, SentBy, ReceivedBy;
    forall d ensures SentBy(b, left, sid)[d] == ReceivedBy(b, right, sid)[d] + InFlight(b.links, hops, Data(sid, d)) {
      assert InFlight(b.links, hops, Data(sid, d)) + One(Data(sid, d) == m && Arrives(hops, e)) ==
             InFlight(a.links, hops, Data(sid, d));
    }
  }
}
