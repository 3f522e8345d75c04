/** The handshake on the circuits of the network: with in-order hand-off, the pipes of `Handshake` are the
    inboxes along a circuit, in both directions, and each of its steps is a delivery or a send of the
    network. */
module HandshakeOnCircuit {
  import opened Wrappers
  import opened Protocol
  import opened RelayLogic
  import opened Network
  import opened Isolation
  import opened Establishment
  import opened EstablishmentRelay
  import opened Chain
  import opened CircuitPath
  import opened Conservation
  import opened SuccessOnce
  import opened EndToEnd
  import H = Handshake

  // ---- what matches what -------------------------------------------------------------------------

  /** The bytes of a handshake or application message. */
  function Code(m: H.Message): Payload
    requires !m.Success?
  {
    if m.Shake? then 2 * m.turn else 2 * m.data + 1
  }

  function Token(sid: Sid, m: H.Message): Message { if m.Success? then Success(sid) else Data(sid, Code(m)) }

  lemma TokensDiffer(sid: Sid, m: H.Message, x: H.Message)
    ensures Token(sid, m) == Token(sid, x) <==> m == x
    ensures IsCargo(Token(sid, m)) && Carries(Token(sid, m), sid)
  {}

  /** What lies unread at the right end of a stream of the path. */
  function InboxAt(links: seq<Link>, hops: seq<Hop>, i: nat): multiset<Message>
    requires i < |hops| && hops[i].link < |links|
  {
    EndOf(links[hops[i].link], !hops[i].forward).inbox
  }

  predicate OnStreams(links: seq<Link>, hops: seq<Hop>) { forall i :: 0 <= i < |hops| ==> hops[i].link < |links| }

  ghost predicate QueueAt(links: seq<Link>, sid: Sid, hops: seq<Hop>, i: nat, q: seq<H.Message>)
    requires i < |hops| && hops[i].link < |links|
  {
    forall m :: InboxAt(links, hops, i)[Token(sid, m)] == multiset(q)[m]
  }

  /** Each inbox holds, among other things, exactly the messages of the queue. */
  ghost predicate Queued(links: seq<Link>, sid: Sid, hops: seq<Hop>, queues: seq<seq<H.Message>>) {
    && OnStreams(links, hops) && |queues| == |hops|
    && forall i :: 0 <= i < |hops| ==> QueueAt(links, sid, hops, i, queues[i])
  }

  ghost predicate HasSent(net: Net, n: NodeId, sid: Sid, sent: seq<H.Message>) {
    forall m: H.Message :: !m.Success? ==> SentBy(net, n, sid)[Code(m)] == multiset(sent)[m]
  }

  ghost predicate HasReceived(net: Net, n: NodeId, sid: Sid, side: H.Side) {
    && (forall m: H.Message :: !m.Success? ==>
            ReceivedBy(net, n, sid)[Code(m)] == multiset(side.consumed + side.channel)[m])
    && net.started[(n, sid)] == One(!side.phase.Idle?)
  }

  /** One direction of the circuit is the pipe, with a client at each end. */
  ghost predicate OneWay(net: Net, sid: Sid, hops: seq<Hop>, p: H.Pipe, from: H.Side, to: H.Side) {
    && Strung(net, sid, hops) && p.pending.None? && Queued(net.links, sid, hops, p.queues)
    && HasSent(net, NodeAt(net, hops, 0), sid, from.sent)
    && HasReceived(net, NodeAt(net, hops, |hops|), sid, to)
  }

  ghost predicate Matches(net: Net, sid: Sid, hops: seq<Hop>, s: H.State) {
    && WellFormed(net) && sid in net.ctls && IsChain(net, sid, hops)
    && OneWay(net, sid, hops, s.out, s.caller, s.answer)
    && OneWay(net, sid, Flip(hops), s.back, s.answer, s.caller)
  }

  // ---- inboxes -----------------------------------------------------------------------------------

  lemma InboxPosted(links: seq<Link>, hops: seq<Hop>, w: Write, j: nat)
    requires OnStreams(links, hops) && w.end.link < |links| && j < |hops|
    ensures InboxAt(Post(links, Some(w)), hops, j)
         == InboxAt(links, hops, j) + (if w.end == LeftEnd(hops[j]) then multiset{w.msg} else multiset{})
  {}

  lemma InboxTaken(a: Net, sid: Sid, hops: seq<Hop>, e: End, m: Message, h: Handler, j: nat)
    requires Strung(a, sid, hops) && Known(a, e) && j < |hops|
    ensures OnStreams(Take(a, e, m, h).links, hops) && |Take(a, e, m, h).links| == |a.links|
    ensures InboxAt(Take(a, e, m, h).links, hops, j)
         == InboxAt(a.links, hops, j) - (if e == RightEnd(hops[j]) then multiset{m} else multiset{})
  {}

  lemma InboxAfter(a: Net, sid: Sid, hops: seq<Hop>, e: End, m: Message, h: Handler, w: Option<Write>, j: nat)
    requires Strung(a, sid, hops) && Known(a, e) && m in StateOf(a, e).inbox && j < |hops|
    requires w.Some? ==> w.value.end.link < |a.links|
    ensures InboxAt(Post(Take(a, e, m, h).links, w), hops, j)
         == InboxAt(a.links, hops, j) - (if e == RightEnd(hops[j]) then multiset{m} else multiset{})
            + (if w.Some? && w.value.end == LeftEnd(hops[j]) then multiset{w.value.msg} else multiset{})
  {
    hide InboxAt, Take, Post, StateOf;
    InboxTaken(a, sid, hops, e, m, h, j);
    if w.Some? {
      InboxPosted(Take(a, e, m, h).links, hops, w.value, j);
    } else {
      NothingPosted(Take(a, e, m, h).links);
    }
  }

  lemma NothingPosted(links: seq<Link>)
    ensures Post(links, None) == links
  {}

  lemma FrontTaken(q: seq<H.Message>, m: H.Message)
    requires q != []
    ensures multiset(q)[m] == multiset(q[1..])[m] + One(m == q[0])
  {
    assert q == [q[0]] + q[1..];
  }

  lemma BackAdded(q: seq<H.Message>, x: H.Message, m: H.Message)
    ensures multiset(q + [x])[m] == multiset(q)[m] + One(m == x)
  {}

  /** A queue whose first message is read, and one to whose end it is added. */
  lemma QueueTaken(a: seq<Link>, b: seq<Link>, sid: Sid, hops: seq<Hop>, i: nat, q: seq<H.Message>)
    requires OnStreams(a, hops) && OnStreams(b, hops) && i < |hops| && q != [] && QueueAt(a, sid, hops, i, q)
    requires InboxAt(b, hops, i) == InboxAt(a, hops, i) - multiset{Token(sid, q[0])}
    ensures QueueAt(b, sid, hops, i, q[1..])
  {
    forall m ensures InboxAt(b, hops, i)[Token(sid, m)] == multiset(q[1..])[m] {
      FrontTaken(q, m);
      TokensDiffer(sid, m, q[0]);
      hide InboxAt, Token;
    }
  }

  lemma QueueAdded(a: seq<Link>, b: seq<Link>, sid: Sid, hops: seq<Hop>, i: nat, q: seq<H.Message>, x: H.Message)
    requires OnStreams(a, hops) && OnStreams(b, hops) && i < |hops| && QueueAt(a, sid, hops, i, q)
    requires InboxAt(b, hops, i) == InboxAt(a, hops, i) + multiset{Token(sid, x)}
    ensures QueueAt(b, sid, hops, i, q + [x])
  {
    forall m ensures InboxAt(b, hops, i)[Token(sid, m)] == multiset(q + [x])[m] {
      BackAdded(q, x, m);
      TokensDiffer(sid, m, x);
      hide InboxAt, Token;
    }
  }

  lemma QueueHeld(links: seq<Link>, sid: Sid, hops: seq<Hop>, i: nat, q: seq<H.Message>)
    requires OnStreams(links, hops) && i < |hops| && q != [] && QueueAt(links, sid, hops, i, q)
    ensures Token(sid, q[0]) in InboxAt(links, hops, i)
  {
    assert q[0] in multiset(q);
  }

  /** The pipe after the first message of stream `i` has been moved, or has arrived. */
  function Stepped(p: H.Pipe, i: nat): H.Pipe
    requires i < |p.queues| && p.queues[i] != []
  {
    if i + 1 < |p.queues| then H.Moved(p, i) else H.Left(p)
  }

  lemma EndsAt(a: Net, sid: Sid, hops: seq<Hop>, i: nat, j: nat)
    requires Strung(a, sid, hops) && i < |hops| && j < |hops|
    ensures RightEnd(hops[i]) == RightEnd(hops[j]) <==> i == j
    ensures LeftEnd(hops[i]) == LeftEnd(hops[j]) <==> i == j
  {
    if i < j { assert hops[i].link != hops[j].link; }
    if j < i { assert hops[j].link != hops[i].link; }
  }

  lemma QueueSteppedAt(a: seq<Link>, b: seq<Link>, sid: Sid, hops: seq<Hop>, i: nat, p: H.Pipe, j: nat)
    requires OnStreams(a, hops) && OnStreams(b, hops) && |p.queues| == |hops| && i < |hops| && j < |hops|
    requires p.queues[i] != [] && QueueAt(a, sid, hops, j, p.queues[j])
    requires var m := Token(sid, p.queues[i][0]);
             InboxAt(b, hops, j) == InboxAt(a, hops, j) - (if j == i then multiset{m} else multiset{})
                                    + (if j == i + 1 then multiset{m} else multiset{})
    ensures QueueAt(b, sid, hops, j, Stepped(p, i).queues[j])
  {
    if j == i {
      QueueTaken(a, b, sid, hops, j, p.queues[j]);
    } else if j == i + 1 {
      QueueAdded(a, b, sid, hops, j, p.queues[j], p.queues[i][0]);
    }
  }

  /** Reading the first message of a queue and passing it on. */
  lemma QueuesMoved(a: Net, sid: Sid, hops: seq<Hop>, i: nat, p: H.Pipe, h: Handler, m: Message, w: Option<Write>)
    requires Strung(a, sid, hops) && Queued(a.links, sid, hops, p.queues) && i < |p.queues| && p.queues[i] != []
    requires m == Token(sid, p.queues[i][0]) && m in StateOf(a, RightEnd(hops[i])).inbox
    requires w == if i + 1 < |hops| then Some(Write(LeftEnd(hops[i + 1]), m)) else None
    ensures Queued(Post(Take(a, RightEnd(hops[i]), m, h).links, w), sid, hops, Stepped(p, i).queues)
  {
    hide InboxAt, Token, Post, Take, QueueAt;
    var b := Post(Take(a, RightEnd(hops[i]), m, h).links, w);
    InboxTaken(a, sid, hops, RightEnd(hops[i]), m, h, i);
    forall j | 0 <= j < |hops| ensures QueueAt(b, sid, hops, j, Stepped(p, i).queues[j]) {
      InboxAfter(a, sid, hops, RightEnd(hops[i]), m, h, w, j);
      EndsAt(a, sid, hops, i, j);
      if i + 1 < |hops| { EndsAt(a, sid, hops, i + 1, j); }
      QueueSteppedAt(a.links, b, sid, hops, i, p, j);
    }
  }

  /** Reading and passing on what moves the other way. */
  lemma QueuesElsewhere(a: Net, sid: Sid, hops: seq<Hop>, e: End, m: Message, h: Handler, w: Option<Write>,
          queues: seq<seq<H.Message>>)
    requires Strung(a, sid, hops) && Queued(a.links, sid, hops, queues) && Known(a, e) && m in StateOf(a, e).inbox
    requires forall j :: 0 <= j < |hops| ==> e != RightEnd(hops[j])
    requires w.Some? ==> w.value.end.link < |a.links| && forall j :: 0 <= j < |hops| ==> w.value.end != LeftEnd(hops[j])
    ensures Queued(Post(Take(a, e, m, h).links, w), sid, hops, queues)
  {
    var b := Post(Take(a, e, m, h).links, w);
    forall j | 0 <= j < |hops| ensures QueueAt(b, sid, hops, j, queues[j]) {
      InboxAfter(a, sid, hops, e, m, h, w, j);
      assert QueueAt(a.links, sid, hops, j, queues[j]);
      hide InboxAt, Token, Post, Take, Strung;
    }
  }

  lemma QueuesPosted(links: seq<Link>, sid: Sid, hops: seq<Hop>, w: Write, queues: seq<seq<H.Message>>, j: nat,
          m: H.Message)
    requires Queued(links, sid, hops, queues) && w.end.link < |links| && w.msg == Token(sid, m)
    requires forall i, k :: 0 <= i < k < |hops| ==> hops[i].link != hops[k].link
    requires j < |hops| && w.end == LeftEnd(hops[j])
    ensures Queued(Post(links, Some(w)), sid, hops, queues[j := queues[j] + [m]])
  {
    var added := queues[j := queues[j] + [m]];
    forall i | 0 <= i < |hops| ensures QueueAt(Post(links, Some(w)), sid, hops, i, added[i]) {
      InboxPosted(links, hops, w, i);
      assert QueueAt(links, sid, hops, i, queues[i]);
      hide InboxAt, Token, Post;
      if i == j { QueueAdded(links, Post(links, Some(w)), sid, hops, i, queues[i], m); }
    }
  }

  lemma QueuesPostedElsewhere(links: seq<Link>, sid: Sid, hops: seq<Hop>, w: Write, queues: seq<seq<H.Message>>)
    requires Queued(links, sid, hops, queues) && w.end.link < |links|
    requires forall i :: 0 <= i < |hops| ==> w.end != LeftEnd(hops[i])
    ensures Queued(Post(links, Some(w)), sid, hops, queues)
  {
    forall i | 0 <= i < |hops| ensures QueueAt(Post(links, Some(w)), sid, hops, i, queues[i]) {
      InboxPosted(links, hops, w, i);
      assert QueueAt(links, sid, hops, i, queues[i]);
      hide InboxAt, Token, Post;
    }
  }

  // ---- one delivery --------------------------------------------------------------------------------

  lemma ReceivedMatches(a: Net, b: Net, n: NodeId, sid: Sid, side: H.Side, m: H.Message, forth: bool)
    requires HasReceived(a, n, sid, side) && (m.Success? ==> side.phase.Idle?)
    requires ReceivedBy(b, n, sid) == ReceivedBy(a, n, sid) + (if m.Success? then multiset{} else multiset{Code(m)})
    requires b.started[(n, sid)] == a.started[(n, sid)] + One(m.Success?)
    ensures HasReceived(b, n, sid, H.Received(side, m, forth))
  {
    hide ReceivedBy;
    var t := H.Received(side, m, forth);
    forall x: H.Message | !x.Success? ensures ReceivedBy(b, n, sid)[Code(x)] == multiset(t.consumed + t.channel)[x] {
      if !m.Success? {
        assert t.consumed + t.channel == (side.consumed + side.channel) + [m];
        BackAdded(side.consumed + side.channel, m, x);
        TokensDiffer(sid, m, x);
      }
    }
  }

  /** The node passes the message on, unless it is the client that the direction leads to. */
  function NextWrite(hops: seq<Hop>, i: nat, m: Message): Option<Write>
    requires i < |hops|
  {
    if i + 1 < |hops| then Some(Write(LeftEnd(hops[i + 1]), m)) else None
  }

  /** What a delivery of the next message of stream `i` does, in the direction in which it travels. */
  lemma DeliveryForm(a: Net, sid: Sid, hops: seq<Hop>, i: nat, m: Message)
    requires WellFormed(a) && sid in a.ctls && IsChain(a, sid, hops) && i < |hops| && IsCargo(m)
             && m in InboxAt(a.links, hops, i)
    ensures EnabledRelay(a, Deliver(RightEnd(hops[i]), m)) && a.links[hops[i].link].sid == sid
    ensures var e, b := RightEnd(hops[i]), DoDeliver(a, RightEnd(hops[i]), m);
            && b.links == Post(Take(a, e, m, StateOf(a, e).handler).links, NextWrite(hops, i, m))
            && b.ctls == a.ctls && ShapeKept(a, b, sid)
            && b == Commit(Take(a, e, m, StateOf(a, e).handler), OwnerOf(a, e), sid,
                           OnMessage(SlotOf(a, OwnerOf(a, e), sid), e, sid, m))
  {
    var e := RightEnd(hops[i]);
    var n, s := OwnerOf(a, e), SlotOf(a, OwnerOf(a, e), sid);
    assert EnabledRelay(a, Deliver(e, m));
    hide WellFormed, IsChain, DoDeliver, ShapeKept, OnMessage, Take, Commit;
    RightwardRoute(a, sid, hops, i, m);
    TrafficStep(a, e, m);
    TrafficKeepsShape(a, e, m);
    CargoShape(s, e, sid, m);
    CargoCommit(Take(a, e, m, StateOf(a, e).handler), n, sid, OnMessage(s, e, sid, m));
    ArrivalWritesNothing(s, e, sid, m);
  }

  lemma ArrivalWritesNothing(s: Slot, e: End, sid: Sid, m: Message)
    ensures OnMessage(s, e, sid, m).first.None? ==> OnMessage(s, e, sid, m).first == None
  {}

  /** Both networks walk the path through the same nodes. */
  ghost predicate SameWalk(a: Net, b: Net, hops: seq<Hop>) {
    && |hops| > 0 && OnStreams(a.links, hops) && OnStreams(b.links, hops)
    && forall j: nat :: j <= |hops| ==> NodeAt(b, hops, j) == NodeAt(a, hops, j)
  }

  /** What the receiving client makes of the pipe's step. */
  function Reached(p: H.Pipe, i: nat, to: H.Side, forth: bool): H.Side
    requires i < |p.queues| && p.queues[i] != []
  {
    if i + 1 < |p.queues| then to else H.Received(to, p.queues[i][0], forth)
  }

  /** The message is delivered. */
  ghost predicate Delivers(a: Net, b: Net, sid: Sid, e: End, m: Message) {
    && EnabledRelay(a, Deliver(e, m)) && b == DoDeliver(a, e, m) && IsCargo(m) && a.links[e.link].sid == sid
  }

  /** The delivery is the pipe's step in its direction. */
  lemma DeliveryAhead(a: Net, b: Net, sid: Sid, hops: seq<Hop>, i: nat, m: Message, p: H.Pipe, from: H.Side, to: H.Side,
          forth: bool)
    requires WellFormed(a) && sid in a.ctls && IsChain(a, sid, hops) && OneWay(a, sid, hops, p, from, to)
    requires |p.queues| == |hops| && i < |p.queues| && p.queues[i] != [] && m == Token(sid, p.queues[i][0])
    requires i + 1 == |hops| && p.queues[i][0].Success? ==> to.phase.Idle?
    requires Delivers(a, b, sid, RightEnd(hops[i]), m) && IsChain(b, sid, hops) && SameWalk(a, b, hops)
    ensures OneWay(b, sid, hops, Stepped(p, i), from, Reached(p, i, to, forth))
  {
    hide WellFormed, IsChain, DoDeliver, ShapeKept, OnMessage, Commit, InboxAt, QueueAt, HasSent, HasReceived, Post,
         InFlight, SentBy, ReceivedBy;
    var e := RightEnd(hops[i]);
    HeadWaits(a, sid, hops, p, from, to, i);
    DeliveryForm(a, sid, hops, i, m);
    ChainStrung(b, sid, hops);
    RightwardMoves(a, b, sid, hops, i, m, StateOf(a, e).handler);
    QueuesMoved(a, sid, hops, i, p, StateOf(a, e).handler, m, NextWrite(hops, i, m));
    ArrivesAt(sid, a, hops, i);
    SentStays(a, b, NodeAt(a, hops, 0), sid, from.sent);
    if i + 1 < |hops| {
      ReceivedStays(a, b, NodeAt(a, hops, |hops|), sid, to);
    } else {
      ReceivedMatches(a, b, NodeAt(a, hops, |hops|), sid, to, p.queues[i][0], forth);
    }
  }

  lemma ChainStrung(a: Net, sid: Sid, hops: seq<Hop>)
    requires IsChain(a, sid, hops)
    ensures Strung(a, sid, hops) && NodeAt(a, hops, 0) != NodeAt(a, hops, |hops|)
  {}

  lemma SentStays(a: Net, b: Net, n: NodeId, sid: Sid, sent: seq<H.Message>)
    requires HasSent(a, n, sid, sent) && SentBy(b, n, sid) == SentBy(a, n, sid)
    ensures HasSent(b, n, sid, sent)
  {}

  lemma ReceivedStays(a: Net, b: Net, n: NodeId, sid: Sid, side: H.Side)
    requires HasReceived(a, n, sid, side) && ReceivedBy(b, n, sid) == ReceivedBy(a, n, sid) + multiset{}
    requires b.started[(n, sid)] == a.started[(n, sid)]
    ensures HasReceived(b, n, sid, side)
  {}

  /** Messages travel to different ends in the two directions. */
  predicate Opposite(hops: seq<Hop>, other: seq<Hop>) {
    forall i, j :: 0 <= i < |hops| && 0 <= j < |other| ==>
      RightEnd(hops[i]) != RightEnd(other[j]) && LeftEnd(hops[i]) != LeftEnd(other[j])
  }

  /** In the other direction it changes nothing. */
  lemma DeliveryBehind(a: Net, b: Net, sid: Sid, hops: seq<Hop>, i: nat, m: Message, other: seq<Hop>, p: H.Pipe,
          from: H.Side, to: H.Side)
    requires WellFormed(a) && sid in a.ctls && IsChain(a, sid, hops) && IsChain(a, sid, other)
             && OneWay(a, sid, other, p, from, to)
    requires i < |hops| && hops[i].link < |a.links| && m in InboxAt(a.links, hops, i) && Opposite(hops, other)
    requires Delivers(a, b, sid, RightEnd(hops[i]), m) && IsChain(b, sid, other) && SameWalk(a, b, other)
    ensures OneWay(b, sid, other, p, from, to)
  {
    hide WellFormed, IsChain, DoDeliver, ShapeKept, Commit, InboxAt, QueueAt, HasSent, HasReceived, Post, InFlight,
         SentBy, ReceivedBy;
    var e := RightEnd(hops[i]);
    DeliveryForm(a, sid, hops, i, m);
    ChainStrung(a, sid, hops);
    ChainStrung(b, sid, other);
    ElsewhereMoves(a, b, sid, other, e, m, StateOf(a, e).handler);
    ElsewhereRoute(a, sid, other, e, m);
    RightwardRoute(a, sid, hops, i, m);
    assert !Arrives(other, e);
    hide OnMessage;
    QueuesElsewhere(a, sid, other, e, m, StateOf(a, e).handler, NextWrite(hops, i, m), p.queues);
    SentStays(a, b, NodeAt(a, other, 0), sid, from.sent);
    ReceivedStays(a, b, NodeAt(a, other, |other|), sid, to);
  }

  // ---- both directions -----------------------------------------------------------------------------

  /** The circuit walked from the caller to the answering client, or back. */
  function Dir(hops: seq<Hop>, forth: bool): seq<Hop> { if forth then hops else Flip(hops) }

  lemma DirsDiffer(hops: seq<Hop>, forth: bool)
    requires forall k, l :: 0 <= k < l < |hops| ==> hops[k].link != hops[l].link
    ensures Opposite(Dir(hops, forth), Dir(hops, !forth))
  {}

  /** Both directions of a circuit, seen from either side. */
  lemma DirChains(a: Net, sid: Sid, hops: seq<Hop>, forth: bool)
    requires IsChain(a, sid, hops)
    ensures var d, o := Dir(hops, forth), Dir(hops, !forth);
            && |d| == |o| == |hops| > 0 && IsChain(a, sid, d) && IsChain(a, sid, o) && Strung(a, sid, d)
               && Strung(a, sid, o)
            && NodeAt(a, o, 0) == NodeAt(a, d, |hops|) && NodeAt(a, o, |hops|) == NodeAt(a, d, 0)
               && NodeAt(a, d, 0) != NodeAt(a, d, |hops|)
            && Opposite(d, o)
  {
    hide IsChain, NodeAt;
    EndsFlipped(a, sid, hops);
    ChainStrung(a, sid, hops);
    ChainStrung(a, sid, Flip(hops));
    assert forall k, l :: 0 <= k < l < |hops| ==> hops[k].link != hops[l].link;
    DirsDiffer(hops, forth);
  }

  lemma MatchesDir(a: Net, sid: Sid, hops: seq<Hop>, s: H.State, forth: bool)
    requires IsChain(a, sid, hops)
    ensures Matches(a, sid, hops, s) <==>
              && WellFormed(a) && sid in a.ctls
              && OneWay(a, sid, Dir(hops, forth), H.PipeOf(s, forth), H.Receiver(s, !forth), H.Receiver(s, forth))
              && OneWay(a, sid, Dir(hops, !forth), H.PipeOf(s, !forth), H.Receiver(s, forth), H.Receiver(s, !forth))
  {
    hide WellFormed, IsChain, OneWay;
  }

  /** A shape that is kept keeps both directions. */
  lemma DirsKept(a: Net, b: Net, sid: Sid, hops: seq<Hop>, forth: bool)
    requires IsChain(a, sid, hops) && ShapeKept(a, b, sid)
    ensures IsChain(b, sid, hops) && IsChain(b, sid, Dir(hops, forth)) && Strung(b, sid, Dir(hops, forth))
    ensures SameWalk(a, b, Dir(hops, forth))
  {
    hide IsChain, NodeAt, ShapeKept;
    DirChains(a, sid, hops, forth);
    ShapeKeepsChain(a, b, sid, hops);
    ShapeKeepsChain(a, b, sid, Dir(hops, forth));
    ChainStrung(b, sid, Dir(hops, forth));
  }

  /** The sender's side enters with what it has sent only. */
  lemma SameSender(a: Net, sid: Sid, hops: seq<Hop>, p: H.Pipe, from: H.Side, from2: H.Side, to: H.Side)
    requires OneWay(a, sid, hops, p, from, to) && from2.sent == from.sent
    ensures OneWay(a, sid, hops, p, from2, to)
  {
    hide Queued, HasReceived;
  }

  /** The receiver's side enters with everything but that. */
  lemma SameReceiver(a: Net, sid: Sid, hops: seq<Hop>, p: H.Pipe, from: H.Side, to: H.Side, sent: seq<H.Message>)
    requires OneWay(a, sid, hops, p, from, to)
    ensures OneWay(a, sid, hops, p, from, to.(sent := sent))
  {
    hide Queued, HasSent;
  }

  /** The stream whose first message a pipe step moves. */
  function StreamOf(s: H.State, st: H.Step): nat
    requires st.Advance? || st.Arrive?
  {
    if st.Advance? then st.at else if |H.PipeOf(s, st.forth).queues| > 0 then |H.PipeOf(s, st.forth).queues| - 1 else 0
  }

  lemma ArrivesIdle(s: H.State, st: H.Step)
    requires H.Orderly(s) && H.Enabled(s, st) && (st.Advance? || st.Arrive?)
    ensures var p, i := H.PipeOf(s, st.forth), StreamOf(s, st);
            && i < |p.queues| && p.queues[i] != []
            && (i + 1 == |p.queues| && p.queues[i][0].Success? ==> H.Receiver(s, st.forth).phase.Idle?)
  {
    if st.Arrive? { H.LeftContents(H.PipeOf(s, st.forth).queues); }
    hide H.Contents, H.AllSuccesses, H.CallerForm, H.AnswerForm;
  }

  lemma DeliveryBoth(a: Net, sid: Sid, hops: seq<Hop>, f: bool, i: nat, p: H.Pipe, q: H.Pipe, from: H.Side, to: H.Side)
    returns (e: End, m: Message, b: Net)
    requires WellFormed(a) && sid in a.ctls && IsChain(a, sid, hops) && i < |p.queues| && p.queues[i] != []
    requires OneWay(a, sid, Dir(hops, f), p, from, to) && OneWay(a, sid, Dir(hops, !f), q, to, from)
    requires i + 1 == |p.queues| && p.queues[i][0].Success? ==> to.phase.Idle?
    ensures i < |Dir(hops, f)| == |p.queues| && e == RightEnd(Dir(hops, f)[i]) && m == Token(sid, p.queues[i][0])
    ensures Delivers(a, b, sid, e, m) && WellFormed(b) && sid in b.ctls && IsChain(b, sid, hops)
    ensures OneWay(b, sid, Dir(hops, f), Stepped(p, i), from, Reached(p, i, to, f))
    ensures OneWay(b, sid, Dir(hops, !f), q, to, from)
  {
    hide WellFormed, IsChain, OneWay, Strung, DoDeliver, ShapeKept, InboxAt, NodeAt, EnabledRelay, Dir, Opposite, Token,
         Confined, StateOf, Post, Take, Commit, SameWalk;
    var d, o := Dir(hops, f), Dir(hops, !f);
    DirChains(a, sid, hops, f);
    PipeLength(a, sid, d, p, from, to);
    TokensDiffer(sid, p.queues[i][0], p.queues[i][0]);
    HeadWaits(a, sid, d, p, from, to, i);
    e, m := RightEnd(d[i]), Token(sid, p.queues[i][0]);
    DeliveryForm(a, sid, d, i, m);
    b := DoDeliver(a, e, m);
    DirsKept(a, b, sid, hops, f);
    DirsKept(a, b, sid, hops, !f);
    DeliveryAhead(a, b, sid, d, i, m, p, from, to, f);
    DeliveryBehind(a, b, sid, d, i, m, o, q, to, from);
    StepIsolated(a, Deliver(e, m));
  }

  /** `m` is the first message of the stream that the pipe step moves, and `e` the end that reads it. */
  ghost predicate IsNext(sid: Sid, hops: seq<Hop>, s: H.State, st: H.Step, e: End, m: Message)
    requires st.Advance? || st.Arrive?
  {
    var queues, d, i := H.PipeOf(s, st.forth).queues, Dir(hops, st.forth), StreamOf(s, st);
    i < |d| == |queues| && queues[i] != [] && e == RightEnd(d[i]) && m == Token(sid, queues[i][0])
  }

  /** With in-order hand-off, the delivery of the next message of a stream is the pipe's step, in both
      directions and for circuits of any length; and the message is there to be delivered. */
  lemma DeliveryMatches(a: Net, sid: Sid, hops: seq<Hop>, s: H.State, st: H.Step) returns (e: End, m: Message, b: Net)
    requires Matches(a, sid, hops, s) && H.Orderly(s) && H.Enabled(s, st) && (st.Advance? || st.Arrive?)
    ensures IsNext(sid, hops, s, st, e, m) && Delivers(a, b, sid, e, m) && Matches(b, sid, hops, H.Do(s, st))
  {
    hide WellFormed, IsChain, OneWay, Delivers, H.Orderly, Dir, Matches, Token;
    var f := st.forth;
    var p, q, from, to := H.PipeOf(s, f), H.PipeOf(s, !f), H.Receiver(s, !f), H.Receiver(s, f);
    MatchesChain(a, sid, hops, s);
    MatchesDir(a, sid, hops, s, f);
    ArrivesIdle(s, st);
    var i := StreamOf(s, st);
    e, m, b := DeliveryBoth(a, sid, hops, f, i, p, q, from, to);
    var t := H.Do(s, st);
    MatchesDir(b, sid, hops, t, f);
    SameSender(b, sid, Dir(hops, !f), q, to, H.Receiver(t, f), from);
  }

  lemma MatchesChain(a: Net, sid: Sid, hops: seq<Hop>, s: H.State)
    requires Matches(a, sid, hops, s)
    ensures IsChain(a, sid, hops) && WellFormed(a) && sid in a.ctls
  {}

  lemma PipeLength(a: Net, sid: Sid, hops: seq<Hop>, p: H.Pipe, from: H.Side, to: H.Side)
    requires OneWay(a, sid, hops, p, from, to)
    ensures |p.queues| == |hops| && p.pending.None?
  {}

  lemma HeadWaits(a: Net, sid: Sid, hops: seq<Hop>, p: H.Pipe, from: H.Side, to: H.Side, i: nat)
    requires OneWay(a, sid, hops, p, from, to) && i < |p.queues| && p.queues[i] != []
    ensures i < |hops| && hops[i].link < |a.links| && Token(sid, p.queues[i][0]) in InboxAt(a.links, hops, i)
  {
    QueueHeld(a.links, sid, hops, i, p.queues[i]);
  }

  // ---- a client writes -----------------------------------------------------------------------------

  lemma SentMatches(a: Net, b: Net, n: NodeId, sid: Sid, sent: seq<H.Message>, m: H.Message)
    requires HasSent(a, n, sid, sent) && !m.Success? && SentBy(b, n, sid) == SentBy(a, n, sid) + multiset{Code(m)}
    ensures HasSent(b, n, sid, sent + [m])
  {
    hide SentBy;
    forall x: H.Message | !x.Success? ensures SentBy(b, n, sid)[Code(x)] == multiset(sent + [m])[x] {
      BackAdded(sent, m, x);
      TokensDiffer(sid, m, x);
    }
  }

  /** Client `n` sends. */
  ghost predicate Sends(a: Net, b: Net, sid: Sid, n: NodeId, payload: Payload) {
    EnabledRelay(a, Send(n, sid, payload)) && b == DoSend(a, n, sid, payload)
  }

  lemma SendAhead(a: Net, b: Net, sid: Sid, n: NodeId, hops: seq<Hop>, p: H.Pipe, from: H.Side, to: H.Side,
          m: H.Message)
    requires WellFormed(a) && IsChain(a, sid, hops) && OneWay(a, sid, hops, p, from, to) && !m.Success?
    requires Sends(a, b, sid, n, Code(m)) && n == NodeAt(a, hops, 0) && Strung(b, sid, hops) && SameWalk(a, b, hops)
    requires |p.queues| == |hops|
    ensures OneWay(b, sid, hops, H.Enter(p, m), from.(sent := from.sent + [m]), to)
  {
    hide WellFormed, IsChain, DoSend, QueueAt, HasSent, HasReceived, Post, SentBy, ReceivedBy;
    var right := NodeAt(a, hops, |hops|);
    ChainStrung(a, sid, hops);
    SendSite(a, n, sid, hops);
    SendLogs(a, n, sid, Code(m), n);
    SendLogs(a, n, sid, Code(m), right);
    QueuesPosted(a.links, sid, hops, Write(LeftEnd(hops[0]), Token(sid, m)), p.queues, 0, m);
    SentMatches(a, b, n, sid, from.sent, m);
    ReceivedStays(a, b, right, sid, to);
  }

  lemma SendBehind(a: Net, b: Net, sid: Sid, n: NodeId, payload: Payload, other: seq<Hop>, p: H.Pipe, from: H.Side,
          to: H.Side)
    requires WellFormed(a) && IsChain(a, sid, other) && OneWay(a, sid, other, p, from, to)
    requires Sends(a, b, sid, n, payload) && SlotOf(a, n, sid).circuit.value.out.link < |a.links|
    requires Strung(b, sid, other) && SameWalk(a, b, other) && n != NodeAt(a, other, 0)
    ensures OneWay(b, sid, other, p, from, to)
  {
    hide WellFormed, IsChain, DoSend, QueueAt, HasSent, HasReceived, Post, SentBy, ReceivedBy;
    var left, right := NodeAt(a, other, 0), NodeAt(a, other, |other|);
    SendSite(a, n, sid, other);
    SendLogs(a, n, sid, payload, left);
    SendLogs(a, n, sid, payload, right);
    QueuesPostedElsewhere(a.links, sid, other, Write(SlotOf(a, n, sid).circuit.value.out, Data(sid, payload)),
                          p.queues);
    SentStays(a, b, left, sid, from.sent);
    ReceivedStays(a, b, right, sid, to);
  }

  /** A client whose handshake has started may write, on its only stream. */
  lemma MayWrite(a: Net, sid: Sid, hops: seq<Hop>, other: seq<Hop>, p: H.Pipe, from: H.Side, to: H.Side,
          payload: Payload)
    requires IsChain(a, sid, hops) && OneWay(a, sid, other, p, from, to)
             && NodeAt(a, other, |other|) == NodeAt(a, hops, 0)
    requires !to.phase.Idle?
    ensures EnabledRelay(a, Send(NodeAt(a, hops, 0), sid, payload))
    ensures SlotOf(a, NodeAt(a, hops, 0), sid).circuit.value.out.link < |a.links|
  {
    assert Terminates(a, sid, LeftEnd(hops[0]));
    hide Queued, HasSent, Sidelined;
  }

  lemma WritingBoth(a: Net, sid: Sid, hops: seq<Hop>, f: bool, p: H.Pipe, q: H.Pipe, from: H.Side, to: H.Side,
          m: H.Message)
    returns (n: NodeId, b: Net)
    requires WellFormed(a) && sid in a.ctls && IsChain(a, sid, hops) && !m.Success? && !from.phase.Idle?
    requires OneWay(a, sid, Dir(hops, f), p, from, to) && OneWay(a, sid, Dir(hops, !f), q, to, from)
    ensures |Dir(hops, f)| > 0 && Strung(a, sid, Dir(hops, f)) && n == NodeAt(a, Dir(hops, f), 0)
    ensures Sends(a, b, sid, n, Code(m)) && WellFormed(b) && sid in b.ctls && IsChain(b, sid, hops) && |p.queues| > 0
    ensures OneWay(b, sid, Dir(hops, f), H.Enter(p, m), from.(sent := from.sent + [m]), to)
    ensures OneWay(b, sid, Dir(hops, !f), q, to, from)
  {
    hide WellFormed, IsChain, OneWay, DoSend, ShapeKept, NodeAt, EnabledRelay, Dir, Opposite, Confined, SameWalk;
    var d, o := Dir(hops, f), Dir(hops, !f);
    DirChains(a, sid, hops, f);
    PipeLength(a, sid, d, p, from, to);
    MayWrite(a, sid, d, o, q, to, from, Code(m));
    n := NodeAt(a, d, 0);
    SendKeepsShape(a, n, sid, Code(m));
    b := DoSend(a, n, sid, Code(m));
    DirsKept(a, b, sid, hops, f);
    DirsKept(a, b, sid, hops, !f);
    SendAhead(a, b, sid, n, d, p, from, to, m);
    SendBehind(a, b, sid, n, Code(m), o, q, to, from);
    StepIsolated(a, Send(n, sid, Code(m)));
  }

  /** A handshake task or an application that writes a message is a send of the network. */
  lemma WritingMatches(a: Net, sid: Sid, hops: seq<Hop>, s: H.State, f: bool, m: H.Message) returns (n: NodeId, b: Net)
    requires Matches(a, sid, hops, s) && !m.Success? && !H.Receiver(s, !f).phase.Idle? && |H.PipeOf(s, f).queues| > 0
    ensures |Dir(hops, f)| > 0 && Strung(a, sid, Dir(hops, f)) && n == NodeAt(a, Dir(hops, f), 0)
    ensures Sends(a, b, sid, n, Code(m)) && Matches(b, sid, hops, H.Written(s, f, m))
  {
    hide WellFormed, IsChain, OneWay, Sends, Dir, Matches, NodeAt;
    var p, q, from, to := H.PipeOf(s, f), H.PipeOf(s, !f), H.Receiver(s, !f), H.Receiver(s, f);
    MatchesChain(a, sid, hops, s);
    MatchesDir(a, sid, hops, s, f);
    n, b := WritingBoth(a, sid, hops, f, p, q, from, to, m);
    SameReceiver(b, sid, Dir(hops, !f), q, to, from, from.sent + [m]);
    MatchesDir(b, sid, hops, H.Written(s, f, m), f);
  }

  /** A side that has moved messages from its channel to what it has read. */
  predicate SameTraffic(s: H.Side, t: H.Side) {
    && t.sent == s.sent && (t.phase.Idle? <==> s.phase.Idle?)
    && multiset(t.consumed + t.channel) == multiset(s.consumed + s.channel)
  }

  lemma SidesMatch(a: Net, sid: Sid, hops: seq<Hop>, p: H.Pipe, from: H.Side, to: H.Side, from2: H.Side, to2: H.Side)
    requires OneWay(a, sid, hops, p, from, to) && SameTraffic(from, from2) && SameTraffic(to, to2)
    ensures OneWay(a, sid, hops, p, from2, to2)
  {
    hide Queued;
  }

  lemma TrafficMatches(a: Net, sid: Sid, hops: seq<Hop>, s: H.State, t: H.State)
    requires Matches(a, sid, hops, s) && t.out == s.out && t.back == s.back
    requires SameTraffic(s.caller, t.caller) && SameTraffic(s.answer, t.answer)
    ensures Matches(a, sid, hops, t)
  {
    hide OneWay, WellFormed, IsChain, SameTraffic;
    SidesMatch(a, sid, hops, s.out, s.caller, s.answer, t.caller, t.answer);
    SidesMatch(a, sid, Flip(hops), s.back, s.answer, s.caller, t.answer, t.caller);
  }

  // ---- runs ----------------------------------------------------------------------------------------

  lemma MatchedPipes(a: Net, sid: Sid, hops: seq<Hop>, s: H.State)
    requires Matches(a, sid, hops, s)
    ensures s.out.pending.None? && s.back.pending.None? && |s.out.queues| == |s.back.queues| == |hops| > 0
  {
    hide WellFormed, IsChain, HasSent, HasReceived;
  }

  lemma ReadTraffic(side: H.Side, phase: H.Phase)
    requires side.channel != [] && !side.phase.Idle? && !phase.Idle?
    ensures SameTraffic(side, side.(phase := phase, channel := side.channel[1..],
                                    consumed := side.consumed + [side.channel[0]]))
  {
    assert side.consumed + [side.channel[0]] + side.channel[1..] == side.consumed + side.channel;
  }

  lemma Replies(phase: H.Phase, m: H.Message)
    ensures !H.Handled(phase, m).0.Idle? && (H.Handled(phase, m).1.Some? ==> !H.Handled(phase, m).1.value.Success?)
  {}

  lemma OneStep(a: Net, st: Step)
    requires Enabled(a, st)
    ensures CanRun(a, [st]) && Run(a, [st]) == Do(a, st)
  {
    hide Enabled, Do;
    assert [st][1..] == [] && CanRun(Do(a, st), []);
  }

  /** Deliveries and sends of this session id. */
  predicate Working(st: Step, sid: Sid) {
    (st.Deliver? && IsCargo(st.msg) && Carries(st.msg, sid)) || (st.Send? && st.sid == sid)
  }

  /** Every step of the handshake is at most one step of the network, a delivery or a send. */
  lemma StepMatches(a: Net, sid: Sid, hops: seq<Hop>, s: H.State, st: H.Step) returns (steps: seq<Step>)
    requires Matches(a, sid, hops, s) && H.Orderly(s) && H.Enabled(s, st)
    ensures |steps| <= 1 && CanRun(a, steps) && Matches(Run(a, steps), sid, hops, H.Do(s, st))
    ensures forall i :: 0 <= i < |steps| ==> Working(steps[i], sid)
  {
    hide Matches, DoDeliver, DoSend, EnabledRelay, H.Orderly, Run, CanRun, InboxAt, Strung, NodeAt, Token;
    MatchedPipes(a, sid, hops, s);
    assert !st.Emit?;
    match st
    case Begin =>
      var t := s.(caller := s.caller.(phase := H.AwaitsSecond));
      TrafficMatches(a, sid, hops, s, t);
      steps := WritingStep(a, sid, hops, t, true, H.Shake(1));
    case Send(f, d) => steps := WritingStep(a, sid, hops, s, f, H.App(d));
    case Read(f) => steps := ReadingStep(a, sid, hops, s, f);
    case Advance(_, _) => steps := DeliveringStep(a, sid, hops, s, st);
    case Arrive(_) => steps := DeliveringStep(a, sid, hops, s, st);
    case Emit(_) => assert false;
  }

  lemma DeliveringStep(a: Net, sid: Sid, hops: seq<Hop>, s: H.State, st: H.Step) returns (steps: seq<Step>)
    requires Matches(a, sid, hops, s) && H.Orderly(s) && H.Enabled(s, st) && (st.Advance? || st.Arrive?)
    ensures |steps| == 1 && CanRun(a, steps) && Matches(Run(a, steps), sid, hops, H.Do(s, st)) && Working(steps[0], sid)
  {
    hide Matches, DoDeliver, EnabledRelay, H.Orderly, H.Enabled, H.Do, Run, CanRun, Token;
    var e, m, b := DeliveryMatches(a, sid, hops, s, st);
    TokensDiffer(sid, H.PipeOf(s, st.forth).queues[StreamOf(s, st)][0], H.Success);
    OneStep(a, Deliver(e, m));
    steps := [Deliver(e, m)];
  }

  lemma WritingStep(a: Net, sid: Sid, hops: seq<Hop>, s: H.State, f: bool, m: H.Message) returns (steps: seq<Step>)
    requires Matches(a, sid, hops, s) && !m.Success? && !H.Receiver(s, !f).phase.Idle? && |H.PipeOf(s, f).queues| > 0
    ensures |steps| == 1 && CanRun(a, steps) && Matches(Run(a, steps), sid, hops, H.Written(s, f, m))
            && Working(steps[0], sid)
  {
    hide Matches, DoSend, EnabledRelay, Run, CanRun, NodeAt, H.Written;
    var n, b := WritingMatches(a, sid, hops, s, f, m);
    OneStep(a, Send(n, sid, Code(m)));
    steps := [Send(n, sid, Code(m))];
  }

  lemma ReadingStep(a: Net, sid: Sid, hops: seq<Hop>, s: H.State, f: bool) returns (steps: seq<Step>)
    requires Matches(a, sid, hops, s) && H.Orderly(s) && H.Enabled(s, H.Read(f))
    ensures |steps| <= 1 && CanRun(a, steps) && Matches(Run(a, steps), sid, hops, H.Do(s, H.Read(f)))
    ensures forall i :: 0 <= i < |steps| ==> Working(steps[i], sid)
  {
    hide Matches, H.Orderly, H.Handled, SameTraffic, H.Written;
    MatchedPipes(a, sid, hops, s);
    Replies(H.Receiver(s, f).phase, H.Receiver(s, f).channel[0]);
    ReadTraffic(H.Receiver(s, f), H.Handled(H.Receiver(s, f).phase, H.Receiver(s, f).channel[0]).0);
    TrafficItself(s.caller);
    TrafficItself(s.answer);
    var side := H.Receiver(s, f);
    var (phase, reply) := H.Handled(side.phase, side.channel[0]);
    var t := H.WithReceiver(s, f, side.(phase := phase, channel := side.channel[1..],
                                        consumed := side.consumed + [side.channel[0]]));
    TrafficMatches(a, sid, hops, s, t);
    if reply.Some? { steps := WritingStep(a, sid, hops, t, !f, reply.value); } else { steps := []; }
  }

  lemma TrafficItself(s: H.Side)
    ensures SameTraffic(s, s)
  {}

  lemma {:induction false} RunsThen(a: Net, s: seq<Step>, t: seq<Step>)
    requires CanRun(a, s) && CanRun(Run(a, s), t)
    ensures CanRun(a, s + t) && Run(a, s + t) == Run(Run(a, s), t)
    decreases |s|
  {
    hide Enabled, Do;
    if s == [] {
      assert s + t == t;
    } else {
      assert (s + t)[1..] == s[1..] + t;
      RunsThen(Do(a, s[0]), s[1..], t);
    }
  }

  /** So every run of the handshake, from wherever it matches the network, is a run of the network that
      delivers in order along the circuit. */
  lemma {:induction false} RunMatches(a: Net, sid: Sid, hops: seq<Hop>, s: H.State, hs: seq<H.Step>)
      returns (steps: seq<Step>)
    requires Matches(a, sid, hops, s) && H.Orderly(s) && H.CanRun(s, hs)
    ensures |steps| <= |hs| && CanRun(a, steps) && Matches(Run(a, steps), sid, hops, H.Run(s, hs))
    ensures forall i :: 0 <= i < |steps| ==> Working(steps[i], sid)
    decreases |hs|
  {
    hide Matches, H.Orderly, H.Enabled, H.Do, Working, Enabled, Do;
    if hs == [] {
      steps := [];
    } else {
      var first := StepMatches(a, sid, hops, s, hs[0]);
      H.StepOrderly(s, hs[0]);
      var rest := RunMatches(Run(a, first), sid, hops, H.Do(s, hs[0]), hs[1..]);
      RunsThen(a, first, rest);
      steps := first + rest;
    }
  }

  // ---- the beginning -------------------------------------------------------------------------------

  /** Nothing travels in this direction yet, and nothing has been logged or started at its ends. */
  ghost predicate Unused(a: Net, sid: Sid, hops: seq<Hop>) {
    && Strung(a, sid, hops)
    && (forall i, m :: 0 <= i < |hops| && IsCargo(m) ==> StateOf(a, RightEnd(hops[i])).inbox[m] == 0)
    && SentBy(a, NodeAt(a, hops, 0), sid) == multiset{} && ReceivedBy(a, NodeAt(a, hops, |hops|), sid) == multiset{}
    && a.started[(NodeAt(a, hops, |hops|), sid)] == 0
  }

  const IDLE := H.Side(H.Idle, [], [], [])

  /** The handshake before the node after stream `at - 1` has written anything. */
  function Beginning(length: nat, at: nat): (s: H.State)
    requires at <= length
  {
    H.State(IDLE, IDLE, H.Pipe(seq(length, i => []), Some(at)), H.Pipe(seq(length, i => []), Some(length - at)))
  }

  lemma UnusedQueues(a: Net, sid: Sid, hops: seq<Hop>)
    requires Unused(a, sid, hops)
    ensures Queued(a.links, sid, hops, seq(|hops|, i => []))
  {
    forall i, m | 0 <= i < |hops| ensures InboxAt(a.links, hops, i)[Token(sid, m)] == 0 {
      TokensDiffer(sid, m, m);
      assert StateOf(a, RightEnd(hops[i])).inbox[Token(sid, m)] == 0;
    }
    forall i | 0 <= i < |hops| ensures QueueAt(a.links, sid, hops, i, []) {}
  }

  /** One of two writes goes along the direction, the other does not. */
  lemma TwoWrites(links: seq<Link>, sid: Sid, hops: seq<Hop>, k: nat, f: Write, g: Write, queues: seq<seq<H.Message>>)
    requires Queued(links, sid, hops, queues) && 0 < k < |hops|
    requires forall i, j :: 0 <= i < j < |hops| ==> hops[i].link != hops[j].link
    requires (f == Write(LeftEnd(hops[k]), Success(sid)) && g == Write(RightEnd(hops[k - 1]), Success(sid)))
          || (f == Write(RightEnd(hops[k - 1]), Success(sid)) && g == Write(LeftEnd(hops[k]), Success(sid)))
    ensures Queued(Post(Post(links, Some(f)), Some(g)), sid, hops, queues[k := queues[k] + [H.Success]])
  {
    assert forall i :: 0 <= i < |hops| ==> RightEnd(hops[k - 1]) != LeftEnd(hops[i]);
    hide Post, QueueAt, InboxAt;
    var l1 := Post(links, Some(f));
    if f.end == LeftEnd(hops[k]) {
      QueuesPosted(links, sid, hops, f, queues, k, H.Success);
      QueuesPostedElsewhere(l1, sid, hops, g, queues[k := queues[k] + [H.Success]]);
    } else {
      QueuesPostedElsewhere(links, sid, hops, f, queues);
      QueuesPosted(l1, sid, hops, g, queues, k, H.Success);
    }
  }

  lemma EmissionAhead(a: Net, b: Net, sid: Sid, hops: seq<Hop>, k: nat, p: H.Pipe)
    requires IsChain(a, sid, hops) && Unused(a, sid, hops) && 0 < k < |hops|
             && p == H.Pipe(seq(|hops|, i => []), Some(k))
    requires b == SendBothWays(a, NodeAt(a, hops, k), sid, Success(sid)) && Strung(b, sid, hops)
    requires NodeAt(b, hops, 0) == NodeAt(a, hops, 0) && NodeAt(b, hops, |hops|) == NodeAt(a, hops, |hops|)
    ensures OneWay(b, sid, hops, H.Emitted(p), IDLE, IDLE)
  {
    hide IsChain, NodeAt, TwoWay, Post, Queued;
    var n := NodeAt(a, hops, k);
    var out := TwoWay(SlotOf(a, n, sid), Success(sid));
    EmitWrites(a, sid, hops, k, Success(sid));
    UnusedQueues(a, sid, hops);
    TwoWrites(a.links, sid, hops, k, out.first.value, out.second.value, p.queues);
    EmissionSlots(a, n, sid, out, NodeAt(a, hops, 0));
    EmissionSlots(a, n, sid, out, NodeAt(a, hops, |hops|));
  }

  lemma EmissionSlots(a: Net, n: NodeId, sid: Sid, out: Outcome, x: NodeId)
    requires out.slot == SlotOf(a, n, sid) && out.shut1.None? && out.shut2.None? && !out.starts
    ensures var b := Commit(a, n, sid, out);
            && b.links == Post(Post(a.links, out.first), out.second) && b.started == a.started
            && SentBy(b, x, sid) == SentBy(a, x, sid) && ReceivedBy(b, x, sid) == ReceivedBy(a, x, sid)
  {
    hide Post;
  }

  /** When a node of an unused circuit originates the Success, the network matches the handshake after its
      two first steps. */
  lemma EmissionMatches(a: Net, sid: Sid, hops: seq<Hop>, i: nat)
    requires WellFormed(a) && sid in a.ctls && IsChain(a, sid, hops) && 0 < i < |hops|
    requires Unused(a, sid, hops) && Unused(a, sid, Flip(hops))
    requires WellFormed(SendBothWays(a, NodeAt(a, hops, i), sid, Success(sid)))
    ensures var s := Beginning(|hops|, i);
            && H.Initial(s, |hops|, i) && H.CanRun(s, [H.Emit(true), H.Emit(false)])
            && Matches(SendBothWays(a, NodeAt(a, hops, i), sid, Success(sid)), sid, hops,
                          H.Run(s, [H.Emit(true), H.Emit(false)]))
  {
    hide WellFormed, IsChain, Unused, NodeAt, OneWay, ShapeKept, TwoWay;
    ChainStrung(a, sid, hops);
    var s, n := Beginning(|hops|, i), NodeAt(a, hops, i);
    var b := SendBothWays(a, n, sid, Success(sid));
    EmissionKeepsShape(a, sid, hops, i);
    DirChains(a, sid, hops, true);
    MiddleFlipped(a, sid, hops, i);
    DirsKept(a, b, sid, hops, true);
    DirsKept(a, b, sid, hops, false);
    EmissionAhead(a, b, sid, hops, i, s.out);
    EmissionAhead(a, b, sid, Flip(hops), |hops| - i, s.back);
    TwoEmits(s);
  }

  lemma MiddleFlipped(a: Net, sid: Sid, hops: seq<Hop>, i: nat)
    requires IsChain(a, sid, hops) && 0 < i < |hops|
    ensures Strung(a, sid, Flip(hops)) && NodeAt(a, Flip(hops), |hops| - i) == NodeAt(a, hops, i)
  {
    FlippedNode(a, sid, hops, |hops| - i);
  }

  lemma EmissionKeepsShape(a: Net, sid: Sid, hops: seq<Hop>, i: nat)
    requires IsChain(a, sid, hops) && 0 < i < |hops| && sid in a.ctls
    ensures ShapeKept(a, SendBothWays(a, NodeAt(a, hops, i), sid, Success(sid)), sid)
  {
    hide IsChain, NodeAt, ShapeKept, TwoWay;
    ChainStrung(a, sid, hops);
    EmitWrites(a, sid, hops, i, Success(sid));
    CommitKeepsShape(a, NodeAt(a, hops, i), sid, TwoWay(SlotOf(a, NodeAt(a, hops, i), sid), Success(sid)));
  }

  lemma TwoEmits(s: H.State)
    requires H.Enabled(s, H.Emit(true)) && H.Enabled(s, H.Emit(false))
    ensures var steps := [H.Emit(true), H.Emit(false)];
            H.CanRun(s, steps) && H.Run(s, steps) == s.(out := H.Emitted(s.out), back := H.Emitted(s.back))
  {
    var t := H.Do(s, H.Emit(true));
    assert [H.Emit(true), H.Emit(false)][1..] == [H.Emit(false)] && [H.Emit(false)][1..] == [];
    assert H.CanRun(t, [H.Emit(false)]) && H.Run(t, [H.Emit(false)]) == H.Do(t, H.Emit(false));
  }

  /** A complete circuit before its Success is unused in both directions. */
  lemma ReadyUnused(a: Net, sid: Sid)
    requires WellFormed(a) && ReadyToEmit(a, sid) && LogsEmpty(a, sid)
    ensures sid in a.ctls && IsChain(a, sid, Path(a, sid)) && Unused(a, sid, Path(a, sid))
            && Unused(a, sid, Flip(Path(a, sid)))
  {
    FinishedIsChain(a, sid);
    var hops := Path(a, sid);
    assert forall n :: a.started[(n, sid)] == 0;
    hide IsChain, PathOf, Topology, Mail, Tally, WellFormed;
    EndsFlipped(a, sid, hops);
    ChainStrung(a, sid, hops);
    NothingUsed(a, sid, hops);
    NothingUsed(a, sid, Flip(hops));
  }

  lemma NothingUsed(a: Net, sid: Sid, hops: seq<Hop>)
    requires Strung(a, sid, hops) && Mail(a, sid) && a.emitted[sid] == 0 && LogsEmpty(a, sid)
    requires forall n :: a.started[(n, sid)] == 0
    ensures Unused(a, sid, hops)
  {
    hide Mail;
    NoCargoYet(a, sid, hops);
    assert NothingLogged(SlotOf(a, NodeAt(a, hops, 0), sid).circuit)
           && NothingLogged(SlotOf(a, NodeAt(a, hops, |hops|), sid).circuit);
  }

  /** On every circuit that a run establishes the handshake can complete: from the network in which a node
      between the clients has just originated the Success, some run of deliveries in order and of sends
      along the circuit ends with both clients holding a transport state. */
  lemma HandshakeOnTheCircuit(a: Net, sid: Sid, i: nat) returns (steps: seq<Step>, s: H.State)
    requires WellFormed(a) && ReadyToEmit(a, sid) && LogsEmpty(a, sid)
    requires 0 < i < |NodesOf(PlanOf(a, a.ctls[sid]))| - 1
    ensures var b := SendBothWays(a, NodesOf(PlanOf(a, a.ctls[sid]))[i], sid, Success(sid));
            && CanRun(b, steps) && (forall j :: 0 <= j < |steps| ==> Working(steps[j], sid))
            && H.Finished(s) && Matches(Run(b, steps), sid, Path(a, sid), s)
  {
    hide WellFormed, LogsEmpty, PathOf, NodesOf, IsChain, Unused, NodeAt, Matches, H.Orderly, H.Finished, H.Run,
         H.CanRun;
    hide CanRun, Run, SendBothWays, Working, PlanOf, Topology, Mail, Tally;
    ReadyUnused(a, sid);
    FinishedIsChain(a, sid);
    var hops, n := Path(a, sid), NodesOf(PlanOf(a, a.ctls[sid]))[i];
    var b := SendBothWays(a, n, sid, Success(sid));
    EmissionWellFormed(a, n, sid);
    ChainStrung(a, sid, hops);
    assert NodeAt(a, hops, i) == n;
    EmissionMatches(a, sid, hops, i);
    var t := Beginning(|hops|, i);
    var first := [H.Emit(true), H.Emit(false)];
    H.InitialOrderly(t, |hops|, i);
    H.RunOrderly(t, first);
    var rest := H.CanComplete(H.Run(t, first));
    steps := RunMatches(b, sid, hops, H.Run(t, first), rest);
    s := H.Run(H.Run(t, first), rest);
  }

  lemma EmissionWellFormed(a: Net, n: NodeId, sid: Sid)
    requires WellFormed(a) && sid in a.ctls
    ensures WellFormed(SendBothWays(a, n, sid, Success(sid)))
  {
    hide WellFormed, Confined;
    BothWaysIsolated(a, n, sid, Success(sid));
  }
}
