/** Over whole runs: from the moment a Success is originated, what each client has sent is what the
    other has received together with what is in flight between them, and until then nothing is sent. */
module Conservation {
  import opened Wrappers
  import opened Protocol
  import opened RelayLogic
  import opened Network
  import opened Isolation
  import opened Establishment
  import opened EstablishmentRelay
  import opened Chain

  /** A circuit on which both directions conserve what is sent. */
  ghost predicate FlowsBothWays(net: Net, sid: Sid, hops: seq<Hop>) {
    && IsChain(net, sid, hops)
    && Strung(net, sid, Flip(hops))
    && Flows(net, sid, hops) && Flows(net, sid, Flip(hops))
  }

  // ---- steps that move no cargo ------------------------------------------------------------------

  ghost predicate SameCargo(a: seq<Link>, b: seq<Link>, hops: seq<Hop>) {
    && |a| == |b|
    && (forall i :: 0 <= i < |hops| ==> hops[i].link < |a|)
    && (forall i, m :: 0 <= i < |hops| && IsCargo(m) ==>
          b[hops[i].link].o.inbox[m] == a[hops[i].link].o.inbox[m]
              && b[hops[i].link].a.inbox[m] == a[hops[i].link].a.inbox[m])
  }

  lemma FlippedCargo(a: seq<Link>, b: seq<Link>, hops: seq<Hop>)
    requires SameCargo(a, b, hops)
    ensures SameCargo(a, b, Flip(hops))
  {
    var r := Flip(hops);
    forall i | 0 <= i < |r| ensures r[i].link == hops[|hops| - 1 - i].link {}
  }

  ghost predicate SameHistoryFor(a: Net, b: Net, sid: Sid, hops: seq<Hop>)
    requires Strung(a, sid, hops)
  {
    && SlotOf(b, NodeAt(a, hops, 0), sid).circuit == SlotOf(a, NodeAt(a, hops, 0), sid).circuit
    && SlotOf(b, NodeAt(a, hops, |hops|), sid).circuit == SlotOf(a, NodeAt(a, hops, |hops|), sid).circuit
    && b.emitted[sid] == a.emitted[sid] && forall n :: b.started[(n, sid)] == a.started[(n, sid)]
  }

  lemma StillFlows(a: Net, b: Net, sid: Sid, hops: seq<Hop>)
    requires Strung(a, sid, hops) && Strung(b, sid, hops) && Flows(a, sid, hops)
    requires NodeAt(b, hops, 0) == NodeAt(a, hops, 0) && NodeAt(b, hops, |hops|) == NodeAt(a, hops, |hops|)
    requires SameCargo(a.links, b.links, hops) && SameHistoryFor(a, b, sid, hops)
    ensures Flows(b, sid, hops)
  {
    forall m | IsCargo(m) ensures InFlight(b.links, hops, m) == InFlight(a.links, hops, m) {
      InFlightSame(a.links, b.links, hops, m);
    }
    hide InFlight, Strung;
  }

  lemma StillBothWays(a: Net, b: Net, sid: Sid, hops: seq<Hop>)
    requires FlowsBothWays(a, sid, hops) && IsChain(b, sid, hops)
    requires forall i :: 0 <= i <= |hops| ==> NodeAt(b, hops, i) == NodeAt(a, hops, i)
    requires SameCargo(a.links, b.links, hops) && SameHistoryFor(a, b, sid, hops)
    ensures FlowsBothWays(b, sid, hops)
  {
    EndsFlipped(a, sid, hops);
    EndsFlipped(b, sid, hops);
    FlippedCargo(a.links, b.links, hops);
    hide IsChain, Strung, NodeAt, SameCargo, Flows;
    StillFlows(a, b, sid, hops);
    StillFlows(a, b, sid, Flip(hops));
  }

  lemma EndsFlipped(a: Net, sid: Sid, hops: seq<Hop>)
    requires IsChain(a, sid, hops)
    ensures var r := Flip(hops);
            && IsChain(a, sid, r) && Strung(a, sid, r)
            && NodeAt(a, r, 0) == NodeAt(a, hops, |hops|) && NodeAt(a, r, |r|) == NodeAt(a, hops, 0)
  {
    FlippedChain(a, sid, hops);
    FlippedNode(a, sid, hops, 0);
    FlippedNode(a, sid, hops, |hops|);
  }

  // ---- a Success sent both ways ------------------------------------------------------------------

  /** The two writes of a node on the path: one on its left stream, one on its right stream. */
  lemma EmitWrites(a: Net, sid: Sid, hops: seq<Hop>, i: nat, m: Message)
    requires IsChain(a, sid, hops) && 0 < i < |hops|
    ensures var s := SlotOf(a, NodeAt(a, hops, i), sid);
            var out := TwoWay(s, m);
            && out == Quiet(s).(first := out.first, second := out.second, emits := m.Success?)
            && ((out.first == Some(Write(LeftEnd(hops[i]), m)) && out.second == Some(Write(RightEnd(hops[i - 1]), m)))
                || (out.first == Some(Write(RightEnd(hops[i - 1]), m))
                       && out.second == Some(Write(LeftEnd(hops[i]), m))))
  {
    assert Relays(a, sid, hops[i - 1], hops[i - 1 + 1]);
  }

  lemma TwoPosts(links: seq<Link>, hops: seq<Hop>, i: nat, f: Write, g: Write, m: Message, x: Message)
    requires 0 < i < |hops| && forall j :: 0 <= j < |hops| ==> hops[j].link < |links|
    requires forall j, k :: 0 <= j < k < |hops| ==> hops[j].link != hops[k].link
    requires (f == Write(LeftEnd(hops[i]), m) && g == Write(RightEnd(hops[i - 1]), m))
          || (f == Write(RightEnd(hops[i - 1]), m) && g == Write(LeftEnd(hops[i]), m))
    ensures InFlight(Post(Post(links, Some(f)), Some(g)), hops, x) == InFlight(links, hops, x) + One(x == m)
  {
    var l1 := Post(links, Some(f));
    forall w, j | w == Write(RightEnd(hops[i - 1]), m) && 0 <= j < |hops| ensures w.end != LeftEnd(hops[j]) {}
    if f.end == LeftEnd(hops[i]) {
      if x == m { PostOnPath(links, hops, i, m); } else { PostOffPath(links, hops, Some(f), x); }
      PostOffPath(l1, hops, Some(g), x);
    } else {
      PostOffPath(links, hops, Some(f), x);
      if x == m { PostOnPath(l1, hops, i, m); } else { PostOffPath(l1, hops, Some(g), x); }
    }
  }

  /** A node of the path that originates a Success puts one on its way to each end. */
  lemma EmitFlows(a: Net, b: Net, sid: Sid, hops: seq<Hop>, i: nat)
    requires IsChain(a, sid, hops) && 0 < i < |hops| && Flows(a, sid, hops)
    requires b == SendBothWays(a, NodeAt(a, hops, i), sid, Success(sid)) && Strung(b, sid, hops)
    requires NodeAt(b, hops, 0) == NodeAt(a, hops, 0) && NodeAt(b, hops, |hops|) == NodeAt(a, hops, |hops|)
    ensures Flows(b, sid, hops)
  {
    var n := NodeAt(a, hops, i);
    var out := TwoWay(SlotOf(a, n, sid), Success(sid));
    EmitWrites(a, sid, hops, i, Success(sid));
    assert b.links == Post(Post(a.links, out.first), out.second);
    assert forall m :: SlotOf(b, m, sid) == SlotOf(a, m, sid);
    assert b.emitted[sid] == a.emitted[sid] + 1 && b.started == a.started;
    var f, g := out.first.value, out.second.value;
    hide IsChain, TwoWay, Commit, SendBothWays, Post;
    forall x ensures InFlight(b.links, hops, x) == InFlight(a.links, hops, x) + One(x == Success(sid)) {
      TwoPosts(a.links, hops, i, f, g, Success(sid), x);
    }
    hide InFlight, Strung, NodeAt, SlotOf;
  }

  lemma EmitBothWays(a: Net, sid: Sid, hops: seq<Hop>, i: nat)
    requires FlowsBothWays(a, sid, hops) && 0 < i < |hops| && sid in a.ctls
    ensures FlowsBothWays(SendBothWays(a, NodeAt(a, hops, i), sid, Success(sid)), sid, hops)
  {
    var n := NodeAt(a, hops, i);
    var b := SendBothWays(a, n, sid, Success(sid));
    CommitKeepsShape(a, n, sid, TwoWay(SlotOf(a, n, sid), Success(sid)));
    ShapeKeepsChain(a, b, sid, hops);
    EndsFlipped(a, sid, hops);
    EndsFlipped(b, sid, hops);
    FlippedNode(a, sid, hops, |hops| - i);
    hide ShapeKept, NodeAt, Flows, SendBothWays;
    EmitFlows(a, b, sid, hops, i);
    EmitFlows(a, b, sid, Flip(hops), |hops| - i);
  }

  // ---- a client sends ----------------------------------------------------------------------------

  /** Only the two clients have a circuit entry; the left one writes rightward, the right one leftward. */
  lemma SendSite(a: Net, n: NodeId, sid: Sid, hops: seq<Hop>)
    requires WellFormed(a) && IsChain(a, sid, hops) && SlotOf(a, n, sid).circuit.Some?
    ensures var out := SlotOf(a, n, sid).circuit.value.out;
            && (n == NodeAt(a, hops, 0) ==> out == LeftEnd(hops[0]))
            && (n != NodeAt(a, hops, 0) ==> forall i :: 0 <= i < |hops| ==> out != LeftEnd(hops[i]))
  {
    var out := SlotOf(a, n, sid).circuit.value.out;
    assert SlotOk(a.links, n, sid, SlotOf(a, n, sid));
    assert EndOk(a.links, n, sid, out);
    if n != NodeAt(a, hops, 0) {
      forall i | 0 <= i < |hops| && OwnerOf(a, LeftEnd(hops[i])) == n ensures SlotOf(a, n, sid).circuit.None? {
        assert Relays(a, sid, hops[i - 1], hops[i - 1 + 1]);
      }
    }
  }

  lemma SendLogs(a: Net, n: NodeId, sid: Sid, payload: Payload, x: NodeId)
    requires EnabledRelay(a, Send(n, sid, payload))
    ensures var b := DoSend(a, n, sid, payload);
            && b.links == Post(a.links, Some(Write(SlotOf(a, n, sid).circuit.value.out, Data(sid, payload))))
            && b.emitted == a.emitted && b.started == a.started
            && SentBy(b, x, sid) == SentBy(a, x, sid) + (if n == x then multiset{payload} else multiset{})
            && ReceivedBy(b, x, sid) == ReceivedBy(a, x, sid)
  {
    hide Post;
  }

  lemma SendFlows(a: Net, n: NodeId, sid: Sid, payload: Payload, hops: seq<Hop>)
    requires WellFormed(a) && EnabledRelay(a, Send(n, sid, payload)) && IsChain(a, sid, hops) && Flows(a, sid, hops)
    requires var b := DoSend(a, n, sid, payload);
             Strung(b, sid, hops) && NodeAt(b, hops, 0) == NodeAt(a, hops, 0)
                 && NodeAt(b, hops, |hops|) == NodeAt(a, hops, |hops|)
    ensures Flows(DoSend(a, n, sid, payload), sid, hops)
  {
    hide WellFormed, DoSend;
    var b := DoSend(a, n, sid, payload);
    var left, right := NodeAt(a, hops, 0), NodeAt(a, hops, |hops|);
    var m := Data(sid, payload);
    var w := Some(Write(SlotOf(a, n, sid).circuit.value.out, m));
    SendSite(a, n, sid, hops);
    hide IsChain, SentBy, ReceivedBy, Post, NodeAt;
    SendLogs(a, n, sid, payload, left);
    SendLogs(a, n, sid, payload, right);
    forall x ensures InFlight(b.links, hops, x) == InFlight(a.links, hops, x) + One(x == m && n == left) {
      if x == m && n == left { PostOnPath(a.links, hops, 0, m); } else { PostOffPath(a.links, hops, w, x); }
    }
    hide *;
    SentFlows(a, b, sid, hops, payload, n == left);
  }

  lemma SentFlows(a: Net, b: Net, sid: Sid, hops: seq<Hop>, payload: Payload, fromLeft: bool)
    requires Strung(a, sid, hops) && Strung(b, sid, hops) && Flows(a, sid, hops)
    requires NodeAt(b, hops, 0) == NodeAt(a, hops, 0) && NodeAt(b, hops, |hops|) == NodeAt(a, hops, |hops|)
    requires b.emitted == a.emitted && b.started == a.started
    requires var left := NodeAt(a, hops, 0);
             SentBy(b, left, sid) == SentBy(a, left, sid) + if fromLeft then multiset{payload} else multiset{}
    requires var right := NodeAt(a, hops, |hops|); ReceivedBy(b, right, sid) == ReceivedBy(a, right, sid)
    requires forall x :: InFlight(b.links, hops, x) ==
                 InFlight(a.links, hops, x) + One(x == Data(sid, payload) && fromLeft)
    ensures Flows(b, sid, hops)
  {
    hide InFlight, Strung, NodeAt, SentBy, ReceivedBy;
  }

  lemma SendBothWaysFlow(a: Net, n: NodeId, sid: Sid, payload: Payload, hops: seq<Hop>)
    requires WellFormed(a) && EnabledRelay(a, Send(n, sid, payload)) && FlowsBothWays(a, sid, hops) && sid in a.ctls
    ensures FlowsBothWays(DoSend(a, n, sid, payload), sid, hops)
  {
    var b := DoSend(a, n, sid, payload);
    SendKeepsShape(a, n, sid, payload);
    ShapeKeepsChain(a, b, sid, hops);
    EndsFlipped(a, sid, hops);
    EndsFlipped(b, sid, hops);
    hide ShapeKept, NodeAt, Flows, DoSend, WellFormed, IsChain;
    SendFlows(a, n, sid, payload, hops);
    SendFlows(a, n, sid, payload, Flip(hops));
  }

  lemma CargoFlowsBothWays(a: Net, e: End, m: Message, hops: seq<Hop>)
    requires WellFormed(a) && EnabledRelay(a, Deliver(e, m)) && IsCargo(m)
             && FlowsBothWays(a, a.links[e.link].sid, hops)
    ensures FlowsBothWays(DoDeliver(a, e, m), a.links[e.link].sid, hops)
  {
    EndsFlipped(a, a.links[e.link].sid, hops);
    hide WellFormed, NodeAt, Flows, DoDeliver;
    CargoFlows(a, e, m, hops);
    CargoFlows(a, e, m, Flip(hops));
  }

  // ---- any established circuit -------------------------------------------------------------------

  /** Steps of an established circuit at work: a client sends, or a reader hands over a wake, a success
      or a data message. Steps of other session ids are free. */
  predicate AtWork(net: Net, st: Step, sid: Sid)
    requires Enabled(net, st)
  {
    StepSid(net, st) == sid ==> st.Send? || (st.Deliver? && (st.msg.Wake? || IsCargo(st.msg)))
  }

  lemma TakeFlows(a: Net, e: End, m: Message, hops: seq<Hop>)
    requires Known(a, e) && m in StateOf(a, e).inbox && !IsCargo(m) && !m.SetSession? && a.links[e.link].sid in a.ctls
    requires FlowsBothWays(a, a.links[e.link].sid, hops)
    ensures FlowsBothWays(Take(a, e, m, StateOf(a, e).handler), a.links[e.link].sid, hops)
  {
    hide ShapeKept, Flows;
    var sid, b := a.links[e.link].sid, Take(a, e, m, StateOf(a, e).handler);
    TakingKeepsShape(a, e, m, sid);
    ShapeKeepsChain(a, b, sid, hops);
    assert SameCargo(a.links, b.links, hops);
    assert SameHistoryFor(a, b, sid, hops);
    hide NodeAt, FlowsBothWays, IsChain, SameCargo;
    StillBothWays(a, b, sid, hops);
  }

  /** What belongs to another session id does not disturb a circuit. */
  lemma OthersFlow(a: Net, b: Net, sid: Sid, hops: seq<Hop>)
    requires FlowsBothWays(a, sid, hops) && SameFor(a, b, sid)
    ensures FlowsBothWays(b, sid, hops)
  {
    hide Beside, Flip, EndOf;
    SameChain(a, b, sid, hops);
    EndsFlipped(a, sid, hops);
    EndsFlipped(b, sid, hops);
    hide IsChain, NodeAt;
    forall m
      ensures InFlight(b.links, hops, m) == InFlight(a.links, hops, m)
    { InFlightSame(a.links, b.links, hops, m); }
    forall m
      ensures InFlight(b.links, Flip(hops), m) == InFlight(a.links, Flip(hops), m)
    { InFlightSame(a.links, b.links, Flip(hops), m); }
    hide InFlight, Strung;
  }

  lemma SameChain(a: Net, b: Net, sid: Sid, hops: seq<Hop>)
    requires IsChain(a, sid, hops) && SameFor(a, b, sid)
    ensures IsChain(b, sid, hops)
    ensures forall i :: 0 <= i <= |hops| ==> NodeAt(b, hops, i) == NodeAt(a, hops, i)
  {
    assert forall i :: 0 <= i < |hops| ==> b.links[hops[i].link] == a.links[hops[i].link];
    assert Strung(b, sid, hops);
    hide SameFor;
    forall i | 0 <= i <= |hops| ensures NodeAt(b, hops, i) == NodeAt(a, hops, i) {}
    assert forall n :: SlotOf(b, n, sid) == SlotOf(a, n, sid);
    forall i | 0 <= i < |hops| - 1
      ensures Relays(b, sid, hops[i], hops[i + 1])
    { assert Relays(a, sid, hops[i], hops[i + 1]); }
    assert Terminates(b, sid, LeftEnd(hops[0])) && Terminates(b, sid, RightEnd(hops[|hops| - 1]));
    assert forall i, j :: 0 <= i < j <= |hops| ==> NodeAt(a, hops, i) != NodeAt(a, hops, j);
    hide Relays, Terminates, NodeAt;
    assert Sidelined(a, sid, hops);
    assert Sidelined(b, sid, hops);
  }

  /** One step of a circuit at work, of any length: what the clients send is conserved. */
  lemma WorkingStep(a: Net, st: Step, sid: Sid, hops: seq<Hop>)
    requires WellFormed(a) && Enabled(a, st) && AtWork(a, st, sid) && FlowsBothWays(a, sid, hops) && sid in a.ctls
    ensures FlowsBothWays(Do(a, st), sid, hops) && WellFormed(Do(a, st)) && sid in Do(a, st).ctls
  {
    StepIsolated(a, st);
    hide FlowsBothWays, WellFormed, DoDeliver, DoSend, DoTask, EnabledTask;
    if StepSid(a, st) != sid {
      ConfinedIsSame(a, Do(a, st), StepSid(a, st), sid);
      OthersFlow(a, Do(a, st), sid, hops);
    } else if st.Send? {
      SendBothWaysFlow(a, st.node, sid, st.payload, hops);
    } else if IsCargo(st.msg) {
      CargoFlowsBothWays(a, st.end, st.msg, hops);
    } else {
      WakeIsTaken(a, st.end);
      TakeFlows(a, st.end, Wake, hops);
    }
  }

  lemma WakeIsTaken(a: Net, e: End)
    requires EnabledRelay(a, Deliver(e, Wake))
    ensures DoDeliver(a, e, Wake) == Take(a, e, Wake, StateOf(a, e).handler)
  {}

  ghost predicate AllAtWork(net: Net, steps: seq<Step>, sid: Sid)
    requires CanRun(net, steps)
    decreases |steps|
  {
    steps != [] ==> AtWork(net, steps[0], sid) && AllAtWork(Do(net, steps[0]), steps[1..], sid)
  }

  /** End to end, on a circuit of any length and for any interleaving with other sessions: whatever a
      client sends is received by the other client or in flight to it, unaltered and never duplicated. */
  lemma {:induction false} CircuitConserves(net: Net, steps: seq<Step>, sid: Sid, hops: seq<Hop>)
    requires WellFormed(net) && sid in net.ctls && CanRun(net, steps) && AllAtWork(net, steps, sid)
    requires FlowsBothWays(net, sid, hops)
    ensures FlowsBothWays(Run(net, steps), sid, hops)
    decreases |steps|
  {
    hide FlowsBothWays;
    if steps != [] {
      WorkingStep(net, steps[0], sid, hops);
      CircuitConserves(Do(net, steps[0]), steps[1..], sid, hops);
    }
  }
}
