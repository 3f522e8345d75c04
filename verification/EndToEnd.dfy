/** The circuits of all runs from the empty network: in every reachable state, a session id that
    nobody has given up on and for which a Success was originated has one simple path of relaying
    nodes between its two clients, and what the clients send is conserved on it. */
module EndToEnd {
  import opened Wrappers
  import opened Protocol
  import opened RelayLogic
  import opened Network
  import opened Isolation
  import opened Establishment
  import opened EstablishmentRelay
  import opened SuccessOnce
  import opened Chain
  import opened CircuitPath
  import opened Conservation

  predicate NothingLogged(c: Option<Circuit>) {
    c.Some? ==> c.value.sent == multiset{} && c.value.received == multiset{}
  }

  ghost predicate LogsEmpty(net: Net, sid: Sid) { forall n :: NothingLogged(SlotOf(net, n, sid).circuit) }

  function Path(net: Net, sid: Sid): seq<Hop>
    requires sid in net.ctls
  {
    PathOf(PlanOf(net, net.ctls[sid]))
  }

  /** Before the first Success nothing has been sent; from then on the path conserves. */
  ghost predicate Flowing(net: Net, sid: Sid) {
    && sid in net.ctls
    && (net.emitted[sid] == 0 ==> LogsEmpty(net, sid))
    && (net.emitted[sid] > 0 ==> FlowsBothWays(net, sid, Path(net, sid)))
  }

  // ---- before the first Success ------------------------------------------------------------------

  /** Every circuit entry is an old one, or new and empty. */
  ghost predicate LogsKept(a: Net, b: Net, sid: Sid) {
    forall n :: SlotOf(b, n, sid).circuit == SlotOf(a, n, sid).circuit || NothingLogged(SlotOf(b, n, sid).circuit)
  }

  lemma CommitLogs(a: Net, n: NodeId, sid: Sid, out: Outcome)
    requires out.slot.circuit == SlotOf(a, n, sid).circuit || NothingLogged(out.slot.circuit)
    ensures LogsKept(a, Commit(a, n, sid, out), sid)
  {
    hide Post, Shut;
  }

  lemma LogsThen(a: Net, b: Net, c: Net, sid: Sid)
    requires LogsKept(a, b, sid) && LogsKept(b, c, sid)
    ensures LogsKept(a, c, sid)
  {}

  lemma AttachLogs(a: Net, sid: Sid, link: LinkId, role: Role)
    requires link < |a.links|
    ensures LogsKept(a, AttachOpener(a, sid, link, role), sid)
  {}

  /** Everything but the slots may change. */
  lemma SlotsLogs(a: Net, b: Net, sid: Sid)
    requires b.slots == a.slots
    ensures LogsKept(a, b, sid)
  {}

  lemma BothWaysLogs(a: Net, n: NodeId, sid: Sid, m: Message)
    ensures LogsKept(a, SendBothWays(a, n, sid, m), sid)
  {
    CommitLogs(a, n, sid, TwoWay(SlotOf(a, n, sid), m));
  }

  lemma CloseLogs(a: Net, n: NodeId, sid: Sid)
    ensures LogsKept(a, Close(a, n, sid), sid)
  {
    CommitLogs(a, n, sid, OnClose(SlotOf(a, n, sid)));
  }

  lemma DialAttachLogs(a: Net, sid: Sid, k: Control)
    requires Awaited(a, Some(k.dial))
    ensures LogsKept(a, DoDialAttach(a, sid, k), sid)
  {}

  /** No task writes into the log of a circuit entry. */
  lemma TaskLogs(a: Net, st: Step)
    requires !IsRelayStep(st) && EnabledTask(a, st)
    ensures LogsKept(a, DoTask(a, st), st.sid)
  {
    var sid, b := st.sid, DoTask(a, st);
    if st.Dial? {
      SlotsLogs(a, b, sid);
    } else {
      var k := a.ctls[sid];
      hide LogsKept, SendBothWays, Close, HalfOpen, Attached;
      match st
      case DialAttach(_) =>
        hide DoDialAttach;
        DialAttachLogs(a, sid, k);
      case JoinAttach(_) =>
        var n1 := AttachOpener(a, sid, k.join.value, if k.home == k.entry then Access else Entry);
        hide AttachOpener;
        AttachLogs(a, sid, k.join.value, if k.home == k.entry then Access else Entry);
        BothWaysLogs(n1, k.entry, sid, Success(sid));
        LogsThen(a, n1, SendBothWays(n1, k.entry, sid, Success(sid)), sid);
      case ReachAttach(_) =>
        var n1 := AttachOpener(a, sid, k.reach.value, Access);
        hide AttachOpener;
        AttachLogs(a, sid, k.reach.value, Access);
        BothWaysLogs(n1, k.home, sid, Success(sid));
        LogsThen(a, n1, SendBothWays(n1, k.home, sid, Success(sid)), sid);
      case _ => OtherTaskLogs(a, st);
    }
  }

  lemma ControlBothWaysLogs(a: Net, sid: Sid, j: Control, n: NodeId, m: Message)
    ensures LogsKept(a, SendBothWays(WithControl(a, sid, j), n, sid, m), sid)
  {
    SlotsLogs(a, WithControl(a, sid, j), sid);
    BothWaysLogs(WithControl(a, sid, j), n, sid, m);
    hide SendBothWays;
  }

  lemma ControlCloseLogs(a: Net, sid: Sid, j: Control, n: NodeId)
    ensures LogsKept(a, Close(WithControl(a, sid, j), n, sid), sid)
    ensures LogsKept(a, Break(Close(WithControl(a, sid, j), n, sid), sid), sid)
  {
    CloseLogs(WithControl(a, sid, j), n, sid);
    hide Close;
  }

  lemma ControlAttachLogs(a: Net, sid: Sid, j: Control, link: LinkId, role: Role)
    requires link < |a.links|
    ensures LogsKept(a, AttachOpener(WithControl(a, sid, j), sid, link, role), sid)
  {}

  lemma OtherTaskLogs(a: Net, st: Step)
    requires !IsRelayStep(st) && EnabledTask(a, st) && !st.Dial? && !st.DialAttach? && !st.JoinAttach?
             && !st.ReachAttach?
    ensures LogsKept(a, DoTask(a, st), st.sid)
  {
    var sid, b := st.sid, DoTask(a, st);
    var k := a.ctls[sid];
    if b.slots == a.slots {
      SlotsLogs(a, b, sid);
    } else {
      hide LogsKept, SendBothWays, Close, HalfOpen, AttachOpener, NewLink;
      match st
      case JoinGiveUp(_) => ControlCloseLogs(a, sid, k.(endedE := true), k.entry);
      case ProbeFromEntry(_) => ControlBothWaysLogs(a, sid, k.(probedE := true), k.entry, OwnProbe(sid));
      case ReachGiveUp(_) => ControlCloseLogs(a, sid, k.(endedA := true), k.home);
      case HopGiveUp(_) => ControlCloseLogs(a, sid, k.(endedA := true), k.home);
      case HopAttach(_) => ControlAttachLogs(a, sid, k.(cmd := Sent), k.hop.value, Access);
      case CmdRefuse(_) => ControlCloseLogs(a, sid, k.(cmd := Replied(false)), AcceptorOf(a, k.hop).value);
      case CmdReady(_) => ControlBothWaysLogs(a, sid, k.(cmd := Replied(true)), AcceptorOf(a, k.hop).value,
                                                 Success(sid));
      case BridgeGiveUp(_) => ControlCloseLogs(a, sid, k.(cmd := Replied(false)), AcceptorOf(a, k.hop).value);
      case BridgeAttach(_) => ControlAttachLogs(a, sid, k.(cmd := Replied(true)), k.bridge.value, Relay);
      case ExpandReply(_) =>
        ControlBothWaysLogs(a, sid, k.(probedA := true), k.home, OwnProbe(sid));
        ControlCloseLogs(a, sid, k.(endedA := true), k.home);
      case _ =>
    }
  }

  lemma MessageLogs(s: Slot, e: End, sid: Sid, m: Message)
    requires !m.Data?
    ensures var out := OnMessage(s, e, sid, m);
            out.slot.circuit == s.circuit || NothingLogged(out.slot.circuit)
  {}

  lemma DeliverLogs(a: Net, e: End, m: Message)
    requires WellFormed(a) && EnabledRelay(a, Deliver(e, m)) && !m.Data?
    ensures LogsKept(a, DoDeliver(a, e, m), a.links[e.link].sid)
  {
    hide WellFormed;
    var sid, n, remembered := a.links[e.link].sid, OwnerOf(a, e), StateOf(a, e).handler.sid;
    var n1 := Take(a, e, m, NextHandler(m, remembered));
    TakenOk(a, e, m);
    MessageLogs(SlotOf(a, n, sid), e, sid, m);
    assert n1.slots == a.slots;
    hide OnMessage, Commit, EndOk, LogsKept, NextHandler;
    var out := OnMessage(SlotOf(a, n, sid), e, sid, m);
    SlotsLogs(a, n1, sid);
    CommitLogs(n1, n, sid, out);
    LogsThen(a, n1, Commit(n1, n, sid, out), sid);
    SlotsLogs(Commit(n1, n, sid, out), Ack(Commit(n1, n, sid, out), e.link), sid) by { CommitLength(n1, n, sid, out); }
    CommitLength(n1, n, sid, out);
    LogsThen(a, Commit(n1, n, sid, out), Ack(Commit(n1, n, sid, out), e.link), sid);
  }

  lemma CommitLength(a: Net, n: NodeId, sid: Sid, out: Outcome)
    ensures |Commit(a, n, sid, out).links| == |a.links|
  {}

  lemma FaultLogs(a: Net, e: End)
    requires WellFormed(a) && EnabledRelay(a, Fault(e))
    ensures LogsKept(a, DoFault(a, e), a.links[e.link].sid)
  {
    var sid, n := a.links[e.link].sid, OwnerOf(a, e);
    assert LinkOk(a.links[e.link]);
    var n1 := a.(links := a.links[e.link := WithEnd(a.links[e.link], e.opener, StateOf(a, e).(handler := Stopped))]);
    hide Commit, WellFormed, LinkOk, LogsKept;
    var out := OnError(SlotOf(a, n, sid), e);
    SlotsLogs(a, n1, sid);
    CommitLogs(n1, n, sid, out);
    LogsThen(a, n1, Commit(n1, n, sid, out), sid);
  }

  lemma StoreLogs(a: Net, n: NodeId, sid: Sid, e: End)
    ensures LogsKept(a, DoStore(a, n, sid, e), sid)
  {}

  /** Only a data message that is read enters a log. */
  lemma RelayLogs(a: Net, st: Step)
    requires WellFormed(a) && IsRelayStep(st) && EnabledRelay(a, st) && !st.Send? && (st.Deliver? ==> !st.msg.Data?)
    ensures LogsKept(a, DoRelay(a, st), StepSid(a, st))
  {
    hide WellFormed, DoDeliver, DoFault, Close;
    match st
    case Deliver(e, m) => DeliverLogs(a, e, m);
    case Fault(e) => FaultLogs(a, e);
    case ClientClose(n, sid) =>
      CloseLogs(a, n, sid);
    case Store(n, sid, e) => StoreLogs(a, n, sid, e);
    case _ =>
  }

  /** Without a Success there is nothing to send with and nothing to receive. */
  lemma SilentUntilSuccess(a: Net, st: Step)
    requires WellFormed(a) && IsRelayStep(st) && EnabledRelay(a, st) && Sound(a, StepSid(a, st))
             && a.emitted[StepSid(a, st)] == 0
    ensures !st.Send? && (st.Deliver? ==> !st.msg.Data?)
  {
    hide Topology;
    if st.Deliver? {
      var sid := a.links[st.end.link].sid;
      assert InPlace(a.ctls[sid], PlanOf(a, a.ctls[sid]).Rerouted(), false, st.end.link, st.end.opener, st.msg);
    }
  }

  lemma SilentStep(a: Net, st: Step)
    requires WellFormed(a) && Enabled(a, st) && !st.Dial? && Sound(a, StepSid(a, st))
    requires var sid := StepSid(a, st);
             Flowing(a, sid) && a.emitted[sid] == 0 && Do(a, st).emitted[sid] == 0 && sid in Do(a, st).ctls
    ensures Flowing(Do(a, st), StepSid(a, st))
  {
    if IsRelayStep(st) { SilentUntilSuccess(a, st); }
    hide WellFormed, Sound, DoTask, DoRelay;
    if IsRelayStep(st) { RelayLogs(a, st); } else { TaskLogs(a, st); }
  }

  // ---- the first Success -------------------------------------------------------------------------

  lemma {:induction false} NoneInFlight(links: seq<Link>, hops: seq<Hop>, m: Message)
    requires forall i :: 0 <= i < |hops| ==>
                 hops[i].link < |links| && EndOf(links[hops[i].link], !hops[i].forward).inbox[m] == 0
    ensures InFlight(links, hops, m) == 0
  {
    if hops != [] { NoneInFlight(links, hops[1..], m); }
  }

  /** Before the Success no inbox of the session id has a success or a data message. */
  lemma NoCargoYet(a: Net, sid: Sid, hops: seq<Hop>)
    requires Strung(a, sid, hops) && Mail(a, sid) && a.emitted[sid] == 0
    ensures forall i, m :: 0 <= i < |hops| && IsCargo(m) ==> StateOf(a, RightEnd(hops[i])).inbox[m] == 0
  {
    var k := a.ctls[sid];
    forall i, m | 0 <= i < |hops| && IsCargo(m) ensures StateOf(a, RightEnd(hops[i])).inbox[m] == 0 {
      var e := RightEnd(hops[i]);
      assert !InPlace(k, PlanOf(a, k).Rerouted(), false, e.link, e.opener, m);
    }
  }

  lemma QuietDirection(a: Net, sid: Sid, hops: seq<Hop>)
    requires Strung(a, sid, hops) && Mail(a, sid) && a.emitted[sid] == 0 && LogsEmpty(a, sid)
    requires forall n :: a.started[(n, sid)] == 0
    ensures Flows(a, sid, hops)
  {
    hide Mail;
    NoCargoYet(a, sid, hops);
    forall m | IsCargo(m) ensures InFlight(a.links, hops, m) == 0 {
      assert forall i :: 0 <= i < |hops| ==>
                 StateOf(a, RightEnd(hops[i])) == EndOf(a.links[hops[i].link], !hops[i].forward);
      NoneInFlight(a.links, hops, m);
    }
    hide InFlight;
    assert NothingLogged(SlotOf(a, NodeAt(a, hops, 0), sid).circuit)
           && NothingLogged(SlotOf(a, NodeAt(a, hops, |hops|), sid).circuit);
  }

  /** A complete circuit on which nothing has been sent conserves trivially. */
  lemma QuietCircuit(a: Net, sid: Sid)
    requires WellFormed(a) && ReadyToEmit(a, sid) && LogsEmpty(a, sid)
    ensures FlowsBothWays(a, sid, Path(a, sid))
  {
    FinishedIsChain(a, sid);
    var hops := Path(a, sid);
    EndsFlipped(a, sid, hops);
    assert forall n :: a.started[(n, sid)] == 0;
    hide IsChain, PathOf, Topology, LogsEmpty, Mail, Tally;
    QuietDirection(a, sid, hops);
    QuietDirection(a, sid, Flip(hops));
  }

  /** The node in the middle originates the Success on a complete, silent circuit. */
  lemma EmissionFlows(a: Net, sid: Sid, i: nat)
    requires WellFormed(a) && ReadyToEmit(a, sid) && LogsEmpty(a, sid) && 0 < i < |Path(a, sid)|
    ensures |NodesOf(PlanOf(a, a.ctls[sid]))| == |Path(a, sid)| + 1
    ensures Flowing(SendBothWays(a, NodesOf(PlanOf(a, a.ctls[sid]))[i], sid, Success(sid)), sid)
  {
    var n := NodesOf(PlanOf(a, a.ctls[sid]))[i];
    var b := SendBothWays(a, n, sid, Success(sid));
    var hops := Path(a, sid);
    assert sid in a.ctls && Topology(a, sid) && PlanOf(a, a.ctls[sid]).Complete();
    hide Sound, PathOf, PlanOf, IsChain, FlowsBothWays, LogsEmpty, NodesOf, ReadyToEmit, WellFormed, Commit, Topology,
         TwoWay;
    QuietCircuit(a, sid);
    FinishedIsChain(a, sid);
    SuccessCount(a, n, sid);
    EmitWrites(a, sid, hops, i, Success(sid));
    CommitHistory(a, n, sid, TwoWay(SlotOf(a, n, sid), Success(sid)));
    assert b.emitted[sid] > 0 && b.ctls == a.ctls;
    assert NodeAt(a, hops, i) == n;
    hide *;
    EmitBothWays(a, sid, hops, i);
    IntoFlowing(a, b, sid);
  }

  lemma IntoFlowing(a: Net, b: Net, sid: Sid)
    requires sid in a.ctls && b.ctls == a.ctls && PlanOf(b, a.ctls[sid]) == PlanOf(a, a.ctls[sid]) && b.emitted[sid] > 0
    requires FlowsBothWays(b, sid, Path(a, sid))
    ensures Flowing(b, sid)
  {
    hide PlanOf, PathOf, FlowsBothWays;
  }

  lemma SameLogs(a: Net, b: Net, sid: Sid)
    requires LogsEmpty(a, sid) && LogsKept(a, b, sid)
    ensures LogsEmpty(b, sid)
  {}

  lemma FirstByTask(a: Net, st: Step)
    requires WellFormed(a) && !IsRelayStep(st) && !st.Dial? && EnabledTask(a, st) && Sound(a, st.sid)
    requires a.emitted[st.sid] == 0 && DoTask(a, st).emitted[st.sid] > 0 && LogsEmpty(a, st.sid)
    ensures Flowing(DoTask(a, st), st.sid)
  {
    hide DoTask, Flowing, SlotOf, ControlOk;
    var sid := st.sid;
    var k := a.ctls[sid];
    OnlyTheseEmit(a, st);
    assert k.join.Some? ==> LinkFrom(a.links, sid, k.join, k.entry);
    assert k.reach.Some? ==> LinkFrom(a.links, sid, k.reach, k.home);
    assert ControlOk(a.links, sid, k);
    hide Sound, LogsEmpty, EnabledTask;
    match st
    case JoinAttach(_) =>
      JoinAttached(a, sid);
      assert EnabledTask(a, st);
      FirstAtEntry(a, sid);
    case ReachAttach(_) =>
      FirstAtHome(a, sid);
    case CmdReady(_) =>
      FirstAtRelay(a, sid);
    case _ =>
  }

  lemma OnlyTheseEmit(a: Net, st: Step)
    requires !IsRelayStep(st) && !st.Dial? && EnabledTask(a, st) && DoTask(a, st).emitted[st.sid] > a.emitted[st.sid]
    ensures st.JoinAttach? || st.ReachAttach? || st.CmdReady?
  {
    hide Post, Shut, SlotOf, HalfOpen, NewLink;
  }

  /** The node that originates the Success, by the overlap of roles. */
  lemma MiddleNodes(p: Plan)
    ensures |NodesOf(p)| == |PathOf(p)| + 1
    ensures p.EntryIsHome() ==> |PathOf(p)| > 1 && NodesOf(p)[1] == p.entry
    ensures p.SinkIsHome() ==> |PathOf(p)| > 2 && NodesOf(p)[2] == p.home
    ensures !p.EntryIsHome() && !p.SinkIsHome() && p.RelayIsEntry() ==> |PathOf(p)| > 1 && NodesOf(p)[1] == p.entry
    ensures !p.EntryIsHome() && !p.SinkIsHome() && !p.RelayIsEntry() ==>
            |PathOf(p)| > 2 && NodesOf(p)[2] == p.join.acceptor
  {}

  lemma FirstAtEntry(a: Net, sid: Sid)
    requires WellFormed(a) && EnabledTask(a, JoinAttach(sid)) && Sound(a, sid)
    requires a.emitted[sid] == 0 && DoTask(a, JoinAttach(sid)).emitted[sid] > 0 && LogsEmpty(a, sid)
    ensures Flowing(DoTask(a, JoinAttach(sid)), sid)
  {
    AwaitedJoin(a, sid);
    assert !IsClientRole(Access);
    var k := a.ctls[sid];
    var b := AttachOpener(a, sid, k.join.value, Access);
    hide *;
    JoinAttached(a, sid);
    if k.home == k.entry {
      AttachedSilent(a, sid, k.join.value, Access);
      MiddleNodes(PlanOf(b, k));
      assert Path(b, sid) == PathOf(PlanOf(b, k)) by { PathIs(b, sid, k); }
      EmissionFlows(b, sid, 1);
    }
  }

  lemma AwaitedJoin(a: Net, sid: Sid)
    requires WellFormed(a) && EnabledTask(a, JoinAttach(sid))
    ensures var k := a.ctls[sid];
            && k.join.Some? && k.join.value < |a.links| && a.links[k.join.value].sid == sid
            && a.links[k.join.value].acked && !Attached(a, k.join.value)
            && (k.home != k.entry ==> DoTask(a, JoinAttach(sid)).emitted == a.emitted)
    ensures var k := a.ctls[sid];
            var b := AttachOpener(a, sid, k.join.value, Access);
            PlanOf(b, k).entry == k.entry
  {
    assert ControlOk(a.links, sid, a.ctls[sid]);
    hide SendBothWays;
  }

  /** The network after an attaching step is as well-formed and silent as before. */
  lemma AttachedSilent(a: Net, sid: Sid, link: LinkId, role: Role)
    requires WellFormed(a) && link < |a.links| && a.links[link].sid == sid && LogsEmpty(a, sid)
    requires a.links[link].acked && !Attached(a, link) && !IsClientRole(role)
    ensures WellFormed(AttachOpener(a, sid, link, role)) && LogsEmpty(AttachOpener(a, sid, link, role), sid)
  {
    hide LogsEmpty, WellFormed;
    AttachIsolated(a, sid, link, role);
    AttachLogs(a, sid, link, role);
    SameLogs(a, AttachOpener(a, sid, link, role), sid);
  }

  lemma AwaitedReach(a: Net, sid: Sid)
    requires WellFormed(a) && EnabledTask(a, ReachAttach(sid))
    ensures var k := a.ctls[sid];
            && k.reach.Some? && k.reach.value < |a.links| && a.links[k.reach.value].sid == sid
            && a.links[k.reach.value].acked && !Attached(a, k.reach.value)
    ensures var k := a.ctls[sid];
            var b := AttachOpener(a, sid, k.reach.value, Access);
            b.emitted == a.emitted && PlanOf(b, k).home == k.home
  {
    assert ControlOk(a.links, sid, a.ctls[sid]);
  }

  lemma FirstAtHome(a: Net, sid: Sid)
    requires WellFormed(a) && EnabledTask(a, ReachAttach(sid)) && Sound(a, sid)
    requires a.emitted[sid] == 0 && DoTask(a, ReachAttach(sid)).emitted[sid] > 0 && LogsEmpty(a, sid)
    ensures Flowing(DoTask(a, ReachAttach(sid)), sid)
  {
    hide Topology, WellFormed;
    AwaitedReach(a, sid);
    assert !IsClientRole(Access);
    var k := a.ctls[sid];
    var b := AttachOpener(a, sid, k.reach.value, Access);
    hide *;
    ReachAttached(a, sid);
    AttachedSilent(a, sid, k.reach.value, Access);
    MiddleNodes(PlanOf(b, k));
    if PlanOf(b, k).SinkIsHome() {
      assert Path(b, sid) == PathOf(PlanOf(b, k)) by { PathIs(b, sid, k); }
      EmissionFlows(b, sid, 2);
    }
  }

  lemma PathIs(a: Net, sid: Sid, k: Control)
    requires sid in a.ctls && a.ctls[sid] == k
    ensures Path(a, sid) == PathOf(PlanOf(a, k))
  {}

  lemma FirstAtRelay(a: Net, sid: Sid)
    requires WellFormed(a) && EnabledTask(a, CmdReady(sid)) && Sound(a, sid) && LogsEmpty(a, sid)
    ensures Flowing(DoTask(a, CmdReady(sid)), sid)
  {
    var k := a.ctls[sid];
    var j := k.(cmd := Replied(true));
    var b := WithControl(a, sid, j);
    CmdReadied(a, sid);
    assert ControlOk(a.links, sid, j) by { assert ControlOk(a.links, sid, k); }
    assert PlanOf(b, j).entry == k.entry && PlanOf(b, j).home == k.home && b.ctls[sid] == j;
    MiddleNodes(PlanOf(b, j));
    hide Sound, DoTask, PathOf, NodesOf, PlanOf, Flowing, ReadyToEmit, WellFormed, EnabledTask, ControlOk;
    ControlIsolated(a, sid, j);
    SlotsLogs(a, b, sid);
    SameLogs(a, b, sid);
    hide WithControl, LogsEmpty;
    EmissionFlows(b, sid, 1);
  }

  lemma TakenSilent(a: Net, e: End, sid: Sid)
    requires WellFormed(a) && EnabledRelay(a, Deliver(e, OwnProbe(sid))) && Sound(a, sid) && a.links[e.link].sid == sid
    requires LogsEmpty(a, sid)
    ensures var b := Take(a, e, OwnProbe(sid), StateOf(a, e).handler);
            && WellFormed(b) && Sound(b, sid) && LogsEmpty(b, sid) && b.emitted == a.emitted && b.ctls == a.ctls
            && PlanOf(b, a.ctls[sid]) == PlanOf(a, a.ctls[sid])
            && SlotOf(b, OwnerOf(a, e), sid) == SlotOf(a, OwnerOf(a, e), sid)
  {
    var m := OwnProbe(sid);
    var b := Take(a, e, m, StateOf(a, e).handler);
    TrafficPlans(a, e, m);
    TrafficStep(a, e, m);
    TakenSound(a, e, m);
    TakingKeepsShape(a, e, m, sid);
    TakeIsolated(a, e, m);
    SlotsLogs(a, b, sid);
    SameLogs(a, b, sid);
    assert NextHandler(m, StateOf(a, e).handler.sid) == StateOf(a, e).handler;
    hide LogsEmpty, DoDeliver, ShapeKept, Topology, Mail, Tally, WellFormed, PlanOf, EndOk, SlotOk, OnMessage;
    ShapeTopology(a, b, sid);
  }

  lemma FirstAtSink(a: Net, e: End, sid: Sid)
    requires WellFormed(a) && EnabledRelay(a, Deliver(e, OwnProbe(sid))) && Sound(a, sid) && a.links[e.link].sid == sid
    requires OnProbe(SlotOf(a, OwnerOf(a, e), sid), e, sid, OwnProbe(sid)).emits && LogsEmpty(a, sid)
    ensures Flowing(DoDeliver(a, e, OwnProbe(sid)), sid)
  {
    var b := Take(a, e, OwnProbe(sid), StateOf(a, e).handler);
    hide *;
    SinkEmits(a, e, sid);
    MiddleNodes(PlanOf(b, b.ctls[sid]));
    assert Path(b, sid) == PathOf(PlanOf(b, b.ctls[sid])) by { PathIs(b, sid, b.ctls[sid]); }
    EmissionFlows(b, sid, 2);
  }

  /** The sink's Success is sent both ways from a complete, silent circuit. */
  lemma SinkEmits(a: Net, e: End, sid: Sid)
    requires WellFormed(a) && EnabledRelay(a, Deliver(e, OwnProbe(sid))) && Sound(a, sid) && a.links[e.link].sid == sid
    requires OnProbe(SlotOf(a, OwnerOf(a, e), sid), e, sid, OwnProbe(sid)).emits && LogsEmpty(a, sid)
    ensures var b := Take(a, e, OwnProbe(sid), StateOf(a, e).handler);
            && WellFormed(b) && ReadyToEmit(b, sid) && LogsEmpty(b, sid) && sid in b.ctls
            && var p := PlanOf(b, b.ctls[sid]);
            && p.Spread() && !p.EntryIsHome() && !p.SinkIsHome() && !p.RelayIsEntry()
            && DoDeliver(a, e, OwnProbe(sid)) == SendBothWays(b, p.join.acceptor, sid, Success(sid))
  {
    hide Sound;
    var m, n := OwnProbe(sid), OwnerOf(a, e);
    assert sid in a.ctls;
    hide LogsEmpty, DoDeliver, WellFormed, OnProbe, PlanOf, Take, Commit, TwoWay;
    ProbeEmits(a, e, sid);
    TrafficPlans(a, e, m);
    ProbeOutcome(SlotOf(a, n, sid), e, sid);
    TakenSilent(a, e, sid);
  }

  // ---- after the first Success -------------------------------------------------------------------

  /** The clients sit at the ends of the path. */
  lemma PathEnds(a: Net, sid: Sid)
    requires WellFormed(a) && Topology(a, sid) && PlanOf(a, a.ctls[sid]).Complete()
    ensures var hops := Path(a, sid);
            && IsChain(a, sid, hops)
            && NodeAt(a, hops, 0) in a.clients && NodeAt(a, hops, |hops|) in a.clients
  {
    FinishedIsChain(a, sid);
    hide WellFormed, IsChain, NodeAt;
  }

  lemma SameNodes(a: Net, b: Net, sid: Sid)
    requires WellFormed(a) && WellFormed(b) && Topology(a, sid) && Topology(b, sid)
    requires PlanOf(a, a.ctls[sid]).Complete() && PlanOf(b, b.ctls[sid]) == PlanOf(a, a.ctls[sid])
    ensures IsChain(a, sid, Path(a, sid)) && IsChain(b, sid, Path(a, sid))
    ensures forall i :: 0 <= i <= |Path(a, sid)| ==> NodeAt(b, Path(a, sid), i) == NodeAt(a, Path(a, sid), i)
  {
    FinishedIsChain(a, sid);
    FinishedIsChain(b, sid);
    hide WellFormed, Topology, PathOf, NodesOf, PlanOf, IsChain, NodeAt;
  }

  /** The step leaves the plan, the cargo on the path, the circuit entries and the history alone. */
  ghost predicate NoCargoMoved(a: Net, b: Net, sid: Sid) {
    && sid in a.ctls && sid in b.ctls && PlanOf(b, b.ctls[sid]) == PlanOf(a, a.ctls[sid])
    && SameCargo(a.links, b.links, Path(a, sid))
    && b.emitted[sid] == a.emitted[sid] && (forall n :: b.started[(n, sid)] == a.started[(n, sid)])
    && (forall n :: n in a.clients ==> SlotOf(b, n, sid).circuit == SlotOf(a, n, sid).circuit)
  }

  ghost predicate Finished(a: Net, sid: Sid) {
    WellFormed(a) && Topology(a, sid) && PlanOf(a, a.ctls[sid]).Complete()
  }

  /** A step that leaves the path and its cargo alone. */
  lemma QuietStep(a: Net, b: Net, sid: Sid)
    requires Finished(a, sid) && WellFormed(b) && Topology(b, sid) && Flowing(a, sid) && a.emitted[sid] > 0
    requires NoCargoMoved(a, b, sid)
    ensures Flowing(b, sid)
  {
    PathEnds(a, sid);
    assert sid in b.ctls && Path(b, sid) == Path(a, sid);
    hide WellFormed, Topology, PathOf, NodesOf, PlanOf, IsChain, FlowsBothWays, SameCargo, NodeAt;
    SameNodes(a, b, sid);
    StillBothWays(a, b, sid, Path(a, sid));
  }

  /** The streams of the path exist. */
  lemma PathKnown(a: Net, sid: Sid)
    requires Finished(a, sid)
    ensures forall i :: 0 <= i < |Path(a, sid)| ==> Path(a, sid)[i].link < |a.links|
  {
    FinishedIsChain(a, sid);
    hide PathOf;
  }

  lemma PostSameCargo(links: seq<Link>, hops: seq<Hop>, w: Option<Write>)
    requires forall i :: 0 <= i < |hops| ==> hops[i].link < |links|
    requires w.Some? ==> !IsCargo(w.value.msg)
    ensures SameCargo(links, Post(links, w), hops)
  {}

  lemma CommitSameCargo(a: Net, n: NodeId, sid: Sid, out: Outcome, hops: seq<Hop>)
    requires forall i :: 0 <= i < |hops| ==> hops[i].link < |a.links|
    requires (out.first.Some? ==> !IsCargo(out.first.value.msg))
             && (out.second.Some? ==> !IsCargo(out.second.value.msg))
    requires out.shut1.None? && out.shut2.None?
    ensures SameCargo(a.links, Commit(a, n, sid, out).links, hops)
  {
    PostSameCargo(a.links, hops, out.first);
    PostSameCargo(Post(a.links, out.first), hops, out.second);
    hide Post;
  }

  /** After the first Success the tasks have only probes left to send. */
  lemma OnlyProbesLeft(a: Net, st: Step)
    requires !IsRelayStep(st) && !st.Dial? && EnabledTask(a, st) && Sound(a, st.sid) && a.emitted[st.sid] > 0
    requires st.sid !in DoTask(a, st).broken
    ensures st.sid in a.ctls && (st.ProbeFromEntry? || (st.ExpandReply? && a.ctls[st.sid].cmd == Replied(true)))
  {
    var sid := st.sid;
    var k := a.ctls[sid];
    var p := PlanOf(a, k);
    assert InOrder(a.clients, p, k) && p.Complete() && (p.RelayIsEntry() ==> k.cmd.Replied?);
    FinishedLegs(a.clients, p, k);
    if st.CmdReady? || st.BridgeOpen? || st.CmdRefuse? { RelayOf(a, sid); }
    assert k.join.Some? && k.dial < |a.links| && k.join.value < |a.links|;
    hide SlotsAsCalled, LinksAsCalled, SinkWillClose, Streams, Mail, Tally, Called, HalfOpen;
  }

  /** A probe sent after the first Success. */
  lemma ProbeStep(a: Net, b: Net, sid: Sid, j: Control, n: NodeId)
    requires sid in a.ctls && SameStreams(a.ctls[sid], j)
             && b == SendBothWays(WithControl(a, sid, j), n, sid, OwnProbe(sid))
    requires forall i :: 0 <= i < |Path(a, sid)| ==> Path(a, sid)[i].link < |a.links|
    ensures NoCargoMoved(a, b, sid)
  {
    var n1 := WithControl(a, sid, j);
    var out := TwoWay(SlotOf(a, n, sid), OwnProbe(sid));
    assert SlotOf(n1, n, sid) == SlotOf(a, n, sid);
    CommitSameCargo(n1, n, sid, out, Path(a, sid));
    CommitKeepsShape(n1, n, sid, out);
    ShapeKeepsPlan(n1, b, sid);
    ControlCount(a, sid, j);
    hide PathOf, PlanOf, ShapeKept, SameCargo, Post, ProbesOut;
  }

  lemma ProbeTask(a: Net, st: Step)
    requires st.ProbeFromEntry? || (st.ExpandReply? && st.sid in a.ctls && a.ctls[st.sid].cmd == Replied(true))
    requires EnabledTask(a, st)
    requires forall i :: 0 <= i < |Path(a, st.sid)| ==> Path(a, st.sid)[i].link < |a.links|
    ensures NoCargoMoved(a, DoTask(a, st), st.sid)
  {
    var sid := st.sid;
    var k := a.ctls[sid];
    hide NoCargoMoved, PathOf, PlanOf, SendBothWays;
    if st.ProbeFromEntry? {
      ProbeStep(a, DoTask(a, st), sid, k.(probedE := true), k.entry);
    } else {
      ProbeStep(a, DoTask(a, st), sid, k.(probedA := true), k.home);
    }
  }

  lemma TaskFlows(a: Net, st: Step)
    requires !IsRelayStep(st) && !st.Dial? && EnabledTask(a, st) && Sound(a, st.sid) && Flowing(a, st.sid)
    requires a.emitted[st.sid] > 0 && st.sid !in DoTask(a, st).broken && Finished(a, st.sid)
    requires WellFormed(DoTask(a, st)) && Topology(DoTask(a, st), st.sid)
    ensures Flowing(DoTask(a, st), st.sid)
  {
    hide *;
    OnlyProbesLeft(a, st);
    PathKnown(a, st.sid);
    ProbeTask(a, st);
    QuietStep(a, DoTask(a, st), st.sid);
  }

  lemma TakenCargo(a: Net, e: End, m: Message, h: Handler, hops: seq<Hop>)
    requires Known(a, e) && m in StateOf(a, e).inbox && !IsCargo(m) && forall i :: 0 <= i < |hops| ==>
             hops[i].link < |a.links|
    ensures SameCargo(a.links, Take(a, e, m, h).links, hops)
  {}

  lemma CargoThen(a: seq<Link>, b: seq<Link>, c: seq<Link>, hops: seq<Hop>)
    requires SameCargo(a, b, hops) && SameCargo(b, c, hops)
    ensures SameCargo(a, c, hops)
  {}

  /** A probe that is stored or passed on. */
  lemma PassedProbe(a: Net, e: End, sid: Sid)
    requires WellFormed(a) && EnabledRelay(a, Deliver(e, OwnProbe(sid))) && Sound(a, sid) && a.links[e.link].sid == sid
    requires a.emitted[sid] > 0 && sid in a.ctls
    requires forall i :: 0 <= i < |Path(a, sid)| ==> Path(a, sid)[i].link < |a.links|
    ensures NoCargoMoved(a, DoDeliver(a, e, OwnProbe(sid)), sid)
  {
    var m := OwnProbe(sid);
    hide *;
    PassedOutcome(a, e, sid);
    var out := OnProbe(SlotOf(a, OwnerOf(a, e), sid), e, sid, m);
    var b := DoDeliver(a, e, m);
    PassedOn(a, b, e, m, sid, out);
    IntoNoCargo(a, b, sid);
  }

  /** After the first Success a probe is stored, dropped or passed on. */
  lemma PassedOutcome(a: Net, e: End, sid: Sid)
    requires WellFormed(a) && EnabledRelay(a, Deliver(e, OwnProbe(sid))) && Sound(a, sid) && a.links[e.link].sid == sid
    requires a.emitted[sid] > 0 && sid in a.ctls
    ensures var out := OnProbe(SlotOf(a, OwnerOf(a, e), sid), e, sid, OwnProbe(sid));
            var b := DoDeliver(a, e, OwnProbe(sid));
            && b == Commit(Take(a, e, OwnProbe(sid), StateOf(a, e).handler), OwnerOf(a, e), sid, out)
            && b.ctls == a.ctls && PlanOf(b, a.ctls[sid]) == PlanOf(a, a.ctls[sid])
            && out.slot.circuit == SlotOf(a, OwnerOf(a, e), sid).circuit && !out.emits && !out.starts
            && (out.first.Some? ==> !IsCargo(out.first.value.msg))
               && (out.second.Some? ==> !IsCargo(out.second.value.msg))
            && out.shut1.None? && out.shut2.None?
    ensures OwnProbe(sid).Probe? && Known(a, e) && OwnProbe(sid) in StateOf(a, e).inbox && !IsCargo(OwnProbe(sid))
  {
    hide Sound;
    var s := SlotOf(a, OwnerOf(a, e), sid);
    assert OwnProbe(sid).Probe? && Known(a, e) && OwnProbe(sid) in StateOf(a, e).inbox;
    assert !IsCargo(OwnProbe(sid)) && IsTraffic(OwnProbe(sid));
    hide *;
    TrafficPlans(a, e, OwnProbe(sid));
    ReadIsProbe(s, e, sid, OwnProbe(sid));
    if OnProbe(s, e, sid, OwnProbe(sid)).emits { ProbeEmits(a, e, sid); }
    ProbeOutcome(s, e, sid);
    ProbeWrites(s, e, sid);
  }

  lemma PassedOn(a: Net, b: Net, e: End, m: Message, sid: Sid, out: Outcome)
    requires Known(a, e) && m in StateOf(a, e).inbox && !IsCargo(m) && a.links[e.link].sid == sid && sid in a.ctls
    requires out.slot.circuit == SlotOf(a, OwnerOf(a, e), sid).circuit && !out.emits && !out.starts
    requires (out.first.Some? ==> !IsCargo(out.first.value.msg))
             && (out.second.Some? ==> !IsCargo(out.second.value.msg))
    requires out.shut1.None? && out.shut2.None?
    requires forall i :: 0 <= i < |Path(a, sid)| ==> Path(a, sid)[i].link < |a.links|
    requires b == Commit(Take(a, e, m, StateOf(a, e).handler), OwnerOf(a, e), sid, out)
    ensures SameCargo(a.links, b.links, Path(a, sid)) && b.emitted == a.emitted && b.started == a.started
            && b.ctls == a.ctls
            && forall x :: SlotOf(b, x, sid).circuit == SlotOf(a, x, sid).circuit
  {
    var n1, n, hops := Take(a, e, m, StateOf(a, e).handler), OwnerOf(a, e), Path(a, sid);
    TakenCargo(a, e, m, StateOf(a, e).handler, hops);
    TakeOnlyLinks(a, e, m, StateOf(a, e).handler);
    hide Take, PlanOf, PathOf, IsCargo;
    CommitSameCargo(n1, n, sid, out, hops);
    CommitCircuits(n1, n, sid, out);
    hide SameCargo;
    CargoThen(a.links, n1.links, Commit(n1, n, sid, out).links, hops);
  }

  lemma IntoNoCargo(a: Net, b: Net, sid: Sid)
    requires sid in a.ctls && b.ctls == a.ctls && PlanOf(b, a.ctls[sid]) == PlanOf(a, a.ctls[sid])
    requires SameCargo(a.links, b.links, Path(a, sid)) && b.emitted == a.emitted && b.started == a.started
    requires forall n :: SlotOf(b, n, sid).circuit == SlotOf(a, n, sid).circuit
    ensures NoCargoMoved(a, b, sid)
  {
    hide PlanOf, SameCargo, PathOf, SlotOf;
  }

  lemma CommitCircuits(a: Net, n: NodeId, sid: Sid, out: Outcome)
    requires out.slot.circuit == SlotOf(a, n, sid).circuit && !out.emits && !out.starts
    ensures var b := Commit(a, n, sid, out);
            b.emitted == a.emitted && b.started == a.started
                && forall x :: SlotOf(b, x, sid).circuit == SlotOf(a, x, sid).circuit
  {}

  lemma ProbeWrites(s: Slot, e: End, sid: Sid)
    requires s.probe.Some? ==> s.probe.value == ProbeRand(sid)
    ensures var out := OnProbe(s, e, sid, OwnProbe(sid));
            && !out.starts && out.shut1.None? && out.shut2.None?
            && (!out.emits ==>
                  && (out.first.Some? ==> !IsCargo(out.first.value.msg))
                  && (out.second.Some? ==> !IsCargo(out.second.value.msg)))
  {}

  /** The dying stream to an abandoned sink is no part of the path. */
  lemma DyingFlows(a: Net, b: Net, sid: Sid, e: End)
    requires Finished(a, sid) && WellFormed(b) && Topology(b, sid) && Flowing(a, sid) && a.emitted[sid] > 0
    requires Dies(a, b, sid, e) && b.emitted == a.emitted && b.started == a.started
    ensures Flowing(b, sid)
  {
    assert NoCargoMoved(a, b, sid) by { DyingCargo(a, b, sid, e); }
    hide NoCargoMoved, Dies, Finished, WellFormed, Topology, Flowing;
    QuietStep(a, b, sid);
  }

  lemma DyingCargo(a: Net, b: Net, sid: Sid, e: End)
    requires Finished(a, sid) && Dies(a, b, sid, e) && b.emitted == a.emitted && b.started == a.started
    ensures NoCargoMoved(a, b, sid)
  {
    var k := a.ctls[sid];
    var p := PlanOf(a, k);
    hide WellFormed, PathOf, Topology;
    SinkIsServer(a, sid);
    assert PlanOf(b, k) == p && b.ctls == a.ctls && k.join == Some(e.link);
    PathKnown(a, sid);
    JoinOffPath(a, sid);
    hide PlanOf, Finished;
    DyingSame(a, b, sid, e, Path(a, sid));
    hide Dies, SameCargo;
  }

  lemma DyingSame(a: Net, b: Net, sid: Sid, e: End, hops: seq<Hop>)
    requires Dies(a, b, sid, e) && PlanOf(a, a.ctls[sid]).join.acceptor !in a.clients
    requires forall i :: 0 <= i < |hops| ==> hops[i].link < |a.links| && hops[i].link != e.link
    ensures SameCargo(a.links, b.links, hops)
    ensures forall n :: n in a.clients ==> SlotOf(b, n, sid).circuit == SlotOf(a, n, sid).circuit
  {
    hide PlanOf, HandshakeOk;
  }

  lemma SinkIsServer(a: Net, sid: Sid)
    requires Topology(a, sid) && PlanOf(a, a.ctls[sid]).Rerouted()
    ensures PlanOf(a, a.ctls[sid]).join.acceptor !in a.clients
  {
    hide SlotsAsCalled, LinksAsCalled, Streams, SinkWillClose;
  }

  lemma JoinOffPath(a: Net, sid: Sid)
    requires Topology(a, sid) && PlanOf(a, a.ctls[sid]).Complete() && PlanOf(a, a.ctls[sid]).Rerouted()
    ensures forall i :: 0 <= i < |Path(a, sid)| ==> Some(Path(a, sid)[i].link) != a.ctls[sid].join
  {
    LegIds(a, sid);
    FinishedLegs(a.clients, PlanOf(a, a.ctls[sid]), a.ctls[sid]);
  }

  /** After completion no set-session message is left to read. */
  lemma NothingToAccept(a: Net, e: End, m: Message)
    requires WellFormed(a) && EnabledRelay(a, Deliver(e, m)) && Topology(a, a.links[e.link].sid)
    requires PlanOf(a, a.ctls[a.links[e.link].sid]).Complete()
    ensures !m.SetSession?
  {
    if m.SetSession? {
      SetSessionIsFirst(a, e, m);
      FinishedLegs(a.clients, PlanOf(a, a.ctls[a.links[e.link].sid]), a.ctls[a.links[e.link].sid]);
    }
  }

  lemma TakeMovesNothing(a: Net, b: Net, e: End, m: Message, sid: Sid)
    requires Known(a, e) && m in StateOf(a, e).inbox && !IsCargo(m) && !m.SetSession? && sid in a.ctls
    requires forall i :: 0 <= i < |Path(a, sid)| ==> Path(a, sid)[i].link < |a.links|
    requires b == Take(a, e, m, StateOf(a, e).handler)
    ensures NoCargoMoved(a, b, sid)
  {
    TakingKeepsShape(a, e, m, sid);
    ShapeKeepsPlan(a, b, sid);
    TakenCargo(a, e, m, StateOf(a, e).handler, Path(a, sid));
    hide PlanOf, SameCargo, ShapeKept, PathOf;
  }

  lemma TakeStep(a: Net, b: Net, e: End, m: Message, sid: Sid)
    requires Known(a, e) && m in StateOf(a, e).inbox && !IsCargo(m) && !m.SetSession? && sid in a.ctls
    requires Finished(a, sid) && Flowing(a, sid) && a.emitted[sid] > 0
    requires b == Take(a, e, m, StateOf(a, e).handler) && WellFormed(b) && Topology(b, sid)
    ensures Flowing(b, sid)
  {
    hide *;
    PathKnown(a, sid);
    TakeMovesNothing(a, b, e, m, sid);
    QuietStep(a, b, sid);
  }

  lemma LoseFlows(a: Net, e: End, m: Message)
    requires EnabledRelay(a, Lose(e, m)) && Flowing(a, a.links[e.link].sid)
    requires a.emitted[a.links[e.link].sid] > 0 && Finished(a, a.links[e.link].sid)
    requires WellFormed(DoRelay(a, Lose(e, m))) && Topology(DoRelay(a, Lose(e, m)), a.links[e.link].sid)
    ensures Flowing(DoRelay(a, Lose(e, m)), a.links[e.link].sid)
  {
    var b := DoRelay(a, Lose(e, m));
    hide *;
    LosingStream(a, e, m);
    LoseDies(a, b, e, m);
    DyingFlows(a, b, a.links[e.link].sid, e);
  }

  /** Messages are lost only on the stream to an abandoned sink. */
  lemma LosingStream(a: Net, e: End, m: Message)
    requires EnabledRelay(a, Lose(e, m)) && Finished(a, a.links[e.link].sid)
    ensures var sid := a.links[e.link].sid;
            && sid in a.ctls && Dying(a.links[e.link]) && a.ctls[sid].join == Some(e.link)
            && PlanOf(a, a.ctls[sid]).Rerouted() && HandshakeOk(a.links[e.link], AskedRole(a.ctls[sid], e.link))
  {
    assert HandshakeOk(a.links[e.link], AskedRole(a.ctls[a.links[e.link].sid], e.link));
    hide WellFormed, SlotsAsCalled, InOrder, Streams;
  }

  lemma LoseDies(a: Net, b: Net, e: End, m: Message)
    requires EnabledRelay(a, Lose(e, m)) && Finished(a, a.links[e.link].sid)
    requires var sid := a.links[e.link].sid;
             && Dying(a.links[e.link]) && a.ctls[sid].join == Some(e.link) && PlanOf(a, a.ctls[sid]).Rerouted()
             && HandshakeOk(a.links[e.link], AskedRole(a.ctls[sid], e.link))
    requires b == DoRelay(a, Lose(e, m))
    ensures Dies(a, b, a.links[e.link].sid, e) && b.emitted == a.emitted && b.started == a.started
  {
    assert Carries(m, a.links[e.link].sid) by { assert LinkOk(a.links[e.link]); }
    assert a.links[e.link].sid in a.ctls;
    hide Finished;
    LosingDies(a, b, e, m, a.links[e.link].sid);
  }

  lemma LosingDies(a: Net, b: Net, e: End, m: Message, sid: Sid)
    requires Known(a, e) && a.links[e.link].sid == sid && sid in a.ctls && Carries(m, sid) && m in StateOf(a, e).inbox
    requires Dying(a.links[e.link]) && a.ctls[sid].join == Some(e.link) && PlanOf(a, a.ctls[sid]).Rerouted()
    requires HandshakeOk(a.links[e.link], AskedRole(a.ctls[sid], e.link))
    requires b == Take(a, e, m, StateOf(a, e).handler)
    ensures Dies(a, b, sid, e)
  {
    hide PlanOf;
    assert forall r :: StateOf(a, e).inbox[SetSession(sid, r)] == 0;
    assert !m.SetSession?;
    assert forall n :: SlotOf(b, n, sid) == SlotOf(a, n, sid);
    assert HandshakeOk(b.links[e.link], AskedRole(a.ctls[sid], e.link));
  }

  lemma DeliverFlows(a: Net, e: End, m: Message)
    requires EnabledRelay(a, Deliver(e, m)) && Sound(a, a.links[e.link].sid) && Flowing(a, a.links[e.link].sid)
    requires a.emitted[a.links[e.link].sid] > 0 && Finished(a, a.links[e.link].sid)
    requires WellFormed(DoDeliver(a, e, m)) && Topology(DoDeliver(a, e, m), a.links[e.link].sid)
    ensures Flowing(DoDeliver(a, e, m), a.links[e.link].sid)
  {
    var sid, b := a.links[e.link].sid, DoDeliver(a, e, m);
    assert WellFormed(a) && Topology(a, sid) && Mail(a, sid);
    NothingToAccept(a, e, m);
    PathKnown(a, sid);
    hide WellFormed, Topology, Mail, Tally, Flowing, PathOf, PlanOf, DoDeliver, Dies, Finished, NoCargoMoved;
    if IsCargo(m) {
      CargoStep(a, e, m);
    } else if m.Probe? {
      TrafficStep(a, e, m);
      PassedProbe(a, e, sid);
      QuietStep(a, b, sid);
    } else if m.Disconnect? {
      DisconnectDies(a, e, m);
      DyingFlows(a, b, sid, e);
    } else {
      WakeIsTaken(a, e);
      TakeStep(a, b, e, m, sid);
    }
  }

  lemma FinishedFacts(a: Net, sid: Sid)
    requires Finished(a, sid)
    ensures WellFormed(a) && Topology(a, sid)
  {}

  lemma FaultFlows(a: Net, e: End)
    requires EnabledRelay(a, Fault(e)) && Flowing(a, a.links[e.link].sid)
    requires a.emitted[a.links[e.link].sid] > 0 && Finished(a, a.links[e.link].sid)
    requires WellFormed(DoFault(a, e)) && Topology(DoFault(a, e), a.links[e.link].sid)
    ensures Flowing(DoFault(a, e), a.links[e.link].sid)
  {
    var sid := a.links[e.link].sid;
    assert WellFormed(a) && Topology(a, sid);
    hide WellFormed, Topology, Flowing, DoFault, Dies, Finished;
    FaultDies(a, e);
    DyingFlows(a, DoFault(a, e), sid, e);
  }

  lemma RelayFlows(a: Net, st: Step)
    requires IsRelayStep(st) && EnabledRelay(a, st) && Sound(a, StepSid(a, st)) && Flowing(a, StepSid(a, st))
    requires a.emitted[StepSid(a, st)] > 0 && StepSid(a, st) !in DoRelay(a, st).broken && Finished(a, StepSid(a, st))
    requires WellFormed(DoRelay(a, st)) && Topology(DoRelay(a, st), StepSid(a, st))
    ensures Flowing(DoRelay(a, st), StepSid(a, st))
  {
    hide WellFormed, Topology, Sound, Flowing, DoDeliver, DoFault, DoSend, Dies, Finished, Take, Close, StateOf;
    match st
    case Deliver(e, m) => DeliverFlows(a, e, m);
    case Fault(e) => FaultFlows(a, e);
    case Lose(e, m) => LoseFlows(a, e, m);
    case Send(n, sid, payload) => FinishedFacts(a, sid); SendStep(a, n, sid, payload);
    case Store(n, sid, e) => StoreIsIdle(a, n, sid, e);
    case _ =>
  }

  lemma CargoStep(a: Net, e: End, m: Message)
    requires WellFormed(a) && EnabledRelay(a, Deliver(e, m)) && IsCargo(m)
    requires Flowing(a, a.links[e.link].sid) && a.emitted[a.links[e.link].sid] > 0
    ensures Flowing(DoDeliver(a, e, m), a.links[e.link].sid)
  {
    var sid := a.links[e.link].sid;
    TrafficPlans(a, e, m);
    TrafficStep(a, e, m);
    CargoShape(SlotOf(a, OwnerOf(a, e), sid), e, sid, m);
    hide WellFormed, PathOf, PlanOf, FlowsBothWays, DoDeliver, OnMessage;
    CargoFlowsBothWays(a, e, m, Path(a, sid));
  }

  lemma SendStep(a: Net, n: NodeId, sid: Sid, payload: Payload)
    requires WellFormed(a) && EnabledRelay(a, Send(n, sid, payload)) && Flowing(a, sid) && a.emitted[sid] > 0
    ensures Flowing(DoSend(a, n, sid, payload), sid)
  {
    SendKeepsShape(a, n, sid, payload);
    ShapeKeepsPlan(a, DoSend(a, n, sid, payload), sid);
    hide WellFormed, PathOf, PlanOf, FlowsBothWays, ShapeKept;
    SendBothWaysFlow(a, n, sid, payload, Path(a, sid));
  }

  // ---- whole runs --------------------------------------------------------------------------------

  lemma FirstStep(a: Net, st: Step)
    requires WellFormed(a) && Enabled(a, st) && !st.Dial? && Sound(a, StepSid(a, st)) && LogsEmpty(a, StepSid(a, st))
    requires var sid := StepSid(a, st); a.emitted[sid] == 0 && Do(a, st).emitted[sid] > 0
    ensures Flowing(Do(a, st), StepSid(a, st))
  {
    if IsRelayStep(st) {
      EmitsOnlyOnProbe(a, st);
      FirstAtSink(a, st.end, StepSid(a, st));
    } else {
      FirstByTask(a, st);
    }
  }

  lemma EmitsOnRead(s: Slot, e: End, sid: Sid, m: Message)
    ensures OnMessage(s, e, sid, m).emits ==> m.Probe?
    ensures !OnError(s, e).emits && !OnClose(s).emits
  {}

  lemma EmitsOnlyOnProbe(a: Net, st: Step)
    requires WellFormed(a) && IsRelayStep(st) && EnabledRelay(a, st)
    requires var sid := StepSid(a, st); DoRelay(a, st).emitted[sid] > a.emitted[sid]
    ensures var sid := StepSid(a, st);
            st.Deliver? && st.msg == OwnProbe(sid)
                && OnProbe(SlotOf(a, OwnerOf(a, st.end), sid), st.end, sid, st.msg).emits
  {
    hide WellFormed, DoDeliver, DoFault, DoSend, Close, OnProbe;
    match st
    case Deliver(e, m) => DeliverEmits(a, e, m);
    case Fault(e) => FaultEmitsNothing(a, e);
    case ClientClose(n, sid) => CloseEmitsNothing(a, n, sid);
    case Send(n, sid, payload) => SendEmitsNothing(a, n, sid, payload);
    case _ =>
  }

  lemma DeliverEmits(a: Net, e: End, m: Message)
    requires WellFormed(a) && EnabledRelay(a, Deliver(e, m))
    ensures var sid := a.links[e.link].sid;
            && DoDeliver(a, e, m).emitted[sid] > a.emitted[sid] ==>
                 m == OwnProbe(sid) && OnProbe(SlotOf(a, OwnerOf(a, e), sid), e, sid, m).emits
  {
    var sid := a.links[e.link].sid;
    var n1 := Take(a, e, m, NextHandler(m, StateOf(a, e).handler.sid));
    TakenOk(a, e, m);
    EmitsOnRead(SlotOf(a, OwnerOf(a, e), sid), e, sid, m);
    assert n1.emitted == a.emitted;
    hide WellFormed, EndOk, OnMessage, Commit, NextHandler;
    CommitHistory(n1, OwnerOf(a, e), sid, OnMessage(SlotOf(a, OwnerOf(a, e), sid), e, sid, m));
    ReadIsProbe(SlotOf(a, OwnerOf(a, e), sid), e, sid, m);
  }

  lemma ReadIsProbe(s: Slot, e: End, sid: Sid, m: Message)
    ensures m.Probe? ==> OnMessage(s, e, sid, m) == OnProbe(s, e, sid, m)
  {}

  lemma FaultEmitsNothing(a: Net, e: End)
    requires WellFormed(a) && EnabledRelay(a, Fault(e))
    ensures DoFault(a, e).emitted[a.links[e.link].sid] == a.emitted[a.links[e.link].sid]
  {
    var sid := a.links[e.link].sid;
    var n1 := a.(links := a.links[e.link := WithEnd(a.links[e.link], e.opener, StateOf(a, e).(handler := Stopped))]);
    assert LinkOk(a.links[e.link]);
    EmitsOnRead(SlotOf(a, OwnerOf(a, e), sid), e, sid, Wake);
    hide WellFormed, OnError, LinkOk, Commit;
    CommitHistory(n1, OwnerOf(a, e), sid, OnError(SlotOf(a, OwnerOf(a, e), sid), e));
  }

  lemma CloseEmitsNothing(a: Net, n: NodeId, sid: Sid)
    ensures Close(a, n, sid).emitted[sid] == a.emitted[sid]
  {
    EmitsOnRead(SlotOf(a, n, sid), End(0, true), sid, Wake);
    CommitHistory(a, n, sid, OnClose(SlotOf(a, n, sid)));
  }

  lemma SendEmitsNothing(a: Net, n: NodeId, sid: Sid, payload: Payload)
    requires EnabledRelay(a, Send(n, sid, payload))
    ensures DoSend(a, n, sid, payload).emitted == a.emitted
  {}

  lemma DialFlows(a: Net, sid: Sid, caller: NodeId, entry: NodeId, answer: NodeId, home: NodeId)
    requires AllSound(a) && EnabledTask(a, Dial(sid, caller, entry, answer, home))
    ensures Flowing(DoTask(a, Dial(sid, caller, entry, answer, home)), sid)
  {
    assert WellFormed(a) && a.emitted[sid] == 0;
    assert forall n :: (n, sid) !in a.slots;
  }

  /** One step of a session id that is still not given up on. */
  lemma OwnStepFlows(a: Net, st: Step)
    requires AllSound(a) && Enabled(a, st) && StepSid(a, st) !in Do(a, st).broken
    requires !st.Dial? ==> Flowing(a, StepSid(a, st)) && Sound(a, StepSid(a, st))
    ensures Flowing(Do(a, st), StepSid(a, st))
  {
    var sid := StepSid(a, st);
    assert WellFormed(a);
    if st.Dial? {
      DialFlows(a, sid, st.caller, st.entry, st.answer, st.home);
    } else {
      StepIsolated(a, st);
      OwnStepSound(a, st);
      assert a.emitted[sid] > 0 ==> Finished(a, sid);
      hide AllSound, Finished, WellFormed, FlowsBothWays, LogsEmpty, DoRelay, DoTask, EnabledTask, EnabledRelay;
      if a.emitted[sid] == 0 {
        if Do(a, st).emitted[sid] == 0 { SilentStep(a, st); } else { FirstStep(a, st); }
      } else if IsRelayStep(st) {
        RelayFlows(a, st);
      } else {
        TaskFlows(a, st);
      }
    }
  }

  ghost predicate AllFlowing(net: Net) {
    forall sid :: sid in net.ctls && sid !in net.broken ==> Flowing(net, sid)
  }

  lemma SameFlowing(a: Net, b: Net, sid: Sid)
    requires Flowing(a, sid) && Sound(a, sid) && SameFor(a, b, sid)
    ensures Flowing(b, sid)
  {
    var k := a.ctls[sid];
    assert Streams(a.links, sid, k);
    SamePlan(a, b, sid, k);
    hide Sound, PlanOf, PathOf, FlowsBothWays, Streams;
    if a.emitted[sid] > 0 { OthersFlow(a, b, sid, Path(a, sid)); }
  }

  lemma StepAllFlowing(a: Net, st: Step)
    requires AllSound(a) && AllFlowing(a) && Enabled(a, st)
    ensures AllSound(Do(a, st)) && AllFlowing(Do(a, st))
  {
    var b, x := Do(a, st), StepSid(a, st);
    assert WellFormed(a);
    StepAllSound(a, st);
    StepIsolated(a, st);
    StaysBroken(a, st);
    if !st.Dial? { StepExists(a, st); }
    forall sid | sid in b.ctls && sid !in b.broken ensures Flowing(b, sid) {
      hide Flowing, Sound, WellFormed, DoTask, DoRelay, EnabledTask, EnabledRelay;
      if sid == x {
        OwnStepFlows(a, st);
      } else {
        ConfinedIsSame(a, b, x, sid);
        SameFlowing(a, b, sid);
      }
    }
  }

  lemma {:induction false} RunAllFlowing(net: Net, steps: seq<Step>)
    requires AllSound(net) && AllFlowing(net) && CanRun(net, steps)
    ensures AllSound(Run(net, steps)) && AllFlowing(Run(net, steps))
    decreases |steps|
  {
    hide AllSound, AllFlowing;
    if steps != [] {
      StepAllFlowing(net, steps[0]);
      RunAllFlowing(Do(net, steps[0]), steps[1..]);
    }
  }

  /** What one client has sent, the other has received, or it is in flight on the path. */
  ghost predicate Conserves(net: Net, sid: Sid, hops: seq<Hop>, sender: NodeId, receiver: NodeId) {
    && (forall i :: 0 <= i < |hops| ==> hops[i].link < |net.links|)
    && (forall d :: SentBy(net, sender, sid)[d] ==
            ReceivedBy(net, receiver, sid)[d] + InFlight(net.links, hops, Data(sid, d)))
    && net.started[(receiver, sid)] + InFlight(net.links, hops, Success(sid)) == net.emitted[sid]
  }

  /** Nobody beside the path keeps anything, except a sink that is about to learn it was abandoned. */
  ghost predicate OthersGone(net: Net, sid: Sid, k: Control, p: Plan) {
    forall n :: SlotOf(net, n, sid) != EMPTY_SLOT && n !in NodesOf(p) ==>
      k.join.Some? && n == p.join.acceptor && Enabled(net, Fault(End(k.join.value, false)))
  }

  /** A circuit as its two clients see it. */
  ghost predicate Connected(net: Net, sid: Sid) {
    && sid in net.ctls
    && var k, hops, nodes := net.ctls[sid], Path(net, sid), NodesOf(PlanOf(net, net.ctls[sid]));
    && IsChain(net, sid, hops)
    && |nodes| == |hops| + 1 && nodes[0] == k.caller && nodes[|hops|] == k.answer
    && (forall i :: 0 <= i <= |hops| ==> NodeAt(net, hops, i) == nodes[i])
    && OthersGone(net, sid, k, PlanOf(net, k))
    && net.emitted[sid] == 1
    && Conserves(net, sid, hops, k.caller, k.answer) && Conserves(net, sid, Flip(hops), k.answer, k.caller)
  }

  lemma FlowsConserve(net: Net, sid: Sid, hops: seq<Hop>)
    requires Strung(net, sid, hops) && Flows(net, sid, hops)
    ensures Conserves(net, sid, hops, NodeAt(net, hops, 0), NodeAt(net, hops, |hops|))
  {
    hide InFlight, SentBy, ReceivedBy;
  }

  lemma FlowingBoth(net: Net, sid: Sid)
    requires WellFormed(net) && Sound(net, sid) && Flowing(net, sid) && net.emitted[sid] > 0
    ensures var k, hops := net.ctls[sid], Path(net, sid);
            Conserves(net, sid, hops, k.caller, k.answer) && Conserves(net, sid, Flip(hops), k.answer, k.caller)
  {
    var k, hops := net.ctls[sid], Path(net, sid);
    FinishedIsChain(net, sid);
    EndsFlipped(net, sid, hops);
    assert NodesOf(PlanOf(net, k))[0] == k.caller && NodesOf(PlanOf(net, k))[|hops|] == k.answer;
    assert NodeAt(net, hops, 0) == k.caller && NodeAt(net, hops, |hops|) == k.answer;
    hide PathOf, NodesOf, PlanOf, IsChain, NodeAt, Flows, Sound, WellFormed, Conserves;
    FlowsConserve(net, sid, hops);
    FlowsConserve(net, sid, Flip(hops));
  }

  lemma PathOnly(net: Net, sid: Sid)
    requires WellFormed(net) && Topology(net, sid) && PlanOf(net, net.ctls[sid]).Complete()
    ensures OthersGone(net, sid, net.ctls[sid], PlanOf(net, net.ctls[sid]))
  {
    var p := PlanOf(net, net.ctls[sid]);
    hide WellFormed, Topology, PlanOf, NodesOf, Enabled;
    forall n | SlotOf(net, n, sid) != EMPTY_SLOT && n !in NodesOf(p)
      ensures net.ctls[sid].join.Some? && n == p.join.acceptor
              && Enabled(net, Fault(End(net.ctls[sid].join.value, false)))
    { NobodyElse(net, sid, n); }
  }

  lemma FlowingConnects(net: Net, sid: Sid)
    requires WellFormed(net) && Sound(net, sid) && Flowing(net, sid) && net.emitted[sid] > 0
    ensures Connected(net, sid)
  {
    var k := net.ctls[sid];
    var p := PlanOf(net, k);
    assert p.Complete() && net.emitted[sid] == 1 && Topology(net, sid);
    assert NodesOf(p)[0] == k.caller && NodesOf(p)[|NodesOf(p)| - 1] == k.answer;
    hide WellFormed, Sound, Topology, Flowing, PathOf, NodesOf, PlanOf, IsChain, NodeAt, Conserves, OthersGone;
    FinishedIsChain(net, sid);
    FlowingBoth(net, sid);
    PathOnly(net, sid);
  }

  /** In every run from the empty network, a session id for which a Success was originated and that
      nobody has given up on connects its two clients. Until the Success nothing is sent. */
  lemma ReachableCircuit(net: Net, steps: seq<Step>, sid: Sid)
    requires Initial(net) && CanRun(net, steps)
    requires sid in Run(net, steps).ctls && sid !in Run(net, steps).broken
    ensures Run(net, steps).emitted[sid] > 0 ==> Connected(Run(net, steps), sid)
    ensures Run(net, steps).emitted[sid] == 0 ==>
            LogsEmpty(Run(net, steps), sid) && forall n :: Run(net, steps).started[(n, sid)] == 0
  {
    var b := Run(net, steps);
    assert AllFlowing(net);
    RunAllFlowing(net, steps);
    assert Sound(b, sid) && Flowing(b, sid) && WellFormed(b);
    hide WellFormed, Topology, Mail, Connected, FlowsBothWays, LogsEmpty, Run, CanRun;
    if b.emitted[sid] > 0 { FlowingConnects(b, sid); }
  }

  /** An abandoned sink that still holds its session drops it when it reads the error that awaits it,
      which disturbs nothing else of the session id. */
  lemma AbandonedSinkCloses(net: Net, sid: Sid)
    requires WellFormed(net) && Sound(net, sid) && PlanOf(net, net.ctls[sid]).Rerouted()
    requires SlotOf(net, PlanOf(net, net.ctls[sid]).join.acceptor, sid) != EMPTY_SLOT
    ensures var k := net.ctls[sid];
            var sink := PlanOf(net, k).join.acceptor;
            && k.join.Some? && EnabledRelay(net, Fault(End(k.join.value, false)))
            && var b := DoFault(net, End(k.join.value, false));
            SlotOf(b, sink, sid) == EMPTY_SLOT && forall n :: n != sink ==> SlotOf(b, n, sid) == SlotOf(net, n, sid)
  {
    var k := net.ctls[sid];
    AbandonedSlot(net, sid);
    assert Dying(net.links[k.join.value]);
    hide DoFault, WellFormed, Topology;
    FaultDies(net, End(k.join.value, false));
  }

  /** An entry node asked to relay keeps its session ready: the stream from the caller stays, the one to
      the old sink gives way to the one from the access node, and the request is acknowledged. */
  lemma ReroutingKeepsReady(a: Net, e: End, m: Message, sid: Sid, k: Control)
    requires WellFormed(a) && EnabledRelay(a, Deliver(e, m)) && m.SetSession? && sid == a.links[e.link].sid
    requires Topology(a, sid) && k == a.ctls[sid] && Reroutes(PlanOf(a, k), k, e.link)
    ensures var s, t := SlotOf(a, k.entry, sid).session, SlotOf(DoDeliver(a, e, m), k.entry, sid).session;
            s.Some? && s.value.Ready() && t == Some(s.value.(later := Some(e)))
    ensures e.link < |DoDeliver(a, e, m).links| && DoDeliver(a, e, m).links[e.link].acked
  {
    hide WellFormed, AcceptsTo, DoDeliver, AbandonedLink, InOrder, Topology;
    AcceptForm(a, e, m);
    EntrySession(a, sid);
  }

  lemma EntrySession(a: Net, sid: Sid)
    requires Topology(a, sid) && PlanOf(a, a.ctls[sid]).join.attached && PlanOf(a, a.ctls[sid]).join.id.Some?
    requires !PlanOf(a, a.ctls[sid]).Rerouted()
    ensures var s := SlotOf(a, a.ctls[sid].entry, sid).session; s.Some? && s.value.Ready() && s.value.role == Entry
    ensures PlanOf(a, a.ctls[sid]).RelayIsEntry() ==>
              a.ctls[sid].hop.Some? && a.ctls[sid].hop.value < |a.links|
                  && a.links[a.ctls[sid].hop.value].acceptor == a.ctls[sid].entry
  {
    var k := a.ctls[sid];
    assert SessionAsCalled(PlanOf(a, k), k.entry, SlotOf(a, k.entry, sid));
    hide LinksAsCalled, Streams, SinkWillClose;
  }
}
