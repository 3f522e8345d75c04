/** The steps by which the network runs the four tasks are the pieces of those tasks between two waits:
    each makes of its node's slot what the task does there, and puts the same messages on the streams. */
module TaskRefinement {
  import opened Wrappers
  import opened Protocol
  import opened RelayLogic
  import opened Network
  import opened Isolation
  import opened CircuitTasks
  import PeerSelection

  /** The node whose task takes the step. */
  function TaskNode(net: Net, st: Step): NodeId
    requires !IsRelayStep(st) && EnabledTask(net, st)
  {
    if st.Dial? then st.caller
    else
      var k := net.ctls[st.sid];
      match st
      case DialAttach(_) => k.caller
      case BridgeAttach(_) => net.links[k.bridge.value].opener
      case CmdRefuse(_) => AcceptorOf(net, k.hop).value
      case CmdReady(_) => AcceptorOf(net, k.hop).value
      case BridgeOpen(_) => AcceptorOf(net, k.hop).value
      case BridgeGiveUp(_) => AcceptorOf(net, k.hop).value
      case ReachOpen(_) => k.home
      case ReachGiveUp(_) => k.home
      case ReachAttach(_) => k.home
      case HopOpen(_, _) => k.home
      case HopGiveUp(_) => k.home
      case HopAttach(_) => k.home
      case ExpandReply(_) => k.home
      case _ => k.entry
  }

  function TaskSlot(net: Net, st: Step): Slot
    requires !IsRelayStep(st) && EnabledTask(net, st)
  {
    SlotOf(net, TaskNode(net, st), st.sid)
  }

  /** What the task makes of its node's slot between two waits. */
  function Segment(net: Net, st: Step): Outcome
    requires !IsRelayStep(st) && EnabledTask(net, st)
  {
    var s := TaskSlot(net, st);
    if st.Dial? then Quiet(s)
    else
      var k := net.ctls[st.sid];
      match st
      case DialAttach(_) => Quiet(Dialled(s, End(k.dial, true)))
      case JoinRefuse(sid) => OnNewCircuit(s, sid, true, k.home == k.entry, None, []).0
      case JoinGiveUp(sid) => OnNewCircuit(s, sid, true, k.home == k.entry, None, [None, None, None]).0
      case JoinAttach(sid) =>
        if k.home == k.entry then AttachThen(s, Access, End(k.join.value, true), Success(sid))
        else Quiet(Attach(s, Entry, End(k.join.value, true)))
      case ProbeFromEntry(sid) => TwoWay(s, Probe(sid, ProbeRand(sid)))
      case ReachGiveUp(sid) => OnGossip(s, sid, None, AcceptorOf(net, k.join) == Some(k.home), [], false)
      case ReachAttach(sid) =>
        if AcceptorOf(net, k.join) == Some(k.home) then
          OnGossip(s, sid, Some(End(k.reach.value, true)), true, [], false)
        else Quiet(Attach(s, Access, End(k.reach.value, true)))
      case HopGiveUp(_) => OnClose(s)
      case HopAttach(_) => Quiet(Attach(s, Access, End(k.hop.value, true)))
      case CmdRefuse(sid) => OnCommand(s, sid, None).0
      case CmdReady(sid) => OnCommand(s, sid, None).0
      case BridgeGiveUp(sid) => OnCommand(s, sid, None).0
      case BridgeAttach(_) => Quiet(Attach(s, Relay, End(k.bridge.value, true)))
      case ExpandReply(sid) => if k.cmd == Replied(true) then TwoWay(s, Probe(sid, ProbeRand(sid))) else OnClose(s)
      case _ => Quiet(s)
  }

  /** The stream for which the step has been waiting. */
  function Arrived(net: Net, st: Step): Option<LinkId>
    requires !IsRelayStep(st) && EnabledTask(net, st)
  {
    match st
    case DialAttach(sid) => Some(net.ctls[sid].dial)
    case JoinAttach(sid) => net.ctls[sid].join
    case ReachAttach(sid) => net.ctls[sid].reach
    case HopAttach(sid) => net.ctls[sid].hop
    case BridgeAttach(sid) => net.ctls[sid].bridge
    case _ => None
  }

  /** The acknowledgement of a stream has reached its opener, which starts to read. */
  function Listening(l: Link): Link { l.(o := l.o.(handler := Running(Some(l.sid))), acked := false) }

  /** Equal up to empty slots that are not in the map. */
  ghost predicate Same(a: Net, b: Net) {
    && a.links == b.links && a.ctls == b.ctls && a.clients == b.clients && a.broken == b.broken
    && a.emitted == b.emitted && a.started == b.started && forall n, x :: SlotOf(a, n, x) == SlotOf(b, n, x)
  }

  /** What a step does beside the work of the task: it records how far the task is and whether a node gave
      up, opens a new stream, or starts to read the one that was acknowledged. */
  function Before(net: Net, st: Step): Net
    requires !IsRelayStep(st) && EnabledTask(net, st)
    requires Arrived(net, st).Some? ==> Arrived(net, st).value < |net.links|
  {
    var b, w := DoTask(net, st), Arrived(net, st);
    net.(ctls := b.ctls, broken := b.broken,
         links := if w.Some? then net.links[w.value := Listening(net.links[w.value])]
                  else if |b.links| > |net.links| then net.links + b.links[|net.links|..]
                  else net.links)
  }

  /** Every step of the four tasks is the task's own work on its node's slot, done to the network in which
      its stream, if it waited for one, is being read. */
  lemma StepRefines(net: Net, st: Step)
    requires WellFormed(net) && !IsRelayStep(st) && EnabledTask(net, st)
    ensures Arrived(net, st).Some? ==> Arrived(net, st).value < |net.links|
    ensures Same(DoTask(net, st), Commit(Before(net, st), TaskNode(net, st), st.sid, Segment(net, st)))
  {
    hide WellFormed, EnabledTask, DoTask, Segment, TaskNode, Before, Commit, Same;
    match st
    case Dial(_, _, _, _, _) => OpeningRefines(net, st);
    case JoinOpen(_, _) => OpeningRefines(net, st);
    case ReachOpen(_) => OpeningRefines(net, st);
    case HopOpen(_, _) => OpeningRefines(net, st);
    case BridgeOpen(_) => OpeningRefines(net, st);
    case DialAttach(sid) => DialAttachRefines(net, sid);
    case JoinAttach(sid) => JoinAttachRefines(net, sid);
    case ReachAttach(sid) => ReachAttachRefines(net, sid);
    case HopAttach(sid) => HopAttachRefines(net, sid);
    case BridgeAttach(sid) => BridgeAttachRefines(net, sid);
    case JoinRefuse(_) => EntryRefines(net, st);
    case JoinGiveUp(_) => EntryRefines(net, st);
    case Publish(sid) => PublishRefines(net, sid);
    case ProbeFromEntry(sid) => ProbeFromEntryRefines(net, sid);
    case ExpandReply(sid) => ExpandReplyRefines(net, sid);
    case ReachGiveUp(sid) => ReachGiveUpRefines(net, sid);
    case HopGiveUp(sid) => HopGiveUpRefines(net, sid);
    case CmdRefuse(sid) => CmdRefuseRefines(net, sid);
    case CmdReady(sid) => CmdReadyRefines(net, sid);
    case BridgeGiveUp(sid) => BridgeGiveUpRefines(net, sid);
  }

  lemma OpeningRefines(net: Net, st: Step)
    requires IsOpening(st) && EnabledTask(net, st)
    ensures Arrived(net, st).None?
            && Same(DoTask(net, st), Commit(Before(net, st), TaskNode(net, st), st.sid, Segment(net, st)))
  {
    hide Commit, Same, HalfOpen, RelaySlot, Done;
    var b := DoTask(net, st);
    assert Before(net, st) == b && SlotOf(b, TaskNode(net, st), st.sid) == TaskSlot(net, st);
    QuietCommits(b, TaskNode(net, st), st.sid);
  }

  /** Attaching a stream is the same in a task and in the network. */
  lemma AttachRefines(net: Net, sid: Sid, link: LinkId, role: Role)
    requires link < |net.links| && net.links[link].sid == sid
    ensures var n, e := net.links[link].opener, End(link, true);
            var b := AttachOpener(net, sid, link, role);
            && b == net.(links := net.links[link := Listening(net.links[link])],
                         slots := net.slots[(n, sid) := Attach(SlotOf(net, n, sid), role, e)])
            && SlotOf(b, n, sid) == Attach(SlotOf(net, n, sid), role, e)
  {
    hide Attach;
  }

  lemma DialAttachRefines(net: Net, sid: Sid)
    requires WellFormed(net) && EnabledTask(net, DialAttach(sid))
    ensures var st := DialAttach(sid);
            && Arrived(net, st).Some? && Arrived(net, st).value < |net.links|
            && Same(DoTask(net, st), Commit(Before(net, st), TaskNode(net, st), st.sid, Segment(net, st)))
  {
    hide WellFormed, AttachOpener, Attach, TwoWay, ControlOk;
    ControlKnown(net, sid);
    Openers(net.links, sid, net.ctls[sid]);
    var k := net.ctls[sid];
    AttachRefines(net, sid, k.dial, Caller);
  }

  lemma JoinAttachRefines(net: Net, sid: Sid)
    requires WellFormed(net) && EnabledTask(net, JoinAttach(sid))
    ensures var st := JoinAttach(sid);
            && Arrived(net, st).Some? && Arrived(net, st).value < |net.links|
            && Same(DoTask(net, st), Commit(Before(net, st), TaskNode(net, st), st.sid, Segment(net, st)))
  {
    hide WellFormed, AttachOpener, Attach, TwoWay, ControlOk, OnGossip, Post, Shut;
    ControlKnown(net, sid);
    Openers(net.links, sid, net.ctls[sid]);
    var k := net.ctls[sid];
    AttachRefines(net, sid, k.join.value, if k.home == k.entry then Access else Entry);
    var e, s := End(k.join.value, true), TaskSlot(net, JoinAttach(sid));
    if k.home != k.entry { QuietIs(Before(net, JoinAttach(sid)), k.entry, sid, Attach(s, Entry, e)); }
  }

  lemma ReachAttachRefines(net: Net, sid: Sid)
    requires WellFormed(net) && EnabledTask(net, ReachAttach(sid))
    ensures var st := ReachAttach(sid);
            && Arrived(net, st).Some? && Arrived(net, st).value < |net.links|
            && Same(DoTask(net, st), Commit(Before(net, st), TaskNode(net, st), st.sid, Segment(net, st)))
  {
    hide WellFormed, AttachOpener, Attach, TwoWay, ControlOk, OnGossip, Post, Shut;
    ControlKnown(net, sid);
    Openers(net.links, sid, net.ctls[sid]);
    var k := net.ctls[sid];
    AttachRefines(net, sid, k.reach.value, Access);
    var e, s := End(k.reach.value, true), TaskSlot(net, ReachAttach(sid));
    SinkOutcome(s, sid, e);
    if AcceptorOf(net, k.join) != Some(k.home) {
      QuietIs(Before(net, ReachAttach(sid)), k.home, sid, Attach(s, Access, e));
    }
  }

  lemma HopAttachRefines(net: Net, sid: Sid)
    requires WellFormed(net) && EnabledTask(net, HopAttach(sid))
    ensures var st := HopAttach(sid);
            && Arrived(net, st).Some? && Arrived(net, st).value < |net.links|
            && Same(DoTask(net, st), Commit(Before(net, st), TaskNode(net, st), st.sid, Segment(net, st)))
  {
    hide WellFormed, AttachOpener, Attach, TwoWay, ControlOk;
    ControlKnown(net, sid);
    Openers(net.links, sid, net.ctls[sid]);
    var k := net.ctls[sid];
    AttachRefines(WithControl(net, sid, k.(cmd := Sent)), sid, k.hop.value, Access);
  }

  lemma BridgeAttachRefines(net: Net, sid: Sid)
    requires WellFormed(net) && EnabledTask(net, BridgeAttach(sid))
    ensures var st := BridgeAttach(sid);
            && Arrived(net, st).Some? && Arrived(net, st).value < |net.links|
            && Same(DoTask(net, st), Commit(Before(net, st), TaskNode(net, st), st.sid, Segment(net, st)))
  {
    hide WellFormed, AttachOpener, Attach, TwoWay, ControlOk;
    ControlKnown(net, sid);
    Openers(net.links, sid, net.ctls[sid]);
    var k := net.ctls[sid];
    AttachRefines(WithControl(net, sid, k.(cmd := Replied(true))), sid, k.bridge.value, Relay);
  }

  lemma Openers(links: seq<Link>, sid: Sid, k: Control)
    requires ControlOk(links, sid, k)
    ensures k.dial < |links| && links[k.dial].opener == k.caller && links[k.dial].sid == sid
    ensures k.join.Some? ==>
            k.join.value < |links| && links[k.join.value].opener == k.entry && links[k.join.value].sid == sid
    ensures k.reach.Some? ==>
            k.reach.value < |links| && links[k.reach.value].opener == k.home && links[k.reach.value].sid == sid
    ensures k.hop.Some? ==>
            k.hop.value < |links| && links[k.hop.value].opener == k.home && links[k.hop.value].sid == sid
    ensures k.bridge.Some? ==> k.bridge.value < |links| && links[k.bridge.value].sid == sid
  {}

  lemma QuietIs(a: Net, n: NodeId, sid: Sid, s: Slot)
    ensures Commit(a, n, sid, Quiet(s)) == a.(slots := a.slots[(n, sid) := s])
  {}

  lemma SinkOutcome(s: Slot, sid: Sid, e: End)
    ensures OnGossip(s, sid, Some(e), true, [], false) == AttachThen(s, Access, e, Success(sid))
  {}

  /** A step that leaves its slot alone. */
  lemma QuietCommits(a: Net, n: NodeId, sid: Sid)
    ensures Same(a, Commit(a, n, sid, Quiet(SlotOf(a, n, sid))))
  {}

  lemma EntryRefines(net: Net, st: Step)
    requires (st.JoinRefuse? || st.JoinGiveUp?) && EnabledTask(net, st)
    ensures Arrived(net, st).None?
            && Same(DoTask(net, st), Commit(Before(net, st), TaskNode(net, st), st.sid, Segment(net, st)))
  {
    hide OnClose, OnNewCircuit, Post, Shut;
    var k := net.ctls[st.sid];
    EntryOutcomes(TaskSlot(net, st), st.sid, k.home == k.entry);
    QuietCommits(DoTask(net, st), k.entry, st.sid);
  }

  /** The step is the work of its task on its slot. */
  ghost predicate Committed(net: Net, st: Step)
    requires !IsRelayStep(st) && EnabledTask(net, st) && Arrived(net, st).None?
  {
    Same(DoTask(net, st), Commit(Before(net, st), TaskNode(net, st), st.sid, Segment(net, st)))
  }

  lemma CommitRefines(net: Net, st: Step, j: Control, out: Outcome, givesUp: bool)
    requires !IsRelayStep(st) && EnabledTask(net, st) && Arrived(net, st).None? && out == Segment(net, st)
    requires var b := Commit(WithControl(net, st.sid, j), TaskNode(net, st), st.sid, out);
             DoTask(net, st) == if givesUp then Break(b, st.sid) else b
    ensures Committed(net, st)
  {
    hide DoTask, EnabledTask, Segment, TaskNode, SlotOf, Post, Shut;
  }

  lemma ProbeFromEntryRefines(net: Net, sid: Sid)
    requires EnabledTask(net, ProbeFromEntry(sid))
    ensures Committed(net, ProbeFromEntry(sid))
  {
    hide Commit, Before, Same, OnClose, TwoWay, OnNewCircuit, OnGossip, OnCommand, Done, HalfOpen;
    var st := ProbeFromEntry(sid);
    CommitRefines(net, st, net.ctls[sid].(probedE := true), TwoWay(TaskSlot(net, st), Probe(sid, ProbeRand(sid))),
                     false);
  }

  lemma ReachGiveUpRefines(net: Net, sid: Sid)
    requires EnabledTask(net, ReachGiveUp(sid))
    ensures Committed(net, ReachGiveUp(sid))
  {
    hide Commit, Before, Same, OnClose, TwoWay, OnNewCircuit, OnGossip, OnCommand, Done, HalfOpen;
    var st := ReachGiveUp(sid);
    OtherOutcomes(TaskSlot(net, st), sid);
    CommitRefines(net, st, net.ctls[sid].(endedA := true), OnClose(TaskSlot(net, st)), true);
  }

  lemma HopGiveUpRefines(net: Net, sid: Sid)
    requires EnabledTask(net, HopGiveUp(sid))
    ensures Committed(net, HopGiveUp(sid))
  {
    hide Commit, Before, Same, OnClose, TwoWay, OnNewCircuit, OnGossip, OnCommand, Done, HalfOpen;
    var st := HopGiveUp(sid);
    CommitRefines(net, st, net.ctls[sid].(endedA := true), OnClose(TaskSlot(net, st)), true);
  }

  lemma CmdRefuseRefines(net: Net, sid: Sid)
    requires EnabledTask(net, CmdRefuse(sid))
    ensures Committed(net, CmdRefuse(sid))
  {
    hide Commit, Before, Same, OnClose, TwoWay, OnNewCircuit, OnGossip, OnCommand, Done, HalfOpen;
    var st := CmdRefuse(sid);
    OtherOutcomes(TaskSlot(net, st), sid);
    CommitRefines(net, st, net.ctls[sid].(cmd := Replied(false)), OnClose(TaskSlot(net, st)), false);
  }

  lemma CmdReadyRefines(net: Net, sid: Sid)
    requires EnabledTask(net, CmdReady(sid))
    ensures Committed(net, CmdReady(sid))
  {
    hide Commit, Before, Same, OnClose, TwoWay, OnNewCircuit, OnGossip, OnCommand, Done, HalfOpen;
    var st := CmdReady(sid);
    OtherOutcomes(TaskSlot(net, st), sid);
    CommitRefines(net, st, net.ctls[sid].(cmd := Replied(true)), TwoWay(TaskSlot(net, st), Success(sid)), false);
  }

  lemma BridgeGiveUpRefines(net: Net, sid: Sid)
    requires EnabledTask(net, BridgeGiveUp(sid))
    ensures Committed(net, BridgeGiveUp(sid))
  {
    hide Commit, Before, Same, OnClose, TwoWay, OnNewCircuit, OnGossip, OnCommand, Done;
    var st := BridgeGiveUp(sid);
    OtherOutcomes(TaskSlot(net, st), sid);
    CommitRefines(net, st, net.ctls[sid].(cmd := Replied(false)), OnClose(TaskSlot(net, st)), true);
  }

  lemma PublishRefines(net: Net, sid: Sid)
    requires EnabledTask(net, Publish(sid))
    ensures Committed(net, Publish(sid))
  {
    QuietCommits(DoTask(net, Publish(sid)), net.ctls[sid].entry, sid);
  }

  lemma ExpandReplyRefines(net: Net, sid: Sid)
    requires EnabledTask(net, ExpandReply(sid))
    ensures Committed(net, ExpandReply(sid))
  {
    hide Commit, Before, Same, OnClose, TwoWay;
    var st, k := ExpandReply(sid), net.ctls[sid];
    if k.cmd.ok {
      CommitRefines(net, st, k.(probedA := true), TwoWay(TaskSlot(net, st), Probe(sid, ProbeRand(sid))), false);
    } else {
      CommitRefines(net, st, k.(endedA := true), OnClose(TaskSlot(net, st)), false);
    }
  }

  // ---- a whole task ----------------------------------------------------------------------------------

  lemma ThreeSteps(a: Net, b: Net, c: Net, st: Step, su: Step, sv: Step)
    requires Enabled(a, st) && Do(a, st) == b && Enabled(b, su) && Do(b, su) == c && Enabled(c, sv)
    ensures CanRun(a, [st, su, sv]) && Run(a, [st, su, sv]) == Do(c, sv)
  {
    hide Enabled, Do;
    assert [st, su, sv][1..] == [su, sv] && [su, sv][1..] == [sv] && [sv][1..] == [];
    assert CanRun(Do(c, sv), []);
    assert CanRun(c, [sv]) && Run(c, [sv]) == Do(c, sv);
    assert CanRun(b, [su, sv]) && Run(b, [su, sv]) == Do(c, sv);
  }

  /** At the entry node, from the moment its stream to the sink is acknowledged, the steps of the network
      add up to the request of the task: `i` attempts have timed out and the next one opened this stream. */
  lemma EntryTaskRefines(net: Net, sid: Sid, tries: seq<PeerSelection.Opened>, i: nat)
    requires WellFormed(net) && sid in net.ctls && EnabledTask(net, JoinAttach(sid)) && !net.ctls[sid].published
             && !net.ctls[sid].probedE
    requires net.ctls[sid].home != net.ctls[sid].entry && HalfOpen(SlotOf(net, net.ctls[sid].entry, sid))
    requires i < |tries| && tries[i] == Some(End(net.ctls[sid].join.value, true))
    requires forall j :: 0 <= j < i ==> tries[j].None?
    ensures var k, steps := net.ctls[sid], [JoinAttach(sid), Publish(sid), ProbeFromEntry(sid)];
            var out := OnNewCircuit(SlotOf(net, k.entry, sid), sid, true, false, None, tries).0;
            && k.join.value < |net.links| && CanRun(net, steps)
            && Same(Run(net, steps),
                    Commit(net.(links := net.links[k.join.value := Listening(net.links[k.join.value])],
                                ctls := net.ctls[sid := k.(published := true, probedE := true)]), k.entry, sid, out))
  {
    hide Attach, TwoWay, Post, Shut, OnNewCircuit, ControlOk, Run, CanRun, WellFormed, EnabledTask, DoTask, Enabled, Do,
         AttachOpener;
    var k, m := net.ctls[sid], Probe(sid, ProbeRand(sid));
    JoinIsAwaited(net, sid);
    var l, e, s := k.join.value, End(k.join.value, true), SlotOf(net, k.entry, sid);
    ControlKnown(net, sid);
    Openers(net.links, sid, k);
    AttachRefines(net, sid, l, Entry);
    var a := AttachOpener(net, sid, l, Entry);
    var b := WithControl(a, sid, k.(published := true));
    EntrySteps(net, sid);
    ThreeSteps(net, a, b, JoinAttach(sid), Publish(sid), ProbeFromEntry(sid));
    EntryGranted(s, sid, tries, i);
  }

  lemma JoinIsAwaited(net: Net, sid: Sid)
    requires sid in net.ctls && EnabledTask(net, JoinAttach(sid))
    ensures net.ctls[sid].join.Some? && net.ctls[sid].join.value < |net.links|
  {}

  lemma EntrySteps(net: Net, sid: Sid)
    requires EnabledTask(net, JoinAttach(sid)) && !net.ctls[sid].published && !net.ctls[sid].probedE
    requires net.ctls[sid].home != net.ctls[sid].entry
    ensures var k, m := net.ctls[sid], Probe(sid, ProbeRand(sid));
            var a := AttachOpener(net, sid, k.join.value, Entry);
            var b := WithControl(a, sid, k.(published := true));
            && Enabled(net, JoinAttach(sid)) && Do(net, JoinAttach(sid)) == a
            && Enabled(a, Publish(sid)) && Do(a, Publish(sid)) == b && Enabled(b, ProbeFromEntry(sid))
            && Do(b, ProbeFromEntry(sid)) ==
               SendBothWays(WithControl(b, sid, k.(published := true, probedE := true)), k.entry, sid, m)
  {
    hide SendBothWays, Attach;
  }

  lemma EntryGranted(s: Slot, sid: Sid, tries: seq<PeerSelection.Opened>, i: nat)
    requires HalfOpen(s) && i < |tries| && tries[i].Some? && forall j :: 0 <= j < i ==> tries[j].None?
    ensures OnNewCircuit(s, sid, true, false, None, tries) ==
            (TwoWay(Attach(s, Entry, tries[i].value), Probe(sid, ProbeRand(sid))), true)
  {
    PeerSelection.FailedFirst(tries, i);
  }

  /** When the answering client is registered at the entry node itself, taking the stream to it grants the
      request at once. */
  lemma HereRefines(net: Net, sid: Sid, tries: seq<PeerSelection.Opened>)
    requires sid in net.ctls && EnabledTask(net, JoinAttach(sid))
    requires net.ctls[sid].home == net.ctls[sid].entry && HalfOpen(SlotOf(net, net.ctls[sid].entry, sid))
    ensures var k := net.ctls[sid];
            (Segment(net, JoinAttach(sid)), true) ==
            OnNewCircuit(SlotOf(net, k.entry, sid), sid, true, true, Some(End(k.join.value, true)), tries)
  {
    hide Attach, TwoWay, PeerSelection.FirstOpened;
  }

  /** What the relay node makes of the command, and the answer recorded for the access node, are those of
      the command's task: refused without a session or without a stream to the sink, granted if the session
      is ready or takes the stream. */
  lemma RepliesRefine(net: Net, st: Step)
    requires st.CmdRefuse? || st.CmdReady? || st.BridgeGiveUp? || st.BridgeAttach?
    requires WellFormed(net) && EnabledTask(net, st) && (st.BridgeAttach? ==> HalfOpen(TaskSlot(net, st)))
    ensures var s := TaskSlot(net, st);
            var toSink := if st.BridgeAttach? then Some(End(net.ctls[st.sid].bridge.value, true)) else None;
            && (Segment(net, st), DoTask(net, st).ctls[st.sid].cmd == Replied(true)) == OnCommand(s, st.sid, toSink)
            && DoTask(net, st).ctls[st.sid].cmd.Replied?
            && DoTask(net, st).ctls[st.sid].cmd.ok == (s.session.Some? && (s.session.value.Ready() || toSink.Some?))
  {
    hide WellFormed, Attach, TwoWay, OnClose, Post, Shut;
    if st.BridgeAttach? {
      ControlKnown(net, st.sid);
      Openers(net.links, st.sid, net.ctls[st.sid]);
    }
  }

  /** At the access node, if its slot is what its own steps have made of it, the answer of the relay node
      completes the task. */
  lemma AccessTaskRefines(net: Net, sid: Sid, s: Slot, toAnswer: End, toRelay: End, tries: seq<PeerSelection.Opened>,
                          i: nat)
    requires EnabledTask(net, ExpandReply(sid))
    requires i < |tries| && tries[i] == Some(toRelay) && forall j :: 0 <= j < i ==> tries[j].None?
    requires SlotOf(net, net.ctls[sid].home, sid) == Attach(Attach(s, Access, toAnswer), Access, toRelay)
    ensures var k := net.ctls[sid];
            var out := OnGossip(s, sid, Some(toAnswer), false, tries, k.cmd.ok);
            Segment(net, ExpandReply(sid)) == out
                && Same(DoTask(net, ExpandReply(sid)), Commit(Before(net, ExpandReply(sid)), k.home, sid, out))
  {
    ExpandReplyRefines(net, sid);
    PeerSelection.FailedFirst(tries, i);
    hide Commit, Attach, OnClose, TwoWay, Before, Same;
  }

  /** When every attempt has timed out, giving up is what the tasks make of it, whatever the number of
      attempts: the entry node's search for the sink or the answering client, and the access node's search
      for a relay in a slot `s` that has taken the answering client's stream. */
  lemma GiveUpsRefine(net: Net, sid: Sid, s: Slot, toAnswer: End, tries: seq<PeerSelection.Opened>, reply: bool)
    requires forall j :: 0 <= j < |tries| ==> tries[j].None?
    ensures EnabledTask(net, JoinGiveUp(sid)) ==>
              var here := net.ctls[sid].home == net.ctls[sid].entry;
              (Segment(net, JoinGiveUp(sid)), false) ==
              OnNewCircuit(TaskSlot(net, JoinGiveUp(sid)), sid, true, here, None, tries)
    ensures EnabledTask(net, HopGiveUp(sid)) && TaskSlot(net, HopGiveUp(sid)) == Attach(s, Access, toAnswer) ==>
              Segment(net, HopGiveUp(sid)) == OnGossip(s, sid, Some(toAnswer), false, tries, reply)
  {
    hide Attach, TwoWay, OnClose;
    PeerSelection.FailedFirst(tries, |tries|);
    PeerSelection.FailedFirst([None, None, None], 3);
  }

  lemma EntryOutcomes(s: Slot, sid: Sid, here: bool)
    ensures !HalfOpen(s) ==> OnNewCircuit(s, sid, true, here, None, []).0 == Quiet(s)
    ensures HalfOpen(s) ==>
            OnNewCircuit(s, sid, true, here, None, [None, None, None]).0 == if here then Quiet(s) else OnClose(s)
  {
    assert PeerSelection.FirstOpened([None, None, None][1..]).None?;
  }

  lemma OtherOutcomes(s: Slot, sid: Sid)
    ensures forall sink :: OnGossip(s, sid, None, sink, [], false) == OnClose(s)
    ensures OnCommand(s, sid, None).0 ==
            if s.session.Some? && s.session.value.Ready() then TwoWay(s, Success(sid)) else OnClose(s)
  {}
}
