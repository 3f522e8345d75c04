/** Runs that establish a circuit in each of the four overlaps of roles, step by step: the results about
    established circuits are not empty in any of them. */
module Witness {
  import opened Wrappers
  import opened Protocol
  import opened RelayLogic
  import opened Network
  import opened EstablishmentRelay
  import opened EndToEnd

  datatype Overlap = EntryIsAccess | SinkIsAccess | RelayIsEntry | AllApart

  const CALLER: NodeId := 0
  const ANSWER: NodeId := 1
  const ENTRY: NodeId := 2
  const SINK: NodeId := 3
  const ACCESS: NodeId := 4
  const RELAY: NodeId := 5
  const SID: Sid := 7
  const PROBE := Probe(SID, ProbeRand(SID))

  const NOTHING := Net({CALLER, ANSWER}, map[], [], map[], multiset{}, multiset{}, {})

  function HomeIn(c: Overlap): NodeId { if c.EntryIsAccess? then ENTRY else ACCESS }

  /** The node at the other end of the entry node's stream. */
  function JoinIn(c: Overlap): NodeId { if c.EntryIsAccess? then ANSWER else if c.SinkIsAccess? then ACCESS else SINK }

  function RelayIn(c: Overlap): NodeId { if c.RelayIsEntry? then ENTRY else RELAY }

  // ---- the network after each step -----------------------------------------------------------------

  /** A stream before its acceptor has read the set-session message, after it, and after its opener has
      attached it. */
  function Opened(opener: NodeId, acceptor: NodeId, role: Role): Link { NewLink(SID, opener, acceptor, role) }

  function Accepted(l: Link): Link { l.(a := EndState(multiset{Wake}, false, Running(Some(SID))), acked := true) }

  function Used(l: Link): Link { Accepted(l).(o := EndState(multiset{}, false, Running(Some(SID))), acked := false) }

  function WithProbe(l: Link, atOpener: bool): Link {
    if atOpener then l.(o := l.o.(inbox := l.o.inbox + multiset{PROBE}))
    else l.(a := l.a.(inbox := l.a.inbox + multiset{PROBE}))
  }

  function DialLink(): Link { Opened(CALLER, ENTRY, Entry) }

  function JoinLink(c: Overlap): Link { Opened(ENTRY, JoinIn(c), if c.EntryIsAccess? then Answer else Sink) }

  function ReachLink(): Link { Opened(ACCESS, ANSWER, Answer) }

  function HopLink(c: Overlap): Link { Opened(ACCESS, RelayIn(c), Relay) }

  function BridgeLink(): Link { Opened(RELAY, SINK, Sink) }

  function One(role: Role, early: End, later: Option<End>): Slot {
    Slot(Some(Session(role, Some(early), later)), None, None)
  }

  function ClientSlot(role: Role, e: End): Slot {
    Slot(Some(Session(role, Some(e), None)), Some(Circuit(e, multiset{}, multiset{})), None)
  }

  function Tasks(c: Overlap): Control {
    Control(CALLER, ENTRY, ANSWER, HomeIn(c), 0, None, false, false, None, None, Unsent, None, false, false, false)
  }

  function State(links: seq<Link>, slots: map<(NodeId, Sid), Slot>, k: Control): Net {
    NOTHING.(links := links, slots := slots, ctls := map[SID := k])
  }

  function Slots2(): map<(NodeId, Sid), Slot> {
    map[(ENTRY, SID) := One(Entry, End(0, false), None)][(CALLER, SID) := ClientSlot(Caller, End(0, true))]
  }

  function JoinSlot(c: Overlap): Slot {
    if c.EntryIsAccess? then ClientSlot(Answer, End(1, false)) else One(Sink, End(1, false), None)
  }

  function Slots3(c: Overlap): map<(NodeId, Sid), Slot> { Slots2()[(JoinIn(c), SID) := JoinSlot(c)] }

  function Slots4(c: Overlap): map<(NodeId, Sid), Slot> {
    Slots3(c)[(ENTRY, SID) := One(Entry, End(0, false), Some(End(1, true)))]
  }

  function Slots5(c: Overlap): map<(NodeId, Sid), Slot> {
    Slots4(c)[(ANSWER, SID) := ClientSlot(Answer, End(2, false))]
  }

  function Slots6(c: Overlap): map<(NodeId, Sid), Slot> { Slots5(c)[(ACCESS, SID) := One(Access, End(2, true), None)] }

  /** The relay node's slot after the set-session message of the access node. */
  function Slots7(c: Overlap): map<(NodeId, Sid), Slot> {
    Slots6(c)[(RelayIn(c), SID) := if c.RelayIsEntry? then One(Entry, End(0, false), Some(End(3, false)))
                 else One(Relay, End(3, false), None)]
  }

  function Slots8(c: Overlap): map<(NodeId, Sid), Slot> {
    Slots7(c)[(ACCESS, SID) := One(Access, End(2, true), Some(End(3, true)))]
  }

  function Slots9(): map<(NodeId, Sid), Slot> {
    Slots8(AllApart)[(SINK, SID) := One(Sink, End(1, false), Some(End(4, false)))]
  }

  function Slots10(): map<(NodeId, Sid), Slot> {
    Slots9()[(RELAY, SID) := One(Relay, End(3, false), Some(End(4, true)))]
  }

  function Slots11(): map<(NodeId, Sid), Slot> {
    Slots10()[(SINK, SID) := One(Sink, End(1, false), Some(End(4, false))).(probe := Some(ProbeRand(SID)))]
  }

  /** The stream that a rerouting entry node has abandoned. */
  function Abandoned(l: Link): Link { AbandonedLink(Used(l)) }

  function Joined(c: Overlap): Control { Tasks(c).(join := Some(1)) }

  function Reached(c: Overlap): Control { Joined(c).(published := true, reach := Some(2)) }

  function Hopped(c: Overlap): Control { Reached(c).(hop := Some(3)) }

  function Bridged(): Control { Hopped(AllApart).(cmd := Bridging, bridge := Some(4)) }

  function Probed(e: bool): Control { Bridged().(cmd := Replied(true), probedA := true, probedE := e) }

  function N1(c: Overlap): Net { State([DialLink()], map[], Tasks(c)) }

  function N2(c: Overlap): Net {
    State([Accepted(DialLink())], map[(ENTRY, SID) := One(Entry, End(0, false), None)], Tasks(c))
  }

  function N3(c: Overlap): Net { State([Used(DialLink())], Slots2(), Tasks(c)) }

  function N4(c: Overlap): Net { State([Used(DialLink()), JoinLink(c)], Slots2(), Joined(c)) }

  function N5(c: Overlap): Net { State([Used(DialLink()), Accepted(JoinLink(c))], Slots3(c), Joined(c)) }

  function N6(c: Overlap): Net { State([Used(DialLink()), Used(JoinLink(c))], Slots4(c), Joined(c)) }

  function N7(c: Overlap): Net {
    State([Used(DialLink()), Used(JoinLink(c))], Slots4(c), Joined(c).(published := true))
  }

  function N8(c: Overlap): Net { State([Used(DialLink()), Used(JoinLink(c)), ReachLink()], Slots4(c), Reached(c)) }

  function N9(c: Overlap): Net {
    State([Used(DialLink()), Used(JoinLink(c)), Accepted(ReachLink())], Slots5(c), Reached(c))
  }

  function N10(c: Overlap): Net {
    State([Used(DialLink()), Used(JoinLink(c)), Used(ReachLink())], Slots6(c), Reached(c))
  }

  function N11(c: Overlap): Net {
    State([Used(DialLink()), Used(JoinLink(c)), Used(ReachLink()), HopLink(c)], Slots6(c), Hopped(c))
  }

  /** The entry node's stream after the access node has chosen its relay. */
  function JoinAfter(c: Overlap): Link {
    if c.RelayIsEntry? then AbandonedLink(Used(JoinLink(c))) else Used(JoinLink(c))
  }

  function N12(c: Overlap): Net {
    State([Used(DialLink()), JoinAfter(c), Used(ReachLink()), Accepted(HopLink(c))], Slots7(c), Hopped(c))
  }

  function N13(c: Overlap): Net {
    State([Used(DialLink()), JoinAfter(c), Used(ReachLink()), Used(HopLink(c))], Slots8(c), Hopped(c).(cmd := Sent))
  }

  /** The four servers apart, with the bridge as given; `e`, `j`, `r`, `h` and `b` tell which streams have a
      probe unread: at the caller, the sink, the answering client, the relay, and the sink again. */
  function Bridge(bridge: Link, e: bool, j: bool, r: bool, h: bool, b: bool): seq<Link> {
    [if e then WithProbe(Used(DialLink()), true) else Used(DialLink()),
     if j then WithProbe(Used(JoinLink(AllApart)), false) else Used(JoinLink(AllApart)),
     if r then WithProbe(Used(ReachLink()), false) else Used(ReachLink()),
     if h then WithProbe(Used(HopLink(AllApart)), false) else Used(HopLink(AllApart)),
     if b then WithProbe(bridge, false) else bridge]
  }

  function N14(): Net { State(Bridge(BridgeLink(), false, false, false, false, false), Slots8(AllApart), Bridged()) }

  function N15(): Net { State(Bridge(Accepted(BridgeLink()), false, false, false, false, false), Slots9(), Bridged()) }

  function N16(): Net {
    State(Bridge(Used(BridgeLink()), false, false, false, false, false), Slots10(), Bridged().(cmd := Replied(true)))
  }

  function N17(): Net { State(Bridge(Used(BridgeLink()), false, false, true, true, false), Slots10(), Probed(false)) }

  function N18(): Net { State(Bridge(Used(BridgeLink()), true, true, true, true, false), Slots10(), Probed(true)) }

  function N19(): Net { State(Bridge(Used(BridgeLink()), true, false, true, true, false), Slots11(), Probed(true)) }

  function N20(): Net { State(Bridge(Used(BridgeLink()), true, false, true, false, true), Slots11(), Probed(true)) }

  // ---- each step -----------------------------------------------------------------------------------

  ghost predicate Goes(a: Net, st: Step, b: Net) { Enabled(a, st) && Do(a, st) == b }

  lemma CallerDials(c: Overlap)
    ensures Goes(NOTHING, Dial(SID, CALLER, ENTRY, ANSWER, HomeIn(c)), N1(c))
  {}

  lemma EntryAccepts(c: Overlap)
    ensures Goes(N1(c), Deliver(End(0, false), SetSession(SID, Entry)), N2(c))
  {
    Accepting(N1(c), 0, Entry, One(Entry, End(0, false), None));
  }

  /** Reading the set-session message at a node that has nothing, or only a stream, for the session id. */
  lemma Accepting(a: Net, l: LinkId, role: Role, slot: Slot)
    requires l < |a.links| && a.links[l].sid == SID
             && a.links[l].a == EndState(multiset{Wake, SetSession(SID, role)}, false, Running(None))
    requires OnSetSession(SlotOf(a, a.links[l].acceptor, SID), End(l, false), SetSession(SID, role)) ==
             Quiet(slot).(ack := true)
    ensures Goes(a, Deliver(End(l, false), SetSession(SID, role)),
                 a.(slots := a.slots[(a.links[l].acceptor, SID) := slot], links := a.links[l := Accepted(a.links[l])]))
  {
    hide OnSetSession, DoDeliver;
    var e, m := End(l, false), SetSession(SID, role);
    assert multiset{Wake, m} - multiset{m} == multiset{Wake};
    assert AcceptedLink(a.links[l], m) == Accepted(a.links[l]);
    DeliverKept(a, e, m, slot);
  }

  lemma CallerAttaches(c: Overlap)
    ensures Goes(N2(c), DialAttach(SID), N3(c))
  {}

  lemma EntryOpens(c: Overlap)
    ensures Goes(N3(c), JoinOpen(SID, JoinIn(c)), N4(c))
  {
    hide Slots2;
    EntryBefore();
  }

  lemma EntryBefore()
    ensures (ENTRY, SID) in Slots2() && Slots2()[(ENTRY, SID)] == One(Entry, End(0, false), None)
  {}

  lemma JoinAccepts(c: Overlap)
    ensures Goes(N4(c), Deliver(End(1, false), SetSession(SID, if c.EntryIsAccess? then Answer else Sink)), N5(c))
  {
    Accepting(N4(c), 1, if c.EntryIsAccess? then Answer else Sink, JoinSlot(c));
  }

  lemma EntryAttaches(c: Overlap)
    requires !c.EntryIsAccess?
    ensures Goes(N5(c), JoinAttach(SID), N6(c))
  {}

  lemma EntryPublishes(c: Overlap)
    requires !c.EntryIsAccess?
    ensures Goes(N6(c), Publish(SID), N7(c))
  {
    hide Slots4;
  }

  lemma AccessOpens(c: Overlap)
    requires !c.EntryIsAccess?
    ensures Goes(N7(c), ReachOpen(SID), N8(c))
  {
    hide Slots4;
  }

  lemma AnswerAccepts(c: Overlap)
    requires !c.EntryIsAccess?
    ensures Goes(N8(c), Deliver(End(2, false), SetSession(SID, Answer)), N9(c))
  {
    Accepting(N8(c), 2, Answer, ClientSlot(Answer, End(2, false)));
  }

  /** Attaching a stream that its acceptor has acknowledged. */
  lemma Attaching(a: Net, l: LinkId, link: Link, role: Role)
    requires l < |a.links| && a.links[l] == Accepted(link) && link.sid == SID
             && link.o == EndState(multiset{}, false, Waiting)
    ensures AttachOpener(a, SID, l, role) ==
            a.(links := a.links[l := Used(link)],
               slots := a.slots[(link.opener, SID) := Attach(SlotOf(a, link.opener, SID), role, End(l, true))])
  {}

  lemma AccessAbsent(c: Overlap)
    requires c.RelayIsEntry? || c.AllApart?
    ensures (ACCESS, SID) !in Slots5(c)
  {}

  lemma AccessAttaches(c: Overlap)
    requires c.RelayIsEntry? || c.AllApart?
    ensures Goes(N9(c), ReachAttach(SID), N10(c))
  {
    hide AttachOpener, Slots5, JoinLink, DialLink;
    AccessAbsent(c);
    UsedLinks(c);
    Attaching(N9(c), 2, ReachLink(), Access);
  }

  lemma AccessChooses(c: Overlap)
    requires c.RelayIsEntry? || c.AllApart?
    ensures Goes(N10(c), HopOpen(SID, RelayIn(c)), N11(c))
  {
    hide Slots6, Used, NewLink;
    UsedLinks(c);
  }

  lemma UsedLinks(c: Overlap)
    ensures Used(ReachLink()).o.handler.Running? && Used(JoinLink(c)).acceptor == JoinIn(c)
    ensures HopLink(c) == NewLink(SID, ACCESS, RelayIn(c), Relay) && Used(HopLink(c)).acceptor == RelayIn(c)
  {}

  lemma RelayAccepts()
    ensures Goes(N11(AllApart), Deliver(End(3, false), SetSession(SID, Relay)), N12(AllApart))
  {
    Accepting(N11(AllApart), 3, Relay, One(Relay, End(3, false), None));
  }

  /** The entry node replaces its stream to the sink. */
  lemma EntryReroutes()
    ensures Goes(N11(RelayIsEntry), Deliver(End(3, false), SetSession(SID, Relay)), N12(RelayIsEntry))
  {
    var a, m, slot := N11(RelayIsEntry), SetSession(SID, Relay), One(Entry, End(0, false), Some(End(3, false)));
    assert multiset{Wake, m} - multiset{m} == multiset{Wake};
    assert AcceptedLink(a.links[3], m) == Accepted(a.links[3]);
    assert SlotOf(a, ENTRY, SID) == One(Entry, End(0, false), Some(End(1, true)));
    hide DoDeliver;
    DeliverRerouted(a, End(3, false), m, slot, 1);
  }

  lemma AccessBefore(c: Overlap)
    ensures (ACCESS, SID) in Slots7(c) && Slots7(c)[(ACCESS, SID)] == One(Access, End(2, true), None)
  {}

  lemma AccessExtends(c: Overlap)
    requires c.RelayIsEntry? || c.AllApart?
    ensures Goes(N12(c), HopAttach(SID), N13(c))
  {
    hide AttachOpener, Slots7, JoinAfter;
    AccessBefore(c);
    Attaching(WithControl(N12(c), SID, Hopped(c).(cmd := Sent)), 3, HopLink(c), Access);
  }

  lemma RelayBefore()
    ensures (RELAY, SID) in Slots8(AllApart) && Slots8(AllApart)[(RELAY, SID)] == One(Relay, End(3, false), None)
    ensures (RELAY, SID) in Slots9() && Slots9()[(RELAY, SID)] == One(Relay, End(3, false), None)
  {}

  lemma RelayOpens()
    ensures Goes(N13(AllApart), BridgeOpen(SID), N14())
  {
    hide Slots8, Used, NewLink;
    RelayBefore();
    UsedLinks(AllApart);
  }

  lemma SinkAccepts()
    ensures Goes(N14(), Deliver(End(4, false), SetSession(SID, Sink)), N15())
  {
    Accepting(N14(), 4, Sink, One(Sink, End(1, false), Some(End(4, false))));
  }

  lemma RelayAttaches()
    ensures Goes(N15(), BridgeAttach(SID), N16())
  {
    hide AttachOpener, Slots9, JoinLink, HopLink, ReachLink, DialLink;
    RelayBefore();
    Attaching(WithControl(N15(), SID, Bridged().(cmd := Replied(true))), 4, BridgeLink(), Relay);
  }

  /** A probe sent both ways lies in the inboxes at the other ends of the two streams. */
  lemma Telling(a: Net, n: NodeId, role: Role, e: End, l: End)
    requires (n, SID) in a.slots && a.slots[(n, SID)] == One(role, e, Some(l)) && e.link != l.link
    requires e.link < |a.links| && l.link < |a.links|
    ensures SendBothWays(a, n, SID, PROBE) ==
            a.(links := a.links[e.link := WithProbe(a.links[e.link], !e.opener)]
                               [l.link := WithProbe(a.links[l.link], !l.opener)])
  {
    var out := TwoWay(One(role, e, Some(l)), PROBE);
    Probing(a.links, e);
    Probing(Post(a.links, out.first), l);
    hide Post;
    SameSlot(a.slots, (n, SID));
  }

  lemma Probing(links: seq<Link>, e: End)
    requires e.link < |links|
    ensures Post(links, Some(Write(e, PROBE))) == links[e.link := WithProbe(links[e.link], !e.opener)]
  {}

  lemma SameSlot(slots: map<(NodeId, Sid), Slot>, x: (NodeId, Sid))
    requires x in slots
    ensures slots[x := slots[x]] == slots
  {}

  lemma TellersReady()
    ensures (ACCESS, SID) in Slots10() && Slots10()[(ACCESS, SID)] == One(Access, End(2, true), Some(End(3, true)))
    ensures (ENTRY, SID) in Slots10() && Slots10()[(ENTRY, SID)] == One(Entry, End(0, false), Some(End(1, true)))
  {}

  lemma AccessProbes()
    ensures Goes(N16(), ExpandReply(SID), N17())
  {
    hide SendBothWays, Slots10, WithProbe;
    TellersReady();
    Telling(WithControl(N16(), SID, Probed(false)), ACCESS, Access, End(2, true), End(3, true));
  }

  lemma EntryProbes()
    ensures Goes(N17(), ProbeFromEntry(SID), N18())
  {
    hide SendBothWays, Slots10, WithProbe;
    TellersReady();
    Telling(WithControl(N17(), SID, Probed(true)), ENTRY, Entry, End(0, false), End(1, true));
  }

  /** The delivery of a probe whose reader knows the session id. */
  lemma ProbeTaken(a: Net, l: LinkId, link: Link, out: Outcome)
    requires l < |a.links| && a.links[l] == WithProbe(Used(link), false) && link.sid == SID
    requires out == OnProbe(SlotOf(a, link.acceptor, SID), End(l, false), SID, PROBE) && !out.ack
    ensures EnabledRelay(a, Deliver(End(l, false), PROBE))
    ensures DoDeliver(a, End(l, false), PROBE) == Commit(a.(links := a.links[l := Used(link)]), link.acceptor, SID, out)
  {
    hide OnProbe, Commit;
    assert multiset{Wake} + multiset{PROBE} - multiset{PROBE} == multiset{Wake};
  }

  lemma SinkStores()
    ensures Goes(N18(), Deliver(End(1, false), PROBE), N19())
  {
    hide DoDeliver;
    var s := One(Sink, End(1, false), Some(End(4, false)));
    assert SlotOf(N18(), SINK, SID) == s;
    ProbeTaken(N18(), 1, JoinLink(AllApart), Quiet(s.(probe := Some(ProbeRand(SID)))));
  }

  lemma RelayForwards()
    ensures Goes(N19(), Deliver(End(3, false), PROBE), N20())
  {
    hide DoDeliver, Post;
    var s := One(Relay, End(3, false), Some(End(4, true)));
    var a := N19();
    assert SlotOf(a, RELAY, SID) == s;
    ProbeTaken(a, 3, HopLink(AllApart), Quiet(s).(first := Some(Write(End(4, true), PROBE))));
    var links := a.links[3 := Used(HopLink(AllApart))];
    Probing(links, End(4, true));
    NothingWritten(links[4 := WithProbe(links[4], false)]);
    SameSlot(a.slots, (RELAY, SID));
  }

  lemma NothingWritten(links: seq<Link>)
    ensures Post(links, None) == links && Shut(links, None) == links
  {}

  // ---- the Success -----------------------------------------------------------------------------------

  /** The overlap of the session's circuit, as its tasks and streams show it. */
  predicate Shows(net: Net, c: Overlap) {
    SID in net.ctls
    && var k := net.ctls[SID];
    match c
    case EntryIsAccess => k.home == k.entry
    case SinkIsAccess => k.home != k.entry && AcceptorOf(net, k.join) == Some(k.home)
    case RelayIsEntry => k.home != k.entry && AcceptorOf(net, k.hop) == Some(k.entry)
    case AllApart =>
      && k.home != k.entry && AcceptorOf(net, k.join).Some? && AcceptorOf(net, k.hop).Some?
      && AcceptorOf(net, k.join).value !in {k.entry, k.home}
      && AcceptorOf(net, k.hop).value !in {k.entry, k.home, AcceptorOf(net, k.join).value}
  }

  ghost predicate Originates(a: Net, st: Step, c: Overlap) {
    Enabled(a, st) && var b := Do(a, st); b.emitted == multiset{SID} && b.broken == {} && Shows(b, c)
  }

  /** Originating the Success at node `n` leaves tasks and streams as they are, up to the messages. */
  lemma Emitting(a: Net, n: NodeId, c: Overlap)
    requires Shows(a, c) && a.emitted == multiset{} && a.broken == {} && SlotOf(a, n, SID).session.Some?
    ensures var b := Commit(a, n, SID, TwoWay(SlotOf(a, n, SID), Success(SID)));
            b.emitted == multiset{SID} && b.broken == {} && Shows(b, c)
  {
    var s := SlotOf(a, n, SID).session.value;
    var l1 := Post(a.links, WriteTo(s.early, Success(SID)));
    SameAcceptors(a.links, WriteTo(s.early, Success(SID)));
    SameAcceptors(l1, WriteTo(s.later, Success(SID)));
    NothingShut(Post(l1, WriteTo(s.later, Success(SID))));
    hide Post, Shut;
  }

  lemma SameAcceptors(links: seq<Link>, w: Option<Write>)
    ensures forall i :: 0 <= i < |links| ==> Post(links, w)[i].acceptor == links[i].acceptor
  {}

  lemma NothingShut(links: seq<Link>)
    ensures Shut(links, None) == links
  {}

  lemma EntryOriginates()
    ensures Originates(N5(EntryIsAccess), JoinAttach(SID), EntryIsAccess)
  {
    hide Commit, TwoWay;
    Emitting(AttachOpener(N5(EntryIsAccess), SID, 1, Access), ENTRY, EntryIsAccess);
  }

  lemma AccessOriginates()
    ensures Originates(N9(SinkIsAccess), ReachAttach(SID), SinkIsAccess)
  {
    hide Commit, TwoWay;
    Emitting(AttachOpener(N9(SinkIsAccess), SID, 2, Access), ACCESS, SinkIsAccess);
  }

  lemma EntryRelays()
    ensures (ENTRY, SID) in Slots8(RelayIsEntry)
    ensures Slots8(RelayIsEntry)[(ENTRY, SID)] == One(Entry, End(0, false), Some(End(3, false)))
  {}

  lemma RelayOriginates()
    ensures Originates(N13(RelayIsEntry), CmdReady(SID), RelayIsEntry)
  {
    hide Commit, TwoWay, Slots8, JoinAfter, JoinLink, ReachLink, DialLink;
    EntryRelays();
    Emitting(WithControl(N13(RelayIsEntry), SID, Hopped(RelayIsEntry).(cmd := Replied(true))), ENTRY, RelayIsEntry);
  }

  lemma SinkOriginates()
    ensures Originates(N20(), Deliver(End(4, false), PROBE), AllApart)
  {
    hide Commit, TwoWay, DoDeliver;
    var s := One(Sink, End(1, false), Some(End(4, false))).(probe := Some(ProbeRand(SID)));
    assert SlotOf(N20(), SINK, SID) == s;
    var out := TwoWay(s, Success(SID));
    NoAck(s);
    ProbeTaken(N20(), 4, BridgeLink(), out);
    Emitting(N20().(links := N20().links[4 := Used(BridgeLink())]), SINK, AllApart);
  }

  lemma NoAck(s: Slot)
    ensures !TwoWay(s, Success(SID)).ack
  {}

  // ---- the runs --------------------------------------------------------------------------------------

  ghost predicate Reaches(steps: seq<Step>, b: Net) { CanRun(NOTHING, steps) && Run(NOTHING, steps) == b }

  lemma {:induction false} Append(a: Net, steps: seq<Step>, st: Step)
    requires CanRun(a, steps) && Enabled(Run(a, steps), st)
    ensures CanRun(a, steps + [st]) && Run(a, steps + [st]) == Do(Run(a, steps), st)
    decreases |steps|
  {
    hide Enabled, Do;
    if steps == [] {
      assert [st][1..] == [] && steps + [st] == [st] && CanRun(Do(a, st), []);
    } else {
      assert (steps + [st])[1..] == steps[1..] + [st];
      Append(Do(a, steps[0]), steps[1..], st);
    }
  }

  lemma Then(steps: seq<Step>, a: Net, st: Step, b: Net) returns (more: seq<Step>)
    requires Reaches(steps, a) && Goes(a, st, b)
    ensures Reaches(more, b)
  {
    hide Enabled, Do;
    Append(NOTHING, steps, st);
    more := steps + [st];
  }

  lemma Nothing()
    ensures Reaches([], NOTHING) && Initial(NOTHING)
  {}

  lemma ToJoined(c: Overlap) returns (steps: seq<Step>)
    ensures Reaches(steps, N5(c))
  {
    hide *;
    Nothing();
    CallerDials(c);
    steps := Then([], NOTHING, Dial(SID, CALLER, ENTRY, ANSWER, HomeIn(c)), N1(c));
    EntryAccepts(c);
    steps := Then(steps, N1(c), Deliver(End(0, false), SetSession(SID, Entry)), N2(c));
    CallerAttaches(c);
    steps := Then(steps, N2(c), DialAttach(SID), N3(c));
    EntryOpens(c);
    steps := Then(steps, N3(c), JoinOpen(SID, JoinIn(c)), N4(c));
    JoinAccepts(c);
    steps := Then(steps, N4(c), Deliver(End(1, false), SetSession(SID, if c.EntryIsAccess? then Answer else Sink)),
                     N5(c));
  }

  lemma ToReached(c: Overlap) returns (steps: seq<Step>)
    requires !c.EntryIsAccess?
    ensures Reaches(steps, N9(c))
  {
    hide *;
    steps := ToJoined(c);
    EntryAttaches(c);
    steps := Then(steps, N5(c), JoinAttach(SID), N6(c));
    EntryPublishes(c);
    steps := Then(steps, N6(c), Publish(SID), N7(c));
    AccessOpens(c);
    steps := Then(steps, N7(c), ReachOpen(SID), N8(c));
    AnswerAccepts(c);
    steps := Then(steps, N8(c), Deliver(End(2, false), SetSession(SID, Answer)), N9(c));
  }

  lemma ToExtended(c: Overlap) returns (steps: seq<Step>)
    requires c.RelayIsEntry? || c.AllApart?
    ensures Reaches(steps, N13(c))
  {
    hide *;
    steps := ToReached(c);
    AccessAttaches(c);
    steps := Then(steps, N9(c), ReachAttach(SID), N10(c));
    AccessChooses(c);
    steps := Then(steps, N10(c), HopOpen(SID, RelayIn(c)), N11(c));
    if c.RelayIsEntry? { EntryReroutes(); } else { RelayAccepts(); }
    steps := Then(steps, N11(c), Deliver(End(3, false), SetSession(SID, Relay)), N12(c));
    AccessExtends(c);
    steps := Then(steps, N12(c), HopAttach(SID), N13(c));
  }

  lemma ToProbed() returns (steps: seq<Step>)
    ensures Reaches(steps, N20())
  {
    hide *;
    steps := ToExtended(AllApart);
    RelayOpens();
    steps := Then(steps, N13(AllApart), BridgeOpen(SID), N14());
    SinkAccepts();
    steps := Then(steps, N14(), Deliver(End(4, false), SetSession(SID, Sink)), N15());
    RelayAttaches();
    steps := Then(steps, N15(), BridgeAttach(SID), N16());
    AccessProbes();
    steps := Then(steps, N16(), ExpandReply(SID), N17());
    EntryProbes();
    steps := Then(steps, N17(), ProbeFromEntry(SID), N18());
    SinkStores();
    steps := Then(steps, N18(), Deliver(End(1, false), PROBE), N19());
    RelayForwards();
    steps := Then(steps, N19(), Deliver(End(3, false), PROBE), N20());
  }

  lemma Finishing(steps: seq<Step>, a: Net, st: Step, c: Overlap) returns (more: seq<Step>)
    requires Reaches(steps, a) && Originates(a, st, c)
    ensures CanRun(NOTHING, more) && Connected(Run(NOTHING, more), SID) && Shows(Run(NOTHING, more), c)
  {
    hide Enabled, Do, Connected;
    Append(NOTHING, steps, st);
    Nothing();
    more := steps + [st];
    ReachableCircuit(NOTHING, more, SID);
  }

  /** In each of the four overlaps some run from the empty network connects the two clients. */
  lemma EveryOverlapIsReached(c: Overlap) returns (steps: seq<Step>)
    ensures Initial(NOTHING) && CanRun(NOTHING, steps)
    ensures Connected(Run(NOTHING, steps), SID) && Shows(Run(NOTHING, steps), c)
  {
    hide *;
    Nothing();
    match c
    case EntryIsAccess =>
      steps := ToJoined(c);
      EntryOriginates();
      steps := Finishing(steps, N5(c), JoinAttach(SID), c);
    case SinkIsAccess =>
      steps := ToReached(c);
      AccessOriginates();
      steps := Finishing(steps, N9(c), ReachAttach(SID), c);
    case RelayIsEntry =>
      steps := ToExtended(c);
      RelayOriginates();
      steps := Finishing(steps, N13(c), CmdReady(SID), c);
    case AllApart =>
      steps := ToProbed();
      SinkOriginates();
      steps := Finishing(steps, N20(), Deliver(End(4, false), PROBE), c);
  }
}
