/** The whole network as one step relation: the slots of all nodes, the streams between them,
    and for each session id the program counters of the four tasks that build its circuit. */
module Network {
  import opened Wrappers
  import opened Protocol
  import opened RelayLogic

  /** The reader task of one stream end: not yet spawned, running with or without a session id,
      or finished. */
  datatype Handler = Waiting | Running(sid: Option<Sid>) | Stopped

  /** `inbox` holds every message the other side has queued and this side's handler has not read;
      each read is handed over by its own task, so the order is lost. `eof` means that the handler
      will be given a read error. */
  datatype EndState = EndState(inbox: multiset<Message>, eof: bool, handler: Handler)

  /** `sid` is the session id for which the opener took the stream; `acked` means that the
      acceptor's acknowledgement of the set-session message is on its way back. */
  datatype Link = Link(sid: Sid, opener: NodeId, acceptor: NodeId, o: EndState, a: EndState, acked: bool)

  /** The expand command from the access node to the relay node. */
  datatype Command = Unsent | Sent | Bridging | Replied(ok: bool)

  /** The tasks of one session id: dial at the caller, handle_new_circuit at the entry node, the
      gossip handler at `home` (the node the answering client is registered at), and the command
      handler at the relay node. The links are the streams these tasks opened. */
  datatype Control = Control(
    caller: NodeId, entry: NodeId, answer: NodeId, home: NodeId,
    dial: LinkId, join: Option<LinkId>, published: bool, probedE: bool,
    reach: Option<LinkId>, hop: Option<LinkId>, cmd: Command, bridge: Option<LinkId>, probedA: bool,
    endedE: bool, endedA: bool)

  /** `emitted` counts originated Success messages, `started` the handshakes started, and `broken`
      holds the session ids for which a node gave up, a client closed, or a stream failed. */
  datatype Net = Net(
    clients: set<NodeId>,
    slots: map<(NodeId, Sid), Slot>,
    links: seq<Link>,
    ctls: map<Sid, Control>,
    emitted: multiset<Sid>,
    started: multiset<(NodeId, Sid)>,
    broken: set<Sid>)

  function EndOf(l: Link, opener: bool): EndState { if opener then l.o else l.a }

  function WithEnd(l: Link, opener: bool, es: EndState): Link {
    if opener then l.(o := es) else l.(a := es)
  }

  function NodeOf(l: Link, opener: bool): NodeId { if opener then l.opener else l.acceptor }

  predicate Known(net: Net, e: End) { e.link < |net.links| }

  function StateOf(net: Net, e: End): EndState
    requires Known(net, e)
  {
    EndOf(net.links[e.link], e.opener)
  }

  function OwnerOf(net: Net, e: End): NodeId
    requires Known(net, e)
  {
    NodeOf(net.links[e.link], e.opener)
  }

  function SlotOf(net: Net, n: NodeId, sid: Sid): Slot {
    if (n, sid) in net.slots then net.slots[(n, sid)] else EMPTY_SLOT
  }

  /** A write on one end lands in the inbox of the other end. */
  function Post(links: seq<Link>, w: Option<Write>): (r: seq<Link>)
    ensures |r| == |links|
  {
    if w.None? || w.value.end.link >= |links| then links
    else
      var to := Peer(w.value.end);
      var l := links[to.link];
      var es := EndOf(l, to.opener);
      links[to.link := WithEnd(l, to.opener, es.(inbox := es.inbox + multiset{w.value.msg}))]
  }

  function ShutLink(l: Link): Link {
    l.(o := l.o.(eof := true), a := l.a.(eof := true))
  }

  /** Closing either end makes both readers meet an error. */
  function Shut(links: seq<Link>, e: Option<End>): (r: seq<Link>)
    ensures |r| == |links|
  {
    if e.None? || e.value.link >= |links| then links
    else links[e.value.link := ShutLink(links[e.value.link])]
  }

  function Commit(net: Net, n: NodeId, sid: Sid, out: Outcome): (r: Net)
    ensures |r.links| == |net.links|
  {
    net.(slots := net.slots[(n, sid) := out.slot],
         links := Shut(Shut(Post(Post(net.links, out.first), out.second), out.shut1), out.shut2),
         emitted := if out.emits then net.emitted + multiset{sid} else net.emitted,
         started := if out.starts then net.started + multiset{(n, sid)} else net.started)
  }

  function Ack(net: Net, link: LinkId): Net
    requires link < |net.links|
  {
    net.(links := net.links[link := net.links[link].(acked := true)])
  }

  function Break(net: Net, sid: Sid): Net { net.(broken := net.broken + {sid}) }

  function WithControl(net: Net, sid: Sid, k: Control): Net { net.(ctls := net.ctls[sid := k]) }

  /** A new stream carrying a wake and a set-session message to its acceptor. */
  function NewLink(sid: Sid, opener: NodeId, acceptor: NodeId, role: Role): Link {
    Link(sid, opener, acceptor,
         EndState(multiset{}, false, Waiting),
         EndState(multiset{Wake, SetSession(sid, role)}, false, Running(None)),
         false)
  }

  function Open(net: Net, sid: Sid, opener: NodeId, acceptor: NodeId, role: Role): Net {
    net.(links := net.links + [NewLink(sid, opener, acceptor, role)])
  }

  predicate Attached(net: Net, link: LinkId)
    requires link < |net.links|
  {
    !net.links[link].o.handler.Waiting?
  }

  /** The opener has its acknowledgement: it spawns its handler and puts the stream in its session. */
  function AttachOpener(net: Net, sid: Sid, link: LinkId, role: Role): Net
    requires link < |net.links|
  {
    var l := net.links[link];
    net.(links := net.links[link := l.(o := l.o.(handler := Running(Some(sid))), acked := false)],
         slots := net.slots[(l.opener, sid) := Attach(SlotOf(net, l.opener, sid), role, End(link, true))])
  }

  predicate Awaited(net: Net, link: Option<LinkId>) {
    link.Some? && link.value < |net.links| && net.links[link.value].acked && !Attached(net, link.value)
  }

  predicate Done(net: Net, link: Option<LinkId>) {
    link.Some? && link.value < |net.links| && Attached(net, link.value)
  }

  function AcceptorOf(net: Net, link: Option<LinkId>): Option<NodeId> {
    if link.Some? && link.value < |net.links| then Some(net.links[link.value].acceptor) else None
  }

  datatype Step =
    | Dial(sid: Sid, caller: NodeId, entry: NodeId, answer: NodeId, home: NodeId)
    | DialAttach(sid: Sid)
    | JoinOpen(sid: Sid, peer: NodeId)
    | JoinRefuse(sid: Sid)
    | JoinGiveUp(sid: Sid)
    | JoinAttach(sid: Sid)
    | Publish(sid: Sid)
    | ProbeFromEntry(sid: Sid)
    | ReachOpen(sid: Sid)
    | ReachGiveUp(sid: Sid)
    | ReachAttach(sid: Sid)
    | HopOpen(sid: Sid, peer: NodeId)
    | HopGiveUp(sid: Sid)
    | HopAttach(sid: Sid)
    | CmdRefuse(sid: Sid)
    | CmdReady(sid: Sid)
    | BridgeOpen(sid: Sid)
    | BridgeGiveUp(sid: Sid)
    | BridgeAttach(sid: Sid)
    | ExpandReply(sid: Sid)
    | Deliver(end: End, msg: Message)
    | Fault(end: End)
    | Lose(end: End, msg: Message)
    | ClientClose(node: NodeId, sid: Sid)
    | Fail(link: LinkId)
    | Send(node: NodeId, sid: Sid, payload: Payload)
    | Store(node: NodeId, sid: Sid, end: End)

  predicate IsRelayStep(st: Step) {
    st.Deliver? || st.Fault? || st.Lose? || st.ClientClose? || st.Fail? || st.Send? || st.Store?
  }

  /** The entry task has a request to work on and has opened nothing yet. */
  predicate EntryIdle(net: Net, k: Control) {
    Done(net, Some(k.dial)) && k.join.None? && !k.endedE
  }

  /** The session check at the head of handle_new_circuit. */
  predicate HalfOpen(slot: Slot) { slot.session.Some? && !slot.session.value.Ready() }

  predicate HomeIdle(k: Control) { k.published && k.reach.None? && !k.endedA }

  /** The access task looks for a relay node. */
  predicate HomeSeeks(net: Net, k: Control) {
    Done(net, k.reach) && AcceptorOf(net, k.join) != Some(k.home) && k.hop.None? && !k.endedA
  }

  predicate CmdPending(net: Net, k: Control) { k.cmd == Sent && AcceptorOf(net, k.hop).Some? }

  function RelaySlot(net: Net, sid: Sid, k: Control): Slot
    requires AcceptorOf(net, k.hop).Some?
  {
    SlotOf(net, AcceptorOf(net, k.hop).value, sid)
  }

  predicate EnabledTask(net: Net, st: Step)
    requires !IsRelayStep(st)
  {
    if st.Dial? then
      && st.sid !in net.ctls
      && st.caller in net.clients && st.answer in net.clients && st.caller != st.answer
      && st.entry !in net.clients && st.home !in net.clients
    else
      && st.sid in net.ctls
      && var k := net.ctls[st.sid];
      match st
      case DialAttach(_) => Awaited(net, Some(k.dial))
      case JoinOpen(_, peer) =>
        && EntryIdle(net, k) && HalfOpen(SlotOf(net, k.entry, st.sid))
        && (if k.home == k.entry then peer == k.answer else peer !in net.clients && peer != k.entry)
      case JoinRefuse(_) => EntryIdle(net, k) && !HalfOpen(SlotOf(net, k.entry, st.sid))
      case JoinGiveUp(_) => EntryIdle(net, k) && HalfOpen(SlotOf(net, k.entry, st.sid))
      case JoinAttach(_) => Awaited(net, k.join)
      case Publish(_) => Done(net, k.join) && k.home != k.entry && !k.published
      case ProbeFromEntry(_) => k.published && !k.probedE
      case ReachOpen(_) => HomeIdle(k)
      case ReachGiveUp(_) => HomeIdle(k)
      case ReachAttach(_) => Awaited(net, k.reach)
      case HopOpen(_, peer) =>
        && HomeSeeks(net, k)
        && peer !in net.clients && peer != k.home && Some(peer) != AcceptorOf(net, k.join)
      case HopGiveUp(_) => HomeSeeks(net, k)
      case HopAttach(_) => Awaited(net, k.hop)
      case CmdRefuse(_) => CmdPending(net, k) && RelaySlot(net, st.sid, k).session.None?
      case CmdReady(_) =>
        && CmdPending(net, k)
        && RelaySlot(net, st.sid, k).session.Some? && RelaySlot(net, st.sid, k).session.value.Ready()
      case BridgeOpen(_) =>
        CmdPending(net, k) && HalfOpen(RelaySlot(net, st.sid, k)) && AcceptorOf(net, k.join).Some?
      case BridgeGiveUp(_) => CmdPending(net, k) && HalfOpen(RelaySlot(net, st.sid, k))
      case BridgeAttach(_) => Awaited(net, k.bridge)
      case ExpandReply(_) => k.cmd.Replied? && !k.probedA && !k.endedA
  }

  /** Node `n` has held its end `e` of a stream of `sid`. */
  predicate HadStream(net: Net, n: NodeId, sid: Sid, e: End) {
    && Known(net, e) && net.links[e.link].sid == sid && OwnerOf(net, e) == n
    && net.links[e.link].a.handler != Running(None)
    && (e.opener ==> net.links[e.link].o.handler != Waiting)
  }

  predicate EnabledRelay(net: Net, st: Step)
    requires IsRelayStep(st)
  {
    match st
    case Deliver(e, m) => Known(net, e) && StateOf(net, e).handler.Running? && m in StateOf(net, e).inbox
    case Fault(e) => Known(net, e) && StateOf(net, e).handler.Running? && StateOf(net, e).eof
    case Lose(e, m) => Known(net, e) && StateOf(net, e).eof && m in StateOf(net, e).inbox
    case ClientClose(n, sid) => sid in net.ctls
    case Fail(l) => l < |net.links|
    case Send(n, sid, _) => SlotOf(net, n, sid).circuit.Some? && (n, sid) in net.started
    case Store(n, sid, e) => (n, sid) in net.started && HadStream(net, n, sid, e)
  }

  predicate Enabled(net: Net, st: Step) {
    if IsRelayStep(st) then EnabledRelay(net, st) else EnabledTask(net, st)
  }

  function Close(net: Net, n: NodeId, sid: Sid): Net { Commit(net, n, sid, OnClose(SlotOf(net, n, sid))) }

  function SendBothWays(net: Net, n: NodeId, sid: Sid, msg: Message): Net {
    Commit(net, n, sid, TwoWay(SlotOf(net, n, sid), msg))
  }

  function DoDialAttach(net: Net, sid: Sid, k: Control): Net
    requires Awaited(net, Some(k.dial))
  {
    var n1 := AttachOpener(net, sid, k.dial, Caller);
    var s := SlotOf(n1, k.caller, sid);
    n1.(slots := n1.slots[(k.caller, sid) := s.(circuit := Some(Circuit(End(k.dial, true), multiset{}, multiset{})))])
  }

  function DoJoinOpen(net: Net, sid: Sid, k: Control, peer: NodeId): Net {
    WithControl(Open(net, sid, k.entry, peer, if k.home == k.entry then Answer else Sink),
                sid, k.(join := Some(|net.links|)))
  }

  /** An entry node that is also the access node returns without closing. */
  function DoJoinGiveUp(net: Net, sid: Sid, k: Control): Net {
    var n1 := WithControl(net, sid, k.(endedE := true));
    if k.home == k.entry then n1 else Break(Close(n1, k.entry, sid), sid)
  }

  function DoJoinAttach(net: Net, sid: Sid, k: Control): Net
    requires Awaited(net, k.join)
  {
    if k.home == k.entry then
      SendBothWays(AttachOpener(net, sid, k.join.value, Access), k.entry, sid, Success(sid))
    else AttachOpener(net, sid, k.join.value, Entry)
  }

  function DoReachAttach(net: Net, sid: Sid, k: Control): Net
    requires Awaited(net, k.reach)
  {
    var n1 := AttachOpener(net, sid, k.reach.value, Access);
    if AcceptorOf(net, k.join) == Some(k.home) then SendBothWays(n1, k.home, sid, Success(sid)) else n1
  }

  function DoExpandReply(net: Net, sid: Sid, k: Control): Net
    requires k.cmd.Replied?
  {
    if k.cmd.ok then
      SendBothWays(WithControl(net, sid, k.(probedA := true)), k.home, sid, Probe(sid, ProbeRand(sid)))
    else Close(WithControl(net, sid, k.(endedA := true)), k.home, sid)
  }

  function DoTask(net: Net, st: Step): Net
    requires !IsRelayStep(st) && EnabledTask(net, st)
  {
    if st.Dial? then
      WithControl(Open(net, st.sid, st.caller, st.entry, Entry), st.sid,
                  Control(st.caller, st.entry, st.answer, st.home, |net.links|, None, false, false,
                          None, None, Unsent, None, false, false, false))
    else
      var k := net.ctls[st.sid];
      match st
      case DialAttach(sid) => DoDialAttach(net, sid, k)
      case JoinOpen(sid, peer) => DoJoinOpen(net, sid, k, peer)
      case JoinRefuse(sid) => WithControl(net, sid, k.(endedE := true))
      case JoinGiveUp(sid) => DoJoinGiveUp(net, sid, k)
      case JoinAttach(sid) => DoJoinAttach(net, sid, k)
      case Publish(sid) => WithControl(net, sid, k.(published := true))
      case ProbeFromEntry(sid) =>
        SendBothWays(WithControl(net, sid, k.(probedE := true)), k.entry, sid, Probe(sid, ProbeRand(sid)))
      case ReachOpen(sid) =>
        WithControl(Open(net, sid, k.home, k.answer, Answer), sid, k.(reach := Some(|net.links|)))
      case ReachGiveUp(sid) => Break(Close(WithControl(net, sid, k.(endedA := true)), k.home, sid), sid)
      case ReachAttach(sid) => DoReachAttach(net, sid, k)
      case HopOpen(sid, peer) =>
        WithControl(Open(net, sid, k.home, peer, Relay), sid, k.(hop := Some(|net.links|)))
      case HopGiveUp(sid) => Break(Close(WithControl(net, sid, k.(endedA := true)), k.home, sid), sid)
      case HopAttach(sid) =>
        AttachOpener(WithControl(net, sid, k.(cmd := Sent)), sid, k.hop.value, Access)
      case CmdRefuse(sid) =>
        Close(WithControl(net, sid, k.(cmd := Replied(false))), AcceptorOf(net, k.hop).value, sid)
      case CmdReady(sid) =>
        SendBothWays(WithControl(net, sid, k.(cmd := Replied(true))), AcceptorOf(net, k.hop).value, sid, Success(sid))
      case BridgeOpen(sid) =>
        WithControl(Open(net, sid, AcceptorOf(net, k.hop).value, AcceptorOf(net, k.join).value, Sink), sid,
                    k.(bridge := Some(|net.links|), cmd := Bridging))
      case BridgeGiveUp(sid) =>
        Break(Close(WithControl(net, sid, k.(cmd := Replied(false))), AcceptorOf(net, k.hop).value, sid), sid)
      case BridgeAttach(sid) =>
        AttachOpener(WithControl(net, sid, k.(cmd := Replied(true))), sid, k.bridge.value, Relay)
      case ExpandReply(sid) => DoExpandReply(net, sid, k)
  }

  /** Takes one copy of a message out of an inbox. */
  function Take(net: Net, e: End, m: Message, handler: Handler): Net
    requires Known(net, e)
  {
    var es := StateOf(net, e);
    net.(links := net.links[e.link := WithEnd(net.links[e.link], e.opener,
                                              es.(inbox := es.inbox - multiset{m}, handler := handler))])
  }

  /** The session id under which a node looks its tables up: the one in the message, except that a
      probe uses the one the handler has remembered. */
  function LookupSid(m: Message, remembered: Option<Sid>): Option<Sid> {
    match m
    case Wake => None
    case SetSession(sid, _) => Some(sid)
    case Probe(_, _) => remembered
    case Disconnect(sid) => Some(sid)
    case Success(sid) => Some(sid)
    case Data(sid, _) => Some(sid)
  }

  function NextHandler(m: Message, remembered: Option<Sid>): Handler {
    match m
    case SetSession(sid, _) => Running(if remembered.None? then Some(sid) else remembered)
    case Disconnect(_) => Stopped
    case Probe(_, _) => if remembered.None? then Stopped else Running(remembered)
    case _ => Running(remembered)
  }

  function DoDeliver(net: Net, e: End, m: Message): Net
    requires EnabledRelay(net, Deliver(e, m))
  {
    var remembered := StateOf(net, e).handler.sid;
    var n1 := Take(net, e, m, NextHandler(m, remembered));
    var sid := LookupSid(m, remembered);
    if sid.None? then n1
    else
      var out := OnMessage(SlotOf(net, OwnerOf(net, e), sid.value), e, sid.value, m);
      var n2 := Commit(n1, OwnerOf(net, e), sid.value, out);
      if out.ack then Ack(n2, e.link) else n2
  }

  function DoFault(net: Net, e: End): Net
    requires EnabledRelay(net, Fault(e))
  {
    var es := StateOf(net, e);
    var n1 := net.(links := net.links[e.link := WithEnd(net.links[e.link], e.opener, es.(handler := Stopped))]);
    if es.handler.sid.None? then n1
    else Commit(n1, OwnerOf(net, e), es.handler.sid.value,
                   OnError(SlotOf(net, OwnerOf(net, e), es.handler.sid.value), e))
  }

  function DoSend(net: Net, n: NodeId, sid: Sid, payload: Payload): Net
    requires EnabledRelay(net, Send(n, sid, payload))
  {
    var s := SlotOf(net, n, sid);
    var c := s.circuit.value;
    net.(slots := net.slots[(n, sid) := s.(circuit := Some(c.(sent := c.sent + multiset{payload})))],
         links := Post(net.links, Some(Write(c.out, Data(sid, payload)))))
  }

  /** A handshake task that has finished puts its copy of the circuit entry into the table, whether the
      entry is still there or not. The copy shares the channel of the entry. */
  function DoStore(net: Net, n: NodeId, sid: Sid, e: End): Net {
    var s := SlotOf(net, n, sid);
    if s.circuit.Some? then net
    else net.(slots := net.slots[(n, sid) := s.(circuit := Some(Circuit(e, multiset{}, multiset{})))])
  }

  function DoRelay(net: Net, st: Step): Net
    requires IsRelayStep(st) && EnabledRelay(net, st)
  {
    match st
    case Deliver(e, m) => DoDeliver(net, e, m)
    case Fault(e) => DoFault(net, e)
    case Lose(e, m) => Take(net, e, m, StateOf(net, e).handler)
    case ClientClose(n, sid) => Break(Close(net, n, sid), sid)
    case Fail(l) => Break(net.(links := net.links[l := ShutLink(net.links[l])]), net.links[l].sid)
    case Send(n, sid, payload) => DoSend(net, n, sid, payload)
    case Store(n, sid, e) => DoStore(net, n, sid, e)
  }

  function Do(net: Net, st: Step): Net
    requires Enabled(net, st)
  {
    if IsRelayStep(st) then DoRelay(net, st) else DoTask(net, st)
  }

  predicate Initial(net: Net) {
    net.slots == map[] && net.links == [] && net.ctls == map[] && net.broken == {}
    && net.emitted == multiset{} && net.started == multiset{}
  }

  /** A run: from `net`, the steps are enabled one after the other. */
  ghost predicate CanRun(net: Net, steps: seq<Step>)
    decreases |steps|
  {
    steps == [] || (Enabled(net, steps[0]) && CanRun(Do(net, steps[0]), steps[1..]))
  }

  ghost function Run(net: Net, steps: seq<Step>): Net
    requires CanRun(net, steps)
    decreases |steps|
  {
    if steps == [] then net else Run(Do(net, steps[0]), steps[1..])
  }
}
