/** What every step of the whole network keeps, breakdowns included: each stream serves one session
    id, each table entry refers only to streams of its own session id and node, and a step for one
    session id leaves every other session id alone. */
module Isolation {
  import opened Wrappers
  import opened Protocol
  import opened RelayLogic
  import opened Network

  predicate Carries(m: Message, sid: Sid) {
    match m
    case Wake => true
    case SetSession(s, role) => s == sid && role != Caller
    case Probe(s, r) => s == sid && r == ProbeRand(sid)
    case Disconnect(s) => s == sid
    case Success(s) => s == sid
    case Data(s, _) => s == sid
  }

  predicate OpeningMessage(m: Message) { m.Wake? || m.SetSession? }

  /** The message found in an unread inbox is one that the stream's session id accounts for. */
  ghost predicate InboxOk(es: EndState, sid: Sid) {
    forall m :: m in es.inbox ==> Carries(m, sid)
  }

  ghost predicate LinkOk(l: Link) {
    && InboxOk(l.o, l.sid)
    && InboxOk(l.a, l.sid)
    && (l.o.handler == Waiting || l.o.handler == Running(Some(l.sid)) || l.o.handler == Stopped)
    && (l.a.handler == Running(None) || l.a.handler == Running(Some(l.sid)) || l.a.handler == Stopped)
    && (l.a.handler == Running(None) ==>
          l.o.handler == Waiting && !l.acked && forall m :: m in l.a.inbox ==> OpeningMessage(m))
  }

  /** A stream end that node `n` may hold for `sid`: its own end of a stream of that session id whose
      set-session message has been read, and whose acknowledgement has arrived if `n` opened it. */
  predicate EndOk(links: seq<Link>, n: NodeId, sid: Sid, e: End) {
    && e.link < |links|
    && links[e.link].sid == sid
    && NodeOf(links[e.link], e.opener) == n
    && links[e.link].a.handler != Running(None)
    && (e.opener ==> links[e.link].o.handler != Waiting)
  }

  predicate MaybeEndOk(links: seq<Link>, n: NodeId, sid: Sid, e: Option<End>) {
    e.Some? ==> EndOk(links, n, sid, e.value)
  }

  predicate SlotOk(links: seq<Link>, n: NodeId, sid: Sid, s: Slot) {
    && (s.session.Some? ==>
          && MaybeEndOk(links, n, sid, s.session.value.early)
          && MaybeEndOk(links, n, sid, s.session.value.later)
          && (IsClientRole(s.session.value.role) ==> s.circuit.Some?))
    && (s.circuit.Some? ==> EndOk(links, n, sid, s.circuit.value.out))
    && (s.probe.Some? ==> s.probe.value == ProbeRand(sid))
  }

  /** A recorded stream was opened by the recorded node for this session id. */
  predicate LinkFrom(links: seq<Link>, sid: Sid, link: Option<LinkId>, opener: NodeId) {
    link.Some? ==>
      link.value < |links| && links[link.value].sid == sid && links[link.value].opener == opener
  }

  predicate ControlOk(links: seq<Link>, sid: Sid, k: Control) {
    && LinkFrom(links, sid, Some(k.dial), k.caller)
    && LinkFrom(links, sid, k.join, k.entry)
    && LinkFrom(links, sid, k.reach, k.home)
    && LinkFrom(links, sid, k.hop, k.home)
    && (k.hop.None? ==> k.bridge.None?)
    && (k.bridge.Some? ==> LinkFrom(links, sid, k.bridge, links[k.hop.value].acceptor))
  }

  ghost predicate WellFormed(net: Net) {
    && (forall l :: 0 <= l < |net.links| ==> LinkOk(net.links[l]) && net.links[l].sid in net.ctls)
    && (forall n, sid :: SlotOk(net.links, n, sid, SlotOf(net, n, sid)))
    && (forall n, sid :: (n, sid) in net.slots ==> sid in net.ctls)
    && (forall sid :: sid in net.ctls ==> ControlOk(net.links, sid, net.ctls[sid]))
  }

  /** Every part of the network that belongs to `sid` is the same in both. */
  ghost predicate SameFor(a: Net, b: Net, sid: Sid) {
    && a.clients == b.clients
    && |a.links| <= |b.links|
    && (forall n :: SlotOf(a, n, sid) == SlotOf(b, n, sid))
    && (forall l :: 0 <= l < |a.links| && a.links[l].sid == sid ==> b.links[l] == a.links[l])
    && (forall l :: 0 <= l < |a.links| ==> b.links[l].sid == a.links[l].sid)
    && (forall l :: |a.links| <= l < |b.links| ==> b.links[l].sid != sid)
    && (sid in a.ctls <==> sid in b.ctls)
    && (sid in a.ctls ==> a.ctls[sid] == b.ctls[sid])
    && a.emitted[sid] == b.emitted[sid]
    && (forall n :: a.started[(n, sid)] == b.started[(n, sid)])
    && (sid in a.broken <==> sid in b.broken)
  }

  /** The session id a step works for. */
  function StepSid(net: Net, st: Step): Sid
    requires Enabled(net, st)
  {
    match st
    case Deliver(e, _) => net.links[e.link].sid
    case Fault(e) => net.links[e.link].sid
    case Lose(e, _) => net.links[e.link].sid
    case Fail(l) => net.links[l].sid
    case _ => st.sid
  }

  // ---- links only move forward ------------------------------------------------------------

  /** `b` has the streams of `a`, used further, and possibly new ones. */
  ghost predicate LinksAdvance(a: seq<Link>, b: seq<Link>) {
    && |a| <= |b|
    && forall l :: 0 <= l < |a| ==>
      && b[l].sid == a[l].sid && b[l].opener == a[l].opener && b[l].acceptor == a[l].acceptor
      && (a[l].a.handler != Running(None) ==> b[l].a.handler != Running(None))
      && (a[l].o.handler != Waiting ==> b[l].o.handler != Waiting)
  }

  lemma SlotOkAdvances(a: seq<Link>, b: seq<Link>, n: NodeId, sid: Sid, s: Slot)
    requires LinksAdvance(a, b) && SlotOk(a, n, sid, s)
    ensures SlotOk(b, n, sid, s)
  {}

  lemma ControlOkAdvances(a: seq<Link>, b: seq<Link>, sid: Sid, k: Control)
    requires LinksAdvance(a, b) && ControlOk(a, sid, k)
    ensures ControlOk(b, sid, k)
  {}

  // ---- outcomes ---------------------------------------------------------------------------

  predicate WriteOk(links: seq<Link>, n: NodeId, sid: Sid, w: Option<Write>) {
    w.Some? ==> EndOk(links, n, sid, w.value.end) && Carries(w.value.msg, sid)
  }

  /** The outcome writes to and closes only streams that the node holds for this session id. */
  predicate OutcomeOk(links: seq<Link>, n: NodeId, sid: Sid, out: Outcome) {
    && SlotOk(links, n, sid, out.slot)
    && WriteOk(links, n, sid, out.first) && WriteOk(links, n, sid, out.second)
    && MaybeEndOk(links, n, sid, out.shut1) && MaybeEndOk(links, n, sid, out.shut2)
  }

  lemma OnMessageOk(links: seq<Link>, n: NodeId, sid: Sid, s: Slot, e: End, m: Message)
    requires SlotOk(links, n, sid, s) && EndOk(links, n, sid, e) && Carries(m, sid)
    ensures OutcomeOk(links, n, sid, OnMessage(s, e, sid, m))
  {
    hide EndOk;
  }

  /** Links for which only inboxes and error flags of streams of `sid` have changed. */
  ghost predicate OnlyTouched(a: seq<Link>, b: seq<Link>, sid: Sid) {
    && |a| == |b|
    && (forall l :: 0 <= l < |a| && a[l].sid != sid ==> b[l] == a[l])
    && (forall l :: 0 <= l < |a| && LinkOk(a[l]) ==> LinkOk(b[l]))
    && LinksAdvance(a, b)
  }

  lemma PostTouches(links: seq<Link>, n: NodeId, sid: Sid, w: Option<Write>)
    requires WriteOk(links, n, sid, w)
    ensures OnlyTouched(links, Post(links, w), sid)
  {}

  lemma ShutTouches(links: seq<Link>, n: NodeId, sid: Sid, e: Option<End>)
    requires MaybeEndOk(links, n, sid, e)
    ensures OnlyTouched(links, Shut(links, e), sid)
  {}

  lemma TouchesThen(a: seq<Link>, b: seq<Link>, c: seq<Link>, sid: Sid)
    requires OnlyTouched(a, b, sid) && OnlyTouched(b, c, sid)
    ensures OnlyTouched(a, c, sid)
  {}

  lemma OutcomeOkAdvances(a: seq<Link>, b: seq<Link>, n: NodeId, sid: Sid, out: Outcome)
    requires LinksAdvance(a, b) && OutcomeOk(a, n, sid, out)
    ensures OutcomeOk(b, n, sid, out)
  {}

  lemma CommitTouches(net: Net, n: NodeId, sid: Sid, out: Outcome)
    requires OutcomeOk(net.links, n, sid, out)
    ensures OnlyTouched(net.links, Commit(net, n, sid, out).links, sid)
  {
    var l0 := net.links;
    var l1 := Post(l0, out.first);
    var l2 := Post(l1, out.second);
    var l3 := Shut(l2, out.shut1);
    PostTouches(l0, n, sid, out.first);
    OutcomeOkAdvances(l0, l1, n, sid, out);
    PostTouches(l1, n, sid, out.second);
    OutcomeOkAdvances(l1, l2, n, sid, out);
    ShutTouches(l2, n, sid, out.shut1);
    OutcomeOkAdvances(l2, l3, n, sid, out);
    ShutTouches(l3, n, sid, out.shut2);
    TouchesThen(l0, l1, l2, sid);
    TouchesThen(l0, l2, l3, sid);
    TouchesThen(l0, l3, Shut(l3, out.shut2), sid);
  }

  /** `b` differs from `a` in streams and history of `sid` and in the slot `s` of node `n`. */
  ghost predicate SlotStep(a: Net, b: Net, n: NodeId, sid: Sid, s: Slot) {
    && OnlyTouched(a.links, b.links, sid)
    && b.slots == a.slots[(n, sid) := s]
    && HistoryOfOthers(a, b, sid)
  }

  ghost predicate HistoryOfOthers(a: Net, b: Net, sid: Sid) {
    && b.clients == a.clients && b.ctls == a.ctls
    && (forall x :: x != sid ==> a.emitted[x] == b.emitted[x])
    && (forall n, x :: x != sid ==> a.started[(n, x)] == b.started[(n, x)])
    && (forall x :: x != sid ==> (x in a.broken <==> x in b.broken))
  }

  lemma SlotStepKeeps(a: Net, b: Net, n: NodeId, sid: Sid, s: Slot)
    requires WellFormed(a) && sid in a.ctls && SlotStep(a, b, n, sid, s) && SlotOk(b.links, n, sid, s)
    ensures WellFormed(b)
  {
    forall m: NodeId, x: Sid ensures SlotOk(b.links, m, x, SlotOf(b, m, x)) {
      if (m, x) != (n, sid) {
        SlotOkAdvances(a.links, b.links, m, x, SlotOf(a, m, x));
      }
    }
    forall x | x in b.ctls ensures ControlOk(b.links, x, b.ctls[x]) {
      ControlOkAdvances(a.links, b.links, x, a.ctls[x]);
    }
  }

  lemma CommitIsSlotStep(net: Net, n: NodeId, sid: Sid, out: Outcome)
    requires OutcomeOk(net.links, n, sid, out)
    ensures SlotStep(net, Commit(net, n, sid, out), n, sid, out.slot)
    ensures SlotOk(Commit(net, n, sid, out).links, n, sid, out.slot)
  {
    CommitTouches(net, n, sid, out);
    OutcomeOkAdvances(net.links, Commit(net, n, sid, out).links, n, sid, out);
  }

  /** Everything that differs between `a` and `b` belongs to `sid`. */
  ghost predicate Confined(a: Net, b: Net, sid: Sid) {
    && a.clients == b.clients
    && |a.links| <= |b.links|
    && (forall n, x :: x != sid ==> SlotOf(a, n, x) == SlotOf(b, n, x))
    && (forall l :: 0 <= l < |a.links| ==> b.links[l].sid == a.links[l].sid)
    && (forall l :: 0 <= l < |a.links| && a.links[l].sid != sid ==> b.links[l] == a.links[l])
    && (forall l :: |a.links| <= l < |b.links| ==> b.links[l].sid == sid)
    && (forall x :: x != sid ==> (x in a.ctls <==> x in b.ctls))
    && (forall x :: x != sid && x in a.ctls ==> a.ctls[x] == b.ctls[x])
    && (forall x :: x != sid ==> a.emitted[x] == b.emitted[x])
    && (forall n, x :: x != sid ==> a.started[(n, x)] == b.started[(n, x)])
    && (forall x :: x != sid ==> (x in a.broken <==> x in b.broken))
  }

  lemma ConfinedIsSame(a: Net, b: Net, sid: Sid, x: Sid)
    requires Confined(a, b, sid) && x != sid
    ensures SameFor(a, b, x)
  {}

  lemma SameThen(a: Net, b: Net, c: Net, sid: Sid)
    requires SameFor(a, b, sid) && SameFor(b, c, sid)
    ensures SameFor(a, c, sid)
  {}

  lemma ConfinedThen(a: Net, b: Net, c: Net, sid: Sid)
    requires Confined(a, b, sid) && Confined(b, c, sid)
    ensures Confined(a, c, sid)
  {}

  lemma SlotStepConfined(a: Net, b: Net, n: NodeId, sid: Sid, s: Slot)
    requires SlotStep(a, b, n, sid, s)
    ensures Confined(a, b, sid)
  {}

  /** What a step for `sid` guarantees. */
  ghost predicate Isolated(a: Net, b: Net, sid: Sid) {
    WellFormed(b) && sid in b.ctls && Confined(a, b, sid)
  }

  lemma CommitKeeps(net: Net, n: NodeId, sid: Sid, out: Outcome)
    requires WellFormed(net) && sid in net.ctls && OutcomeOk(net.links, n, sid, out)
    ensures Isolated(net, Commit(net, n, sid, out), sid)
  {
    var b := Commit(net, n, sid, out);
    CommitIsSlotStep(net, n, sid, out);
    SlotStepIsolated(net, b, n, sid, out.slot);
  }

  lemma IsolatedThen(a: Net, b: Net, c: Net, sid: Sid)
    requires Isolated(a, b, sid) && Isolated(b, c, sid)
    ensures Isolated(a, c, sid)
  {
    hide WellFormed, Confined;
    ConfinedThen(a, b, c, sid);
  }

  lemma SlotStepIsolated(a: Net, b: Net, n: NodeId, sid: Sid, s: Slot)
    requires WellFormed(a) && sid in a.ctls && SlotStep(a, b, n, sid, s) && SlotOk(b.links, n, sid, s)
    ensures Isolated(a, b, sid)
  {
    hide WellFormed, Confined, SlotOk;
    SlotStepKeeps(a, b, n, sid, s);
    SlotStepConfined(a, b, n, sid, s);
  }

  lemma LinkStepConfined(a: Net, b: Net, sid: Sid)
    requires OnlyTouched(a.links, b.links, sid) && b.slots == a.slots && HistoryOfOthers(a, b, sid)
    ensures Confined(a, b, sid)
  {}

  lemma AdvanceKeeps(a: Net, b: Net)
    requires WellFormed(a) && LinksAdvance(a.links, b.links) && |b.links| == |a.links|
    requires b.slots == a.slots && b.ctls == a.ctls
    requires forall l :: 0 <= l < |b.links| ==> LinkOk(b.links[l])
    ensures WellFormed(b)
  {
    forall m: NodeId, x: Sid ensures SlotOk(b.links, m, x, SlotOf(b, m, x)) {
      SlotOkAdvances(a.links, b.links, m, x, SlotOf(a, m, x));
    }
    forall x | x in b.ctls ensures ControlOk(b.links, x, b.ctls[x]) {
      ControlOkAdvances(a.links, b.links, x, a.ctls[x]);
    }
  }

  lemma TouchedLinksOk(a: seq<Link>, b: seq<Link>, sid: Sid)
    requires OnlyTouched(a, b, sid) && forall l :: 0 <= l < |a| ==> LinkOk(a[l])
    ensures forall l :: 0 <= l < |b| ==> LinkOk(b[l])
  {}

  /** Only streams and history of `sid` differ. */
  lemma LinkStepIsolated(a: Net, b: Net, sid: Sid)
    requires WellFormed(a) && sid in a.ctls
    requires OnlyTouched(a.links, b.links, sid) && b.slots == a.slots && HistoryOfOthers(a, b, sid)
    ensures Isolated(a, b, sid)
  {
    hide Confined, LinkOk, SlotOk, ControlOk, SlotOf;
    LinkStepConfined(a, b, sid);
    TouchedLinksOk(a.links, b.links, sid);
    AdvanceKeeps(a, b);
  }

  /** A stream changed within its invariant. */
  lemma OneLinkTouched(links: seq<Link>, i: LinkId, l: Link)
    requires i < |links| && LinkOk(l)
    requires l.sid == links[i].sid && l.opener == links[i].opener && l.acceptor == links[i].acceptor
    requires links[i].a.handler != Running(None) ==> l.a.handler != Running(None)
    requires links[i].o.handler != Waiting ==> l.o.handler != Waiting
    ensures OnlyTouched(links, links[i := l], links[i].sid)
  {
    hide LinkOk;
  }

  // ---- the pieces of the steps --------------------------------------------------------------

  lemma OpenConfined(a: Net, sid: Sid, opener: NodeId, acceptor: NodeId, role: Role, k: Control)
    ensures Confined(a, WithControl(Open(a, sid, opener, acceptor, role), sid, k), sid)
  {}

  lemma OpenIsolated(a: Net, sid: Sid, opener: NodeId, acceptor: NodeId, role: Role, k: Control)
    requires WellFormed(a) && role != Caller
    requires ControlOk(a.links + [NewLink(sid, opener, acceptor, role)], sid, k)
    ensures Isolated(a, WithControl(Open(a, sid, opener, acceptor, role), sid, k), sid)
  {
    hide ControlOk;
    var b := WithControl(Open(a, sid, opener, acceptor, role), sid, k);
    OpenConfined(a, sid, opener, acceptor, role, k);
    hide Confined;
    assert LinksAdvance(a.links, b.links);
    assert LinkOk(NewLink(sid, opener, acceptor, role));
    forall m: NodeId, x: Sid ensures SlotOk(b.links, m, x, SlotOf(b, m, x)) {
      SlotOkAdvances(a.links, b.links, m, x, SlotOf(a, m, x));
    }
    forall x | x in b.ctls ensures ControlOk(b.links, x, b.ctls[x]) {
      if x != sid { ControlOkAdvances(a.links, b.links, x, a.ctls[x]); }
    }
  }

  lemma ControlIsolated(a: Net, sid: Sid, k: Control)
    requires WellFormed(a) && sid in a.ctls && ControlOk(a.links, sid, k)
    ensures Isolated(a, WithControl(a, sid, k), sid)
  {
    var b := WithControl(a, sid, k);
    assert forall n, x :: SlotOf(b, n, x) == SlotOf(a, n, x);
  }

  lemma AttachTouches(a: Net, sid: Sid, link: LinkId, role: Role)
    requires link < |a.links| && LinkOk(a.links[link]) && a.links[link].sid == sid && a.links[link].acked
    ensures OnlyTouched(a.links, AttachOpener(a, sid, link, role).links, sid)
    ensures EndOk(AttachOpener(a, sid, link, role).links, a.links[link].opener, sid, End(link, true))
  {
    OneLinkTouched(a.links, link, AttachOpener(a, sid, link, role).links[link]);
  }

  lemma AttachIsolated(a: Net, sid: Sid, link: LinkId, role: Role)
    requires WellFormed(a) && link < |a.links| && a.links[link].sid == sid
    requires a.links[link].acked && !Attached(a, link) && !IsClientRole(role)
    ensures Isolated(a, AttachOpener(a, sid, link, role), sid)
  {
    var b := AttachOpener(a, sid, link, role);
    var n := a.links[link].opener;
    assert LinkOk(a.links[link]);
    AttachTouches(a, sid, link, role);
    hide LinkOk, Confined;
    SlotOkAdvances(a.links, b.links, n, sid, SlotOf(a, n, sid));
    SlotStepIsolated(a, b, n, sid, Attach(SlotOf(a, n, sid), role, End(link, true)));
  }

  lemma CloseIsolated(a: Net, n: NodeId, sid: Sid)
    requires WellFormed(a) && sid in a.ctls
    ensures Isolated(a, Close(a, n, sid), sid)
  {
    assert SlotOk(a.links, n, sid, SlotOf(a, n, sid));
    CommitKeeps(a, n, sid, OnClose(SlotOf(a, n, sid)));
  }

  lemma BothWaysIsolated(a: Net, n: NodeId, sid: Sid, m: Message)
    requires WellFormed(a) && sid in a.ctls && Carries(m, sid)
    ensures Isolated(a, SendBothWays(a, n, sid, m), sid)
  {
    assert SlotOk(a.links, n, sid, SlotOf(a, n, sid));
    CommitKeeps(a, n, sid, TwoWay(SlotOf(a, n, sid), m));
  }

  lemma BreakIsolated(a: Net, sid: Sid)
    requires WellFormed(a) && sid in a.ctls
    ensures Isolated(a, Break(a, sid), sid)
  {
    LinkStepIsolated(a, Break(a, sid), sid);
  }

  lemma DialAttachedSlot(links: seq<Link>, n: NodeId, sid: Sid, s: Slot, e: End)
    requires SlotOk(links, n, sid, s) && EndOk(links, n, sid, e)
    ensures SlotOk(links, n, sid, Attach(s, Caller, e).(circuit := Some(Circuit(e, multiset{}, multiset{}))))
  {
    hide EndOk;
  }

  lemma DialAttachForm(a: Net, sid: Sid, k: Control)
    requires Awaited(a, Some(k.dial)) && a.links[k.dial].opener == k.caller
    ensures var b, e := DoDialAttach(a, sid, k), End(k.dial, true);
            && b.links == AttachOpener(a, sid, k.dial, Caller).links
            && b.slots == a.slots[(k.caller, sid) := Attach(SlotOf(a, k.caller, sid), Caller,
                                                               e).(circuit := Some(Circuit(e, multiset{}, multiset{})))]
            && HistoryOfOthers(a, b, sid)
  {}

  lemma DialAttachIsolated(a: Net, sid: Sid, k: Control)
    requires WellFormed(a) && sid in a.ctls && a.ctls[sid] == k && Awaited(a, Some(k.dial))
    ensures Isolated(a, DoDialAttach(a, sid, k), sid)
  {
    var b, s0, e := DoDialAttach(a, sid, k), SlotOf(a, k.caller, sid), End(k.dial, true);
    assert ControlOk(a.links, sid, k) && LinkOk(a.links[k.dial]);
    assert SlotOk(a.links, k.caller, sid, s0);
    AttachTouches(a, sid, k.dial, Caller);
    DialAttachForm(a, sid, k);
    hide WellFormed, LinkOk, ControlOk, SlotOk, EndOk, DoDialAttach, AttachOpener, Attach;
    SlotOkAdvances(a.links, b.links, k.caller, sid, s0);
    DialAttachedSlot(b.links, k.caller, sid, s0, e);
    hide OnlyTouched, HistoryOfOthers, Isolated;
    SlotStepIsolated(a, b, k.caller, sid, SlotOf(b, k.caller, sid));
  }

  predicate IsOpening(st: Step) {
    st.Dial? || st.JoinOpen? || st.ReachOpen? || st.HopOpen? || st.BridgeOpen?
  }

  predicate IsAttaching(st: Step) {
    st.DialAttach? || st.JoinAttach? || st.ReachAttach? || st.HopAttach? || st.BridgeAttach?
  }

  /** Recording a stream that was just opened by the recorded node. */
  lemma OpeningRecorded(links: seq<Link>, sid: Sid, k: Control, l: Link)
    requires ControlOk(links, sid, k) && l.sid == sid
    ensures l.opener == k.entry ==> ControlOk(links + [l], sid, k.(join := Some(|links|)))
    ensures l.opener == k.home ==> ControlOk(links + [l], sid, k.(reach := Some(|links|)))
    ensures l.opener == k.home && k.bridge.None? ==> ControlOk(links + [l], sid, k.(hop := Some(|links|)))
    ensures k.hop.Some? && l.opener == links[k.hop.value].acceptor ==>
              ControlOk(links + [l], sid, k.(bridge := Some(|links|), cmd := Bridging))
  {}

  lemma DialIsolated(a: Net, st: Step)
    requires WellFormed(a) && st.Dial? && EnabledTask(a, st)
    ensures Isolated(a, DoTask(a, st), st.sid)
  {
    OpenIsolated(a, st.sid, st.caller, st.entry, Entry,
                 Control(st.caller, st.entry, st.answer, st.home, |a.links|, None, false, false,
                         None, None, Unsent, None, false, false, false));
  }

  lemma OpeningIsolated(a: Net, st: Step)
    requires WellFormed(a) && IsOpening(st) && EnabledTask(a, st)
    ensures Isolated(a, DoTask(a, st), st.sid)
  {
    if st.Dial? {
      DialIsolated(a, st);
    } else {
      var sid := st.sid;
      var k := a.ctls[sid];
      assert ControlOk(a.links, sid, k);
      hide LinkOk, SlotOk, Confined, SlotOf, HalfOpen, RelaySlot, Done, WellFormed, ControlOk;
      match st
      case JoinOpen(_, peer) =>
        var role := if k.home == k.entry then Answer else Sink;
        OpeningRecorded(a.links, sid, k, NewLink(sid, k.entry, peer, role));
        OpenIsolated(a, sid, k.entry, peer, role, k.(join := Some(|a.links|)));
      case ReachOpen(_) =>
        OpeningRecorded(a.links, sid, k, NewLink(sid, k.home, k.answer, Answer));
        OpenIsolated(a, sid, k.home, k.answer, Answer, k.(reach := Some(|a.links|)));
      case HopOpen(_, peer) =>
        OpeningRecorded(a.links, sid, k, NewLink(sid, k.home, peer, Relay));
        OpenIsolated(a, sid, k.home, peer, Relay, k.(hop := Some(|a.links|)));
      case BridgeOpen(_) =>
        var relay, sink := AcceptorOf(a, k.hop).value, AcceptorOf(a, k.join).value;
        OpeningRecorded(a.links, sid, k, NewLink(sid, relay, sink, Sink));
        OpenIsolated(a, sid, relay, sink, Sink, k.(bridge := Some(|a.links|), cmd := Bridging));
    }
  }

  lemma AttachingIsolated(a: Net, st: Step)
    requires WellFormed(a) && IsAttaching(st) && EnabledTask(a, st)
    ensures Isolated(a, DoTask(a, st), st.sid)
  {
    hide Isolated, Confined, SendBothWays, LinkOk, SlotOk;
    var sid := st.sid;
    var k := a.ctls[sid];
    assert ControlOk(a.links, sid, k);
    hide SlotOf, WellFormed, AttachOpener, DoDialAttach;
    match st
    case DialAttach(_) => DialAttachIsolated(a, sid, k);
    case JoinAttach(_) =>
      AttachThenBothWays(a, sid, k.join.value, if k.home == k.entry then Access else Entry, k.entry);
    case ReachAttach(_) => AttachThenBothWays(a, sid, k.reach.value, Access, k.home);
    case HopAttach(_) => ControlThenAttach(a, sid, k.(cmd := Sent), k.hop.value, Access);
    case BridgeAttach(_) => ControlThenAttach(a, sid, k.(cmd := Replied(true)), k.bridge.value, Relay);
  }

  lemma TaskIsolated(a: Net, st: Step)
    requires WellFormed(a) && !IsRelayStep(st) && EnabledTask(a, st)
    ensures Isolated(a, DoTask(a, st), st.sid)
  {
    hide WellFormed, EnabledTask, DoTask, Isolated;
    if IsOpening(st) {
      OpeningIsolated(a, st);
    } else if IsAttaching(st) {
      AttachingIsolated(a, st);
    } else {
      OtherTaskIsolated(a, st);
    }
  }

  /** A task moves on, or writes both ways, or closes, or gives up. */
  lemma OtherTaskIsolated(a: Net, st: Step)
    requires WellFormed(a) && !IsRelayStep(st) && EnabledTask(a, st) && !IsOpening(st) && !IsAttaching(st)
    ensures Isolated(a, DoTask(a, st), st.sid)
  {
    hide WellFormed, EnabledTask, DoTask, Isolated;
    match st
    case JoinRefuse(sid) => JoinRefuseIsolated(a, sid);
    case JoinGiveUp(sid) => JoinGiveUpIsolated(a, sid);
    case Publish(sid) => PublishIsolated(a, sid);
    case ProbeFromEntry(sid) => ProbeFromEntryIsolated(a, sid);
    case ReachGiveUp(sid) => ReachGiveUpIsolated(a, sid);
    case HopGiveUp(sid) => HopGiveUpIsolated(a, sid);
    case CmdRefuse(sid) => CmdRefuseIsolated(a, sid);
    case CmdReady(sid) => CmdReadyIsolated(a, sid);
    case BridgeGiveUp(sid) => BridgeGiveUpIsolated(a, sid);
    case ExpandReply(sid) => ExpandReplyIsolated(a, sid);
  }

  lemma ControlKnown(a: Net, sid: Sid)
    requires WellFormed(a) && sid in a.ctls
    ensures ControlOk(a.links, sid, a.ctls[sid])
  {}

  lemma JoinRefuseIsolated(a: Net, sid: Sid)
    requires WellFormed(a) && EnabledTask(a, JoinRefuse(sid))
    ensures Isolated(a, DoTask(a, JoinRefuse(sid)), sid)
  {
    hide Isolated, WellFormed, SlotOf, Commit, HalfOpen, Done;
    var k := a.ctls[sid];
    ControlKnown(a, sid);
    assert DoTask(a, JoinRefuse(sid)) == WithControl(a, sid, k.(endedE := true));
    assert ControlOk(a.links, sid, k.(endedE := true));
    hide *;
    ControlIsolated(a, sid, k.(endedE := true));
  }

  lemma PublishIsolated(a: Net, sid: Sid)
    requires WellFormed(a) && EnabledTask(a, Publish(sid))
    ensures Isolated(a, DoTask(a, Publish(sid)), sid)
  {
    hide Isolated, WellFormed, SlotOf, Commit, HalfOpen, Done;
    var k := a.ctls[sid];
    ControlKnown(a, sid);
    assert DoTask(a, Publish(sid)) == WithControl(a, sid, k.(published := true));
    assert ControlOk(a.links, sid, k.(published := true));
    hide *;
    ControlIsolated(a, sid, k.(published := true));
  }

  lemma ProbeFromEntryIsolated(a: Net, sid: Sid)
    requires WellFormed(a) && EnabledTask(a, ProbeFromEntry(sid))
    ensures Isolated(a, DoTask(a, ProbeFromEntry(sid)), sid)
  {
    hide Isolated, WellFormed, SlotOf, Commit, HalfOpen, Done;
    var k := a.ctls[sid];
    ControlKnown(a, sid);
    assert DoTask(a, ProbeFromEntry(sid)) ==
           SendBothWays(WithControl(a, sid, k.(probedE := true)), k.entry, sid, Probe(sid, ProbeRand(sid)));
    assert ControlOk(a.links, sid, k.(probedE := true)) && Carries(Probe(sid, ProbeRand(sid)), sid);
    hide *;
    ControlThenBothWays(a, sid, k.(probedE := true), k.entry, Probe(sid, ProbeRand(sid)));
  }

  lemma CmdReadyIsolated(a: Net, sid: Sid)
    requires WellFormed(a) && EnabledTask(a, CmdReady(sid))
    ensures Isolated(a, DoTask(a, CmdReady(sid)), sid)
  {
    hide Isolated, WellFormed, SlotOf, Commit, HalfOpen, Done;
    var k := a.ctls[sid];
    ControlKnown(a, sid);
    assert DoTask(a, CmdReady(sid)) ==
           SendBothWays(WithControl(a, sid, k.(cmd := Replied(true))), AcceptorOf(a, k.hop).value, sid, Success(sid));
    assert ControlOk(a.links, sid, k.(cmd := Replied(true))) && Carries(Success(sid), sid);
    hide *;
    ControlThenBothWays(a, sid, k.(cmd := Replied(true)), AcceptorOf(a, k.hop).value, Success(sid));
  }

  lemma ReachGiveUpIsolated(a: Net, sid: Sid)
    requires WellFormed(a) && EnabledTask(a, ReachGiveUp(sid))
    ensures Isolated(a, DoTask(a, ReachGiveUp(sid)), sid)
  {
    hide Isolated, WellFormed, SlotOf, Commit, HalfOpen, Done;
    var k := a.ctls[sid];
    ControlKnown(a, sid);
    assert DoTask(a, ReachGiveUp(sid)) == Break(Close(WithControl(a, sid, k.(endedA := true)), k.home, sid), sid);
    assert ControlOk(a.links, sid, k.(endedA := true));
    hide *;
    GiveUpIsolated(a, sid, k.(endedA := true), k.home);
  }

  lemma HopGiveUpIsolated(a: Net, sid: Sid)
    requires WellFormed(a) && EnabledTask(a, HopGiveUp(sid))
    ensures Isolated(a, DoTask(a, HopGiveUp(sid)), sid)
  {
    hide Isolated, WellFormed, SlotOf, Commit, HalfOpen, Done;
    var k := a.ctls[sid];
    ControlKnown(a, sid);
    assert DoTask(a, HopGiveUp(sid)) == Break(Close(WithControl(a, sid, k.(endedA := true)), k.home, sid), sid);
    assert ControlOk(a.links, sid, k.(endedA := true));
    hide *;
    GiveUpIsolated(a, sid, k.(endedA := true), k.home);
  }

  lemma BridgeGiveUpIsolated(a: Net, sid: Sid)
    requires WellFormed(a) && EnabledTask(a, BridgeGiveUp(sid))
    ensures Isolated(a, DoTask(a, BridgeGiveUp(sid)), sid)
  {
    hide Isolated, WellFormed, SlotOf, Commit, HalfOpen, Done;
    var k := a.ctls[sid];
    ControlKnown(a, sid);
    assert DoTask(a, BridgeGiveUp(sid)) ==
           Break(Close(WithControl(a, sid, k.(cmd := Replied(false))), AcceptorOf(a, k.hop).value, sid), sid);
    assert ControlOk(a.links, sid, k.(cmd := Replied(false)));
    hide *;
    GiveUpIsolated(a, sid, k.(cmd := Replied(false)), AcceptorOf(a, k.hop).value);
  }

  lemma CmdRefuseIsolated(a: Net, sid: Sid)
    requires WellFormed(a) && EnabledTask(a, CmdRefuse(sid))
    ensures Isolated(a, DoTask(a, CmdRefuse(sid)), sid)
  {
    hide Isolated, WellFormed, SlotOf, Commit, HalfOpen, Done;
    var k := a.ctls[sid];
    ControlKnown(a, sid);
    assert DoTask(a, CmdRefuse(sid)) ==
           Close(WithControl(a, sid, k.(cmd := Replied(false))), AcceptorOf(a, k.hop).value, sid);
    assert ControlOk(a.links, sid, k.(cmd := Replied(false)));
    hide *;
    ControlThenClose(a, sid, k.(cmd := Replied(false)), AcceptorOf(a, k.hop).value);
  }

  lemma JoinGiveUpIsolated(a: Net, sid: Sid)
    requires WellFormed(a) && EnabledTask(a, JoinGiveUp(sid))
    ensures Isolated(a, DoTask(a, JoinGiveUp(sid)), sid)
  {
    hide Isolated, WellFormed, SlotOf, Commit, HalfOpen, Done;
    var k := a.ctls[sid];
    ControlKnown(a, sid);
    assert DoTask(a, JoinGiveUp(sid)) == DoJoinGiveUp(a, sid, k);
    assert ControlOk(a.links, sid, k.(endedE := true));
    hide EnabledTask, DoTask, Close, Break, WithControl, ControlOk;
    GiveUpIsolated(a, sid, k.(endedE := true), k.entry);
  }

  lemma ExpandReplyIsolated(a: Net, sid: Sid)
    requires WellFormed(a) && EnabledTask(a, ExpandReply(sid))
    ensures Isolated(a, DoTask(a, ExpandReply(sid)), sid)
  {
    hide Isolated, WellFormed, SlotOf, Commit, HalfOpen, Done;
    var k, m := a.ctls[sid], Probe(sid, ProbeRand(sid));
    ControlKnown(a, sid);
    assert DoTask(a, ExpandReply(sid)) == DoExpandReply(a, sid, k) && k.cmd.Replied? && Carries(m, sid);
    assert ControlOk(a.links, sid, k.(probedA := true)) && ControlOk(a.links, sid, k.(endedA := true));
    hide EnabledTask, DoTask, Close, SendBothWays, WithControl, ControlOk, Carries;
    ControlThenBothWays(a, sid, k.(probedA := true), k.home, m);
    ControlThenClose(a, sid, k.(endedA := true), k.home);
  }

  lemma AttachThenBothWays(a: Net, sid: Sid, link: LinkId, role: Role, n: NodeId)
    requires WellFormed(a) && link < |a.links| && a.links[link].sid == sid
    requires a.links[link].acked && !Attached(a, link) && !IsClientRole(role)
    ensures Isolated(a, AttachOpener(a, sid, link, role), sid)
    ensures Isolated(a, SendBothWays(AttachOpener(a, sid, link, role), n, sid, Success(sid)), sid)
  {
    var n1 := AttachOpener(a, sid, link, role);
    AttachIsolated(a, sid, link, role);
    hide WellFormed, Confined;
    BothWaysIsolated(n1, n, sid, Success(sid));
    IsolatedThen(a, n1, SendBothWays(n1, n, sid, Success(sid)), sid);
  }

  lemma ControlThenBothWays(a: Net, sid: Sid, k: Control, n: NodeId, m: Message)
    requires WellFormed(a) && sid in a.ctls && ControlOk(a.links, sid, k) && Carries(m, sid)
    ensures Isolated(a, SendBothWays(WithControl(a, sid, k), n, sid, m), sid)
  {
    var n1 := WithControl(a, sid, k);
    ControlIsolated(a, sid, k);
    BothWaysIsolated(n1, n, sid, m);
    IsolatedThen(a, n1, SendBothWays(n1, n, sid, m), sid);
  }

  lemma ControlThenClose(a: Net, sid: Sid, k: Control, n: NodeId)
    requires WellFormed(a) && sid in a.ctls && ControlOk(a.links, sid, k)
    ensures Isolated(a, Close(WithControl(a, sid, k), n, sid), sid)
  {
    var n1 := WithControl(a, sid, k);
    ControlIsolated(a, sid, k);
    CloseIsolated(n1, n, sid);
    IsolatedThen(a, n1, Close(n1, n, sid), sid);
  }

  lemma GiveUpIsolated(a: Net, sid: Sid, k: Control, n: NodeId)
    requires WellFormed(a) && sid in a.ctls && ControlOk(a.links, sid, k)
    ensures Isolated(a, WithControl(a, sid, k), sid)
    ensures Isolated(a, Break(Close(WithControl(a, sid, k), n, sid), sid), sid)
  {
    var n1 := WithControl(a, sid, k);
    var n2 := Close(n1, n, sid);
    ControlIsolated(a, sid, k);
    ControlThenClose(a, sid, k, n);
    BreakIsolated(n2, sid);
    IsolatedThen(a, n2, Break(n2, sid), sid);
  }

  lemma ControlThenAttach(a: Net, sid: Sid, k: Control, link: LinkId, role: Role)
    requires WellFormed(a) && sid in a.ctls && ControlOk(a.links, sid, k)
    requires link < |a.links| && a.links[link].sid == sid
    requires a.links[link].acked && !Attached(a, link) && !IsClientRole(role)
    ensures Isolated(a, AttachOpener(WithControl(a, sid, k), sid, link, role), sid)
  {
    var n1 := WithControl(a, sid, k);
    ControlIsolated(a, sid, k);
    AttachIsolated(n1, sid, link, role);
    IsolatedThen(a, n1, AttachOpener(n1, sid, link, role), sid);
  }

  // ---- relay steps ----------------------------------------------------------------------------

  /** A stream from which a message was taken. */
  lemma TakenLink(a: Net, e: End, m: Message)
    requires Known(a, e) && LinkOk(a.links[e.link]) && EnabledRelay(a, Deliver(e, m))
    ensures var l, b := a.links[e.link], Take(a, e, m, NextHandler(m, StateOf(a, e).handler.sid));
            && b == a.(links := a.links[e.link := b.links[e.link]])
            && LinkOk(b.links[e.link]) && b.links[e.link].sid == l.sid
            && b.links[e.link].opener == l.opener && b.links[e.link].acceptor == l.acceptor
            && (l.a.handler != Running(None) ==> b.links[e.link].a.handler != Running(None))
            && (l.o.handler != Waiting ==> b.links[e.link].o.handler != Waiting)
  {}

  /** Reading a message gives the handler its session id, or keeps it. */
  lemma TakeIsolated(a: Net, e: End, m: Message)
    requires WellFormed(a) && EnabledRelay(a, Deliver(e, m))
    ensures var b := Take(a, e, m, NextHandler(m, StateOf(a, e).handler.sid));
            Isolated(a, b, a.links[e.link].sid) && OnlyTouched(a.links, b.links, a.links[e.link].sid)
  {
    var l := a.links[e.link];
    var b := Take(a, e, m, NextHandler(m, StateOf(a, e).handler.sid));
    LinkKnown(a, e.link);
    TakenLink(a, e, m);
    assert HistoryOfOthers(a, b, l.sid) && Known(a, e) && Known(b, e);
    hide *;
    OneLinkTouched(a.links, e.link, b.links[e.link]);
    LinkStepIsolated(a, b, l.sid);
  }

  lemma AckIsolated(a: Net, link: LinkId)
    requires WellFormed(a) && link < |a.links| && a.links[link].a.handler != Running(None)
    ensures Isolated(a, Ack(a, link), a.links[link].sid)
  {
    assert LinkOk(a.links[link]);
    OneLinkTouched(a.links, link, a.links[link].(acked := true));
    hide LinkOk, Isolated;
    LinkStepIsolated(a, Ack(a, link), a.links[link].sid);
  }

  /** What a handler may rely on once it has taken a message that has a session id to look up. */
  lemma TakenOk(a: Net, e: End, m: Message)
    requires WellFormed(a) && EnabledRelay(a, Deliver(e, m))
    ensures Carries(m, a.links[e.link].sid)
    ensures var remembered := StateOf(a, e).handler.sid;
            LookupSid(m, remembered).Some? ==>
              && LookupSid(m, remembered) == Some(a.links[e.link].sid)
              && EndOk(Take(a, e, m, NextHandler(m, remembered)).links, OwnerOf(a, e), a.links[e.link].sid, e)
  {
    assert LinkOk(a.links[e.link]);
  }

  lemma HandledIsolated(a: Net, n: NodeId, x: Sid, e: End, m: Message)
    requires WellFormed(a) && x in a.ctls && EndOk(a.links, n, x, e) && Carries(m, x)
    ensures var out := OnMessage(SlotOf(a, n, x), e, x, m);
            var b := Commit(a, n, x, out);
            && e.link < |b.links|
            && Isolated(a, if out.ack then Ack(b, e.link) else b, x)
  {
    assert SlotOk(a.links, n, x, SlotOf(a, n, x));
    var out := OnMessage(SlotOf(a, n, x), e, x, m);
    var b := Commit(a, n, x, out);
    hide Confined, SlotOk, WellFormed, OnMessage, Commit, LinkOk;
    OnMessageOk(a.links, n, x, SlotOf(a, n, x), e, m);
    CommitKeeps(a, n, x, out);
    CommitTouches(a, n, x, out);
    if out.ack {
      AckIsolated(b, e.link);
      IsolatedThen(a, b, Ack(b, e.link), x);
    }
  }

  lemma DeliverIsolated(a: Net, e: End, m: Message)
    requires WellFormed(a) && EnabledRelay(a, Deliver(e, m))
    ensures Isolated(a, DoDeliver(a, e, m), a.links[e.link].sid)
  {
    hide Confined, SlotOk, WellFormed, OnMessage, Commit, LinkOk, EndOk;
    var remembered := StateOf(a, e).handler.sid;
    var n1 := Take(a, e, m, NextHandler(m, remembered));
    TakenOk(a, e, m);
    TakeIsolated(a, e, m);
    if LookupSid(m, remembered).Some? {
      HandledIsolated(n1, OwnerOf(a, e), a.links[e.link].sid, e, m);
      IsolatedThen(a, n1, DoDeliver(a, e, m), a.links[e.link].sid);
    }
  }

  lemma FaultTaken(a: Net, e: End)
    requires WellFormed(a) && EnabledRelay(a, Fault(e))
    ensures var l := a.links[e.link];
            var b := a.(links := a.links[e.link := WithEnd(l, e.opener, StateOf(a, e).(handler := Stopped))]);
            Isolated(a, b, l.sid) && StateOf(a, e).handler in {Running(None), Running(Some(l.sid))}
  {
    hide WellFormed, Isolated, OnlyTouched;
    var l := a.links[e.link];
    LinkKnown(a, e.link);
    var l2 := WithEnd(l, e.opener, StateOf(a, e).(handler := Stopped));
    assert LinkOk(l2);
    OneLinkTouched(a.links, e.link, l2);
    hide LinkOk;
    LinkStepIsolated(a, a.(links := a.links[e.link := l2]), l.sid);
  }

  lemma ErrorIsolated(a: Net, n: NodeId, x: Sid, e: End)
    requires WellFormed(a) && x in a.ctls
    ensures Isolated(a, Commit(a, n, x, OnError(SlotOf(a, n, x), e)), x)
  {
    assert SlotOk(a.links, n, x, SlotOf(a, n, x));
    CommitKeeps(a, n, x, OnError(SlotOf(a, n, x), e));
  }

  lemma FaultIsolated(a: Net, e: End)
    requires WellFormed(a) && EnabledRelay(a, Fault(e))
    ensures Isolated(a, DoFault(a, e), a.links[e.link].sid)
  {
    var l := a.links[e.link];
    var es := StateOf(a, e);
    var n1 := a.(links := a.links[e.link := WithEnd(l, e.opener, es.(handler := Stopped))]);
    assert SlotOf(n1, OwnerOf(a, e), l.sid) == SlotOf(a, OwnerOf(a, e), l.sid);
    hide Confined, WellFormed, Commit, OnError, LinkOk, Isolated, SlotOf;
    FaultTaken(a, e);
    IsolatedParts(a, n1, l.sid);
    if es.handler.sid.Some? {
      ErrorIsolated(n1, OwnerOf(a, e), l.sid, e);
      IsolatedThen(a, n1, DoFault(a, e), l.sid);
    }
  }

  lemma IsolatedParts(a: Net, b: Net, sid: Sid)
    requires Isolated(a, b, sid)
    ensures WellFormed(b) && sid in b.ctls
  {}

  lemma SendIsolated(a: Net, n: NodeId, sid: Sid, payload: Payload)
    requires WellFormed(a) && EnabledRelay(a, Send(n, sid, payload))
    ensures Isolated(a, DoSend(a, n, sid, payload), sid)
  {
    var s := SlotOf(a, n, sid);
    var b := DoSend(a, n, sid, payload);
    assert SlotOk(a.links, n, sid, s);
    PostTouches(a.links, n, sid, Some(Write(s.circuit.value.out, Data(sid, payload))));
    SlotOkAdvances(a.links, b.links, n, sid, s);
    SlotStepIsolated(a, b, n, sid, SlotOf(b, n, sid));
  }

  lemma LinkKnown(a: Net, l: LinkId)
    requires WellFormed(a) && l < |a.links|
    ensures LinkOk(a.links[l]) && a.links[l].sid in a.ctls
  {}

  lemma StoreIsolated(a: Net, n: NodeId, sid: Sid, e: End)
    requires WellFormed(a) && EnabledRelay(a, Store(n, sid, e))
    ensures Isolated(a, DoStore(a, n, sid, e), sid)
  {
    var s, b := SlotOf(a, n, sid), DoStore(a, n, sid, e);
    assert SlotOk(a.links, n, sid, s) && sid in a.ctls && EndOk(a.links, n, sid, e);
    if s.circuit.Some? {
      assert Confined(a, a, sid);
    } else {
      SlotStepIsolated(a, b, n, sid, SlotOf(b, n, sid));
    }
  }

  lemma LinksOnly(a: Net, b: Net, sid: Sid)
    requires b == a.(links := b.links)
    ensures HistoryOfOthers(a, b, sid)
  {}

  lemma FewerMessages(l: Link, r: Link)
    requires LinkOk(l) && r.sid == l.sid && r.acked == l.acked && r.o.handler == l.o.handler
             && r.a.handler == l.a.handler
    requires r.o.inbox <= l.o.inbox && r.a.inbox <= l.a.inbox
    ensures LinkOk(r)
  {
    assert forall m :: m in r.o.inbox ==> m in l.o.inbox;
    assert forall m :: m in r.a.inbox ==> m in l.a.inbox;
  }

  lemma LoseIsolated(a: Net, e: End, m: Message)
    requires WellFormed(a) && EnabledRelay(a, Lose(e, m))
    ensures Isolated(a, DoRelay(a, Lose(e, m)), a.links[e.link].sid)
  {
    var b := DoRelay(a, Lose(e, m));
    hide WellFormed, Isolated, OnlyTouched, LinkOk, HistoryOfOthers;
    assert HistoryOfOthers(a, b, a.links[e.link].sid) by { LinksOnly(a, b, a.links[e.link].sid); }
    LinkKnown(a, e.link);
    FewerMessages(a.links[e.link], b.links[e.link]);
    OneLinkTouched(a.links, e.link, b.links[e.link]);
    LinkStepIsolated(a, b, a.links[e.link].sid);
  }

  lemma FailIsolated(a: Net, l: LinkId)
    requires WellFormed(a) && EnabledRelay(a, Fail(l))
    ensures Isolated(a, DoRelay(a, Fail(l)), a.links[l].sid)
  {
    hide WellFormed, Isolated, OnlyTouched, LinkOk;
    var b := DoRelay(a, Fail(l));
    LinkKnown(a, l);
    FewerMessages(a.links[l], b.links[l]);
    OneLinkTouched(a.links, l, b.links[l]);
    LinkStepIsolated(a, b, a.links[l].sid);
  }

  lemma ClientCloseIsolated(a: Net, n: NodeId, sid: Sid)
    requires WellFormed(a) && sid in a.ctls
    ensures Isolated(a, Break(Close(a, n, sid), sid), sid)
  {
    hide WellFormed, Confined, Close, Break;
    CloseIsolated(a, n, sid);
    BreakIsolated(Close(a, n, sid), sid);
    IsolatedThen(a, Close(a, n, sid), Break(Close(a, n, sid), sid), sid);
  }

  lemma RelayIsolated(a: Net, st: Step)
    requires WellFormed(a) && IsRelayStep(st) && EnabledRelay(a, st)
    ensures Isolated(a, DoRelay(a, st), StepSid(a, st))
  {
    hide WellFormed, Isolated, DoDeliver, DoFault, DoSend, Close, Break, DoStore;
    match st
    case Deliver(e, m) => DeliverIsolated(a, e, m);
    case Fault(e) => FaultIsolated(a, e);
    case Lose(e, m) => LoseIsolated(a, e, m);
    case Fail(l) => FailIsolated(a, l);
    case ClientClose(n, sid) => ClientCloseIsolated(a, n, sid);
    case Send(n, sid, payload) => SendIsolated(a, n, sid, payload);
    case Store(n, sid, e) => StoreIsolated(a, n, sid, e);
    case _ =>
  }

  /** One step keeps every table entry and stream in order and touches nothing of another session id. */
  lemma StepIsolated(a: Net, st: Step)
    requires WellFormed(a) && Enabled(a, st)
    ensures WellFormed(Do(a, st))
    ensures Confined(a, Do(a, st), StepSid(a, st)) && StepSid(a, st) in Do(a, st).ctls
  {
    hide WellFormed, Confined, DoRelay, DoTask, EnabledRelay, EnabledTask;
    if IsRelayStep(st) { RelayIsolated(a, st); } else { TaskIsolated(a, st); }
  }

  // ---- whole runs -------------------------------------------------------------------------------

  /** No step of the run works for `sid`. */
  ghost predicate Avoids(net: Net, steps: seq<Step>, sid: Sid)
    requires CanRun(net, steps)
    decreases |steps|
  {
    steps != [] ==> StepSid(net, steps[0]) != sid && Avoids(Do(net, steps[0]), steps[1..], sid)
  }

  /** A run that works for other session ids leaves all of `sid` as it was. */
  lemma {:induction false} RunIsolated(net: Net, steps: seq<Step>, sid: Sid)
    requires WellFormed(net) && CanRun(net, steps) && Avoids(net, steps, sid)
    ensures SameFor(net, Run(net, steps), sid)
    decreases |steps|
  {
    if steps != [] {
      var next := Do(net, steps[0]);
      StepIsolated(net, steps[0]);
      ConfinedIsSame(net, next, StepSid(net, steps[0]), sid);
      RunIsolated(next, steps[1..], sid);
      SameThen(net, next, Run(next, steps[1..]), sid);
    }
  }

  /** In a well-formed network a stream end sits in the session of one session id at one node only. */
  lemma StreamServesOneSession(net: Net, n1: NodeId, sid1: Sid, n2: NodeId, sid2: Sid, e: End)
    requires WellFormed(net)
    requires SlotOf(net, n1, sid1).session.Some? && SlotOf(net, n1, sid1).session.value.Holds(e)
    requires SlotOf(net, n2, sid2).session.Some? && SlotOf(net, n2, sid2).session.value.Holds(e)
    ensures n1 == n2 && sid1 == sid2
  {
    assert SlotOk(net.links, n1, sid1, SlotOf(net, n1, sid1));
    assert SlotOk(net.links, n2, sid2, SlotOf(net, n2, sid2));
  }

  /** The places where the source unwraps an option never meet a missing value: a probe finds the
      session id its handler remembers, and a Success at a client finds a circuit entry. */
  lemma NoUnwrapFails(net: Net, e: End, m: Message)
    requires WellFormed(net) && Enabled(net, Deliver(e, m))
    ensures m.Probe? ==> StateOf(net, e).handler.sid == Some(net.links[e.link].sid)
    ensures m.Success? ==>
              var s := SlotOf(net, OwnerOf(net, e), m.doneSid);
              s.session.Some? && IsClientRole(s.session.value.role) ==> s.circuit.Some?
  {
    assert LinkOk(net.links[e.link]);
    if m.Success? {
      assert SlotOk(net.links, OwnerOf(net, e), m.doneSid, SlotOf(net, OwnerOf(net, e), m.doneSid));
    }
  }
}
