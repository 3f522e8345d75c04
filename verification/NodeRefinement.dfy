/** The node's handlers implement the steps of the network: one turn of the read loop of a node, run on
    that node's tables, is the delivery or read error of the step relation, effect by effect. */
module NodeRefinement {
  import opened Wrappers
  import opened Protocol
  import opened RelayLogic
  import opened Network
  import opened Isolation
  import opened RelayNode

  /** The tables are those of node `n`. */
  ghost predicate Mirrors(net: Net, n: NodeId, t: Tables) { forall x :: SlotIn(t, x) == SlotOf(net, n, x) }

  /** One effect of a handler of node `n`, as the other ends and the history see it. */
  function Perform(net: Net, n: NodeId, f: Effect): Net {
    match f
    case Put(w) => net.(links := Post(net.links, Some(w)))
    case CloseStream(e) => net.(links := Shut(net.links, Some(e)))
    case SendAck(e) => if e.link < |net.links| then Network.Ack(net, e.link) else net
    case StartHandshake(sid) => net.(started := net.started + multiset{(n, sid)})
  }

  function PerformAll(net: Net, n: NodeId, fs: seq<Effect>): Net
    decreases |fs|
  {
    if fs == [] then net else PerformAll(Perform(net, n, fs[0]), n, fs[1..])
  }

  lemma {:induction false} PerformThen(net: Net, n: NodeId, fs: seq<Effect>, gs: seq<Effect>)
    ensures PerformAll(net, n, fs + gs) == PerformAll(PerformAll(net, n, fs), n, gs)
    decreases |fs|
  {
    if fs == [] {
      assert fs + gs == gs;
    } else {
      assert (fs + gs)[1..] == fs[1..] + gs;
      PerformThen(Perform(net, n, fs[0]), n, fs[1..], gs);
    }
  }

  lemma PerformPuts(net: Net, n: NodeId, w: Option<Write>)
    ensures PerformAll(net, n, Puts(w)) == net.(links := Post(net.links, w))
  {
    if w.Some? { assert PerformAll(Perform(net, n, Put(w.value)), n, Puts(w)[1..]) == Perform(net, n, Put(w.value)); }
  }

  lemma PerformCloses(net: Net, n: NodeId, e: Option<End>)
    ensures PerformAll(net, n, Closes(e)) == net.(links := Shut(net.links, e))
  {
    if e.Some? {
      assert PerformAll(Perform(net, n, CloseStream(e.value)), n, Closes(e)[1..]) ==
             Perform(net, n, CloseStream(e.value));
    }
  }

  /** Everything a step changes outside the slots and the count of originated successes. */
  ghost predicate SameOutside(a: Net, b: Net) { a.links == b.links && a.started == b.started }

  /** Performing the effects of an outcome, one after the other, does what committing the outcome does. */
  lemma EffectsCommit(net: Net, n: NodeId, sid: Sid, out: Outcome, e: End)
    requires e.link < |net.links|
    ensures var b := Commit(net, n, sid, out);
            SameOutside(PerformAll(net, n, EffectsOf(out, e, sid)), if out.ack then Network.Ack(b, e.link) else b)
  {
    var f1, f2, f3, f4 := Puts(out.first), Puts(out.second), Closes(out.shut1), Closes(out.shut2);
    var f5 := if out.ack then [SendAck(e)] else [];
    var f6 := if out.starts then [StartHandshake(sid)] else [];
    PerformThen(net, n, f1, f2);
    PerformThen(net, n, f1 + f2, f3);
    PerformThen(net, n, f1 + f2 + f3, f4);
    PerformThen(net, n, f1 + f2 + f3 + f4, f5);
    PerformThen(net, n, f1 + f2 + f3 + f4 + f5, f6);
    var n1 := PerformAll(net, n, f1);
    var n2 := PerformAll(n1, n, f2);
    var n3 := PerformAll(n2, n, f3);
    var n4 := PerformAll(n3, n, f4);
    PerformPuts(net, n, out.first);
    PerformPuts(n1, n, out.second);
    PerformCloses(n2, n, out.shut1);
    PerformCloses(n3, n, out.shut2);
    hide Post, Shut;
    var n5 := PerformAll(n4, n, f5);
    assert n5 == if out.ack then Network.Ack(n4, e.link) else n4 by {
      if out.ack { assert PerformAll(Perform(n4, n, SendAck(e)), n, f5[1..]) == Perform(n4, n, SendAck(e)); }
    }
    assert PerformAll(n5, n, f6) == if out.starts then Perform(n5, n, StartHandshake(sid)) else n5 by {
      if out.starts {
        assert PerformAll(Perform(n5, n, StartHandshake(sid)), n, f6[1..]) == Perform(n5, n, StartHandshake(sid));
      }
    }
  }

  lemma CommitMirrors(net: Net, n: NodeId, sid: Sid, out: Outcome, t: Tables)
    requires Mirrors(net, n, t)
    ensures Mirrors(Commit(net, n, sid, out), n, WithSlot(t, sid, out.slot))
  {
    hide Post, Shut;
    forall x ensures SlotIn(WithSlot(t, sid, out.slot), x) == SlotOf(Commit(net, n, sid, out), n, x) {
      WithSlotIs(t, sid, out.slot, x);
    }
  }

  /** A turn that looks up `sid` and applies `out`. */
  lemma TurnApplies(a: Net, n1: Net, n: NodeId, e: End, sid: Sid, t: Tables, out: Outcome)
    requires Mirrors(a, n, t) && n1.slots == a.slots && e.link < |n1.links|
    ensures var b := if out.ack then Network.Ack(Commit(n1, n, sid, out), e.link) else Commit(n1, n, sid, out);
            && Mirrors(b, n, WithSlot(t, sid, out.slot))
            && SameOutside(PerformAll(n1, n, EffectsOf(out, e, sid)), b)
  {
    CommitMirrors(n1, n, sid, out, t);
    EffectsCommit(n1, n, sid, out, e);
    hide Commit, EffectsOf, WithSlot, SlotIn;
  }

  /** A set-session message in a well-formed network names the session id that the handler remembers. */
  lemma TurnTakes(r: Reader, e: End, m: Message)
    requires m.SetSession? && (r.remembered.Some? ==> r.remembered.value == m.sid)
    ensures var out := OnSetSession(SlotIn(r.tables, m.sid), e, m);
            && TakeMessage(r, e, m) == Apply(r.(remembered := Some(m.sid)), e, m.sid, out)
  {
    var s := SlotIn(r.tables, m.sid);
    if m.role == Answer {
      var c := WithCircuit(s, e);
      var out := TakeRole(c, e, m);
      WithSlotIs(r.tables, m.sid, c, m.sid);
      forall x
        ensures SlotIn(WithSlot(WithSlot(r.tables, m.sid, c), m.sid, out.slot), x) ==
                SlotIn(WithSlot(r.tables, m.sid, out.slot), x)
      {
        WithSlotIs(r.tables, m.sid, c, x);
        WithSlotIs(WithSlot(r.tables, m.sid, c), m.sid, out.slot, x);
        WithSlotIs(r.tables, m.sid, out.slot, x);
      }
      SameTables(WithSlot(WithSlot(r.tables, m.sid, c), m.sid, out.slot), WithSlot(r.tables, m.sid, out.slot));
    }
  }

  function ReaderOf(a: Net, e: End, t: Tables): Reader
    requires Known(a, e) && StateOf(a, e).handler.Running?
  {
    Reader(t, StateOf(a, e).handler.sid, [], false)
  }

  function HandlerAfter(r: Reader): Handler { if r.stopped then Stopped else Running(r.remembered) }

  /** A handler that remembers a session id remembers the one that a set-session message names. */
  lemma TurnSid(l: Link, e: End, m: Message)
    requires LinkOk(l) && Carries(m, l.sid) && EndOf(l, e.opener).handler.Running?
    ensures m.SetSession? && EndOf(l, e.opener).handler.sid.Some? ==> EndOf(l, e.opener).handler.sid == Some(m.sid)
  {}

  /** What the turn does, by the session id it looks up. */
  lemma TurnForm(a: Net, e: End, m: Message, t: Tables)
    requires WellFormed(a) && EnabledRelay(a, Deliver(e, m)) && Mirrors(a, OwnerOf(a, e), t)
    ensures var n, remembered := OwnerOf(a, e), StateOf(a, e).handler.sid;
            var r, sid := Turn(ReaderOf(a, e, t), e, Got(m)), LookupSid(m, remembered);
            && HandlerAfter(r) == NextHandler(m, remembered)
            && (sid.None? ==> r.tables == t && r.effects == [])
            && (sid.Some? ==>
                  var out := OnMessage(SlotOf(a, n, sid.value), e, sid.value, m);
                  r.tables == WithSlot(t, sid.value, out.slot) && r.effects == EffectsOf(out, e, sid.value))
  {
    hide ControlOk, EndOk, Carries;
    assert Known(a, e);
    hide WellFormed, LinkOk;
    LinkKnown(a, e.link);
    TakenOk(a, e, m);
    TurnSid(a.links[e.link], e, m);
    hide WellFormed, LinkOk, EffectsOf, WithSlot, OnProbe, OnClose, OnSuccess, OnData, OnSetSession, TakeMessage,
         SlotOf;
    var r := ReaderOf(a, e, t);
    if LookupSid(m, r.remembered).Some? {
      assert SlotIn(t, LookupSid(m, r.remembered).value) == SlotOf(a, OwnerOf(a, e), LookupSid(m, r.remembered).value);
    }
    hide SlotIn, Mirrors;
    if m.SetSession? { TurnTakes(r, e, m); }
  }

  /** One message: the node's turn on its tables, and then its effects on the network, are the delivery of
      the step relation. */
  lemma TurnRefinesDeliver(a: Net, e: End, m: Message, t: Tables)
    requires WellFormed(a) && EnabledRelay(a, Deliver(e, m)) && Mirrors(a, OwnerOf(a, e), t)
    ensures var n := OwnerOf(a, e);
            var r, b := Turn(ReaderOf(a, e, t), e, Got(m)), Do(a, Deliver(e, m));
            && Mirrors(b, n, r.tables)
            && SameOutside(PerformAll(Take(a, e, m, HandlerAfter(r)), n, r.effects), b)
  {
    var n, remembered := OwnerOf(a, e), StateOf(a, e).handler.sid;
    var n1, sid := Take(a, e, m, NextHandler(m, remembered)), LookupSid(m, remembered);
    TurnForm(a, e, m, t);
    assert n1.slots == a.slots && |n1.links| == |a.links|;
    hide WellFormed, Turn, OnMessage, Commit, EffectsOf, WithSlot, SlotIn, NextHandler, LookupSid, Take, PerformAll;
    if sid.Some? {
      TurnApplies(a, n1, n, e, sid.value, t, OnMessage(SlotOf(a, n, sid.value), e, sid.value, m));
    } else {
      assert PerformAll(n1, n, []) == n1 by { NothingPerformed(n1, n); }
    }
  }

  lemma NothingPerformed(a: Net, n: NodeId)
    ensures PerformAll(a, n, []) == a
  {}

  lemma ErrorForm(a: Net, e: End, t: Tables)
    requires EnabledRelay(a, Fault(e)) && Mirrors(a, OwnerOf(a, e), t)
    ensures var n, remembered := OwnerOf(a, e), StateOf(a, e).handler.sid;
            var r := Turn(ReaderOf(a, e, t), e, ReadError);
            && r.stopped && (remembered.None? ==> r.tables == t && r.effects == [])
            && (remembered.Some? ==>
                  var out := OnError(SlotOf(a, n, remembered.value), e);
                  !out.ack && r.tables == WithSlot(t, remembered.value, out.slot)
                  && r.effects == EffectsOf(out, e, remembered.value))
  {
    var remembered := StateOf(a, e).handler.sid;
    if remembered.Some? {
      assert SlotIn(t, remembered.value) == SlotOf(a, OwnerOf(a, e), remembered.value);
      hide SlotIn, SlotOf, EffectsOf, WithSlot, Mirrors;
    }
  }

  function StoppedAt(a: Net, e: End): Net
    requires Known(a, e)
  {
    a.(links := a.links[e.link := WithEnd(a.links[e.link], e.opener, StateOf(a, e).(handler := Stopped))])
  }

  /** A read error likewise. */
  lemma TurnRefinesFault(a: Net, e: End, t: Tables)
    requires EnabledRelay(a, Fault(e)) && Mirrors(a, OwnerOf(a, e), t)
    ensures var n := OwnerOf(a, e);
            var r, b := Turn(ReaderOf(a, e, t), e, ReadError), Do(a, Fault(e));
            && r.stopped && Mirrors(b, n, r.tables)
            && SameOutside(PerformAll(StoppedAt(a, e), n, r.effects), b)
  {
    var n, remembered := OwnerOf(a, e), StateOf(a, e).handler.sid;
    var n1 := StoppedAt(a, e);
    ErrorForm(a, e, t);
    NothingPerformed(n1, n);
    assert n1.slots == a.slots && e.link < |n1.links|;
    hide Turn, OnError, Commit, EffectsOf, WithSlot, SlotIn, PerformAll;
    if remembered.Some? { TurnApplies(a, n1, n, e, remembered.value, t, OnError(SlotOf(a, n, remembered.value), e)); }
  }
}
