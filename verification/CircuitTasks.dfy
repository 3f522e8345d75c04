/** The four tasks that build a circuit, each at one node: dialling, the request for a new circuit at the
    entry node, the gossip at the access node, and the command at the relay node. Waiting for a stream,
    for gossip or for a reply is given by its result. */
module CircuitTasks {
  import opened Wrappers
  import opened Protocol
  import opened RelayLogic
  import opened RelayNode
  import opened PeerSelection
  import opened Peers
  import Network

  // ---- what each task makes of the slot ------------------------------------------------------------

  /** Attaching a stream and telling both sides. */
  function AttachThen(slot: Slot, role: Role, e: End, msg: Message): Outcome { TwoWay(Attach(slot, role, e), msg) }

  /** The caller's stream to its entry node, and a circuit entry that writes to it. */
  function Dialled(slot: Slot, e: End): Slot {
    Attach(slot, Caller, e).(circuit := Some(Circuit(e, multiset{}, multiset{})))
  }

  /** The request of a registered caller for a new circuit; `here` if the answering client is registered
      at this node too. The second part is the answer to the caller. */
  function OnNewCircuit(slot: Slot, sid: Sid, known: bool, here: bool, toAnswer: Opened,
          tries: seq<Opened>): (Outcome, bool) {
    if !known || !Network.HalfOpen(slot) then (Quiet(slot), false)
    else if here then
      if toAnswer.None? then (Quiet(slot), false)
      else (AttachThen(slot, Access, toAnswer.value, Success(sid)), true)
    else if FirstOpened(tries).None? then (OnClose(slot), false)
    else (AttachThen(slot, Entry, FirstOpened(tries).value, Probe(sid, ProbeRand(sid))), true)
  }

  /** The gossip reaches the access node; `sink` if it is the sink too, `reply` the relay's answer. */
  function OnGossip(slot: Slot, sid: Sid, toAnswer: Opened, sink: bool, tries: seq<Opened>, reply: bool): Outcome {
    if toAnswer.None? then OnClose(slot)
    else
      var s := Attach(slot, Access, toAnswer.value);
      if sink then TwoWay(s, Success(sid))
      else if FirstOpened(tries).None? then OnClose(s)
      else
        var t := Attach(s, Access, FirstOpened(tries).value);
        if reply then TwoWay(t, Probe(sid, ProbeRand(sid))) else OnClose(t)
  }

  /** The command to extend the session to the sink; the second part is the answer. */
  function OnCommand(slot: Slot, sid: Sid, toSink: Opened): (Outcome, bool) {
    if slot.session.None? then (OnClose(slot), false)
    else if slot.session.value.Ready() then (TwoWay(slot, Success(sid)), true)
    else if toSink.None? then (OnClose(slot), false)
    else (Quiet(Attach(slot, Relay, toSink.value)), true)
  }

  // ---- the tasks -------------------------------------------------------------------------------------

  /** The session under `sid` after taking a stream: a new one, or the old one with the stream as its later. */
  function Given(m: map<Sid, Session>, sid: Sid, role: Role, stream: Opened): Session {
    if sid in m then Session(m[sid].role, m[sid].early, stream) else Session(role, stream, None)
  }

  /** The session that a task has just worked on is told on both sides, if the node still has it. */
  method TellBoth(node: Node, sid: Sid, msg: Message)
    requires !msg.SetSession?
    modifies node`effects
    ensures sid !in node.sessionMap ==> node.effects == old(node.effects)
    ensures sid in node.sessionMap ==> node.effects == old(node.effects) + Told(node.sessionMap[sid], msg)
    ensures forall e :: node.effects == old(node.effects) + EffectsOf(TwoWay(SlotIn(node.Held(), sid), msg), e, sid)
  {
    if sid in node.sessionMap { node.SendRelayTwoway(node.sessionMap[sid], msg); }
  }

  /** A client dials: `stream` is the stream to its entry node. The request for the circuit follows, if the
      stream was acknowledged; the source panics if it was not. What the request returns is only logged. */
  method Dial(node: Node, sid: Sid, stream: Opened) returns (requests: bool)
    modifies node
    ensures requests == stream.Some? && node.effects == old(node.effects) && node.probeMap == old(node.probeMap)
    ensures stream.None? ==> node.sessionMap == old(node.sessionMap) && node.circuitMap == old(node.circuitMap)
    ensures stream.Some? ==>
              node.circuitMap == old(node.circuitMap)[sid := Circuit(stream.value, multiset{}, multiset{})]
    ensures stream.Some? && sid !in old(node.sessionMap) ==>
              node.sessionMap == old(node.sessionMap)[sid := Session(Caller, stream, None)]
    ensures stream.Some? && sid in old(node.sessionMap) ==>
              var s := old(node.sessionMap)[sid];
              node.sessionMap == old(node.sessionMap)[sid := Session(s.role, s.early, stream)]
    ensures node.Held() == if stream.None? then old(node.Held())
                           else WithSlot(old(node.Held()), sid, Dialled(SlotIn(old(node.Held()), sid), stream.value))
  {
    if stream.None? { return false; }
    ghost var t := node.Held();
    node.AttachStream(sid, Caller, stream.value);
    ghost var u := node.Held();
    node.circuitMap := node.circuitMap[sid := Circuit(stream.value, multiset{}, multiset{})];
    Overwrite(t, sid, SlotIn(u, sid), SlotIn(node.Held(), sid));
    SlotOnly(u, node.Held(), sid);
    return true;
  }

  method HandleNewCircuit(node: Node, sid: Sid, known: bool, here: bool, toAnswer: Opened,
                          rehash: Hash -> Hash, q: Search, peers: seq<Peer>, starts: seq<nat>, tries: seq<Opened>,
                              random: Peer)
    returns (res: bool)
    requires |starts| == 3 && |tries| == 3 && |peers| < WORD && forall i :: 0 <= i < 3 ==> starts[i] < WORD
    modifies node
    ensures var out := OnNewCircuit(SlotIn(old(node.Held()), sid), sid, known, here, toAnswer, tries);
            && res == out.1 && node.Held() == WithSlot(old(node.Held()), sid, out.0.slot)
            && forall e :: node.effects == old(node.effects) + EffectsOf(out.0, e, sid)
    ensures res <==> known && sid in old(node.sessionMap) && !old(node.sessionMap)[sid].Ready()
                     && if here then toAnswer.Some? else exists i :: 0 <= i < 3 && tries[i].Some?
    ensures res && here ==>
              var s := Given(old(node.sessionMap), sid, Access, toAnswer);
              && node.Held() == old(node.Held()).(sessions := old(node.sessionMap)[sid := s])
              && node.effects == old(node.effects) + Told(s, Success(sid))
    ensures res && !here ==>
              exists i ::
                && 0 <= i < 3 && tries[i].Some? && (forall j :: 0 <= j < i ==> tries[j].None?)
                && var s := Given(old(node.sessionMap), sid, Entry, tries[i]);
                && node.Held() == old(node.Held()).(sessions := old(node.sessionMap)[sid := s])
                && node.effects == old(node.effects) + Told(s, Probe(sid, ProbeRand(sid)))
    ensures !res ==>
              if known && sid in old(node.sessionMap) && !old(node.sessionMap)[sid].Ready() && !here then
                && node.Held() == Without(old(node.Held()), sid)
                && node.effects == old(node.effects) + Closed(old(node.sessionMap)[sid])
              else node.Held() == old(node.Held()) && node.effects == old(node.effects)
  {
    ghost var t := node.Held();
    node.Unchanged(t, sid);
    if !known { return false; }
    if sid !in node.sessionMap || node.sessionMap[sid].Ready() { return false; }
    if here {
      if toAnswer.None? { return false; }
      node.AttachStream(sid, Access, toAnswer.value);
      WithSlotIs(t, sid, Attach(SlotIn(t, sid), Access, toAnswer.value), sid);
      TellBoth(node, sid, Success(sid));
      return true;
    }
    var tried, ok, hits := FindAndExtend(rehash, q, peers, starts, tries, node, sid, Entry, random);
    if !ok { return false; }
    WithSlotIs(t, sid, Attach(SlotIn(t, sid), Entry, FirstOpened(tries).value), sid);
    TellBoth(node, sid, Probe(sid, ProbeRand(sid)));
    return true;
  }

  method ProcessPublishRequest(node: Node, sid: Sid, toAnswer: Opened, sink: bool, reply: bool,
                               rehash: Hash -> Hash, q: Search, peers: seq<Peer>, starts: seq<nat>, tries: seq<Opened>,
                                   random: Peer)
    requires |starts| == 3 && |tries| == 3 && |peers| < WORD && forall i :: 0 <= i < 3 ==> starts[i] < WORD
    modifies node
    ensures var out := OnGossip(SlotIn(old(node.Held()), sid), sid, toAnswer, sink, tries, reply);
            && node.Held() == WithSlot(old(node.Held()), sid, out.slot)
            && forall e :: node.effects == old(node.effects) + EffectsOf(out, e, sid)
    ensures toAnswer.None? ==>
              && node.Held() == Without(old(node.Held()), sid)
              && node.effects == old(node.effects)
                                 + if sid in old(node.sessionMap) then Closed(old(node.sessionMap)[sid]) else []
    ensures toAnswer.Some? && sink ==>
              var s := Given(old(node.sessionMap), sid, Access, toAnswer);
              && node.Held() == old(node.Held()).(sessions := old(node.sessionMap)[sid := s])
              && node.effects == old(node.effects) + Told(s, Success(sid))
    ensures toAnswer.Some? && !sink && (forall i :: 0 <= i < 3 ==> tries[i].None?) ==>
              && node.Held() == Without(old(node.Held()), sid)
              && node.effects == old(node.effects) + Closed(Given(old(node.sessionMap), sid, Access, toAnswer))
    ensures toAnswer.Some? && !sink && (exists i :: 0 <= i < 3 && tries[i].Some?) ==>
              exists i ::
                && 0 <= i < 3 && tries[i].Some? && (forall j :: 0 <= j < i ==> tries[j].None?)
                && var s := Given(old(node.sessionMap), sid, Access, toAnswer).(later := tries[i]);
                if reply then
                  && node.Held() == old(node.Held()).(sessions := old(node.sessionMap)[sid := s])
                  && node.effects == old(node.effects) + Told(s, Probe(sid, ProbeRand(sid)))
                else
                  && node.Held() == Without(old(node.Held()), sid)
                  && node.effects == old(node.effects) + Closed(s)
  {
    ghost var t := node.Held();
    if toAnswer.None? {
      node.HandleCloseSession(sid);
      return;
    }
    node.AttachStream(sid, Access, toAnswer.value);
    ghost var s := Attach(SlotIn(t, sid), Access, toAnswer.value);
    WithSlotIs(t, sid, s, sid);
    if sink {
      TellBoth(node, sid, Success(sid));
      return;
    }
    ghost var u := node.Held();
    var tried, ok, hits := FindAndExtend(rehash, q, peers, starts, tries, node, sid, Access, random);
    Overwrite(t, sid, s, Extended(s, Access, tries));
    if !ok { return; }
    ghost var v := Attach(s, Access, FirstOpened(tries).value);
    WithSlotIs(t, sid, v, sid);
    if !reply {
      node.HandleCloseSession(sid);
      Overwrite(t, sid, v, OnClose(v).slot);
    } else {
      TellBoth(node, sid, Probe(sid, ProbeRand(sid)));
    }
  }

  method ProcessCmdRequest(node: Node, sid: Sid, toSink: Opened) returns (result: bool)
    modifies node
    ensures result <==> sid in old(node.sessionMap) && (old(node.sessionMap)[sid].Ready() || toSink.Some?)
    ensures result && old(node.sessionMap)[sid].Ready() ==>
              && node.Held() == old(node.Held())
              && node.effects == old(node.effects) + Told(old(node.sessionMap)[sid], Success(sid))
    ensures result && !old(node.sessionMap)[sid].Ready() ==>
              var s := old(node.sessionMap)[sid].(later := toSink);
              && node.Held() == old(node.Held()).(sessions := old(node.sessionMap)[sid := s])
              && node.effects == old(node.effects)
    ensures !result ==>
              && node.Held() == Without(old(node.Held()), sid)
              && node.effects == old(node.effects)
                                 + if sid in old(node.sessionMap) then Closed(old(node.sessionMap)[sid]) else []
    ensures var out := OnCommand(SlotIn(old(node.Held()), sid), sid, toSink);
            && result == out.1 && node.Held() == WithSlot(old(node.Held()), sid, out.0.slot)
            && forall e :: node.effects == old(node.effects) + EffectsOf(out.0, e, sid)
  {
    node.Unchanged(node.Held(), sid);
    if sid !in node.sessionMap {
      node.HandleCloseSession(sid);
      return false;
    }
    if node.sessionMap[sid].Ready() {
      TellBoth(node, sid, Success(sid));
      return true;
    }
    if toSink.None? {
      node.HandleCloseSession(sid);
      return false;
    }
    node.AttachStream(sid, Relay, toSink.value);
    return true;
  }

  /** Writing a slot twice leaves the second value. */
  lemma Overwrite(t: Tables, sid: Sid, s: Slot, u: Slot)
    ensures WithSlot(WithSlot(t, sid, s), sid, u) == WithSlot(t, sid, u)
  {
    forall x ensures SlotIn(WithSlot(WithSlot(t, sid, s), sid, u), x) == SlotIn(WithSlot(t, sid, u), x) {
      WithSlotIs(t, sid, s, x);
      WithSlotIs(WithSlot(t, sid, s), sid, u, x);
      WithSlotIs(t, sid, u, x);
    }
    SameTables(WithSlot(WithSlot(t, sid, s), sid, u), WithSlot(t, sid, u));
  }

  /** Tables that differ in one slot only. */
  lemma SlotOnly(t: Tables, u: Tables, sid: Sid)
    requires forall x :: x != sid ==> SlotIn(u, x) == SlotIn(t, x)
    ensures u == WithSlot(t, sid, SlotIn(u, sid))
  {
    forall x
      ensures SlotIn(u, x) == SlotIn(WithSlot(t, sid, SlotIn(u, sid)), x)
    { WithSlotIs(t, sid, SlotIn(u, sid), x); }
    SameTables(u, WithSlot(t, sid, SlotIn(u, sid)));
  }
}
