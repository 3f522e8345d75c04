/** One node: its session, circuit and probe tables, and the relay event handlers that work on them.
    Each method does to the tables and queues exactly what the slot-level specification says. */
module RelayNode {
  import opened Wrappers
  import opened Protocol
  import opened RelayLogic

  /** What a handler puts on a queue, in order: a relay message or a close on a stream, an
      acknowledgement to the peer at the other end of a stream, or a handshake task. */
  datatype Effect = Put(write: Write) | CloseStream(end: End) | SendAck(of: End) | StartHandshake(sid: Sid)

  datatype Tables = Tables(sessions: map<Sid, Session>, circuits: map<Sid, Circuit>, probes: map<Sid, Rand>)

  function Entry<T>(m: map<Sid, T>, sid: Sid): Option<T> { if sid in m then Some(m[sid]) else None }

  function WithEntry<T>(m: map<Sid, T>, sid: Sid, v: Option<T>): map<Sid, T> {
    match v case None => m - {sid} case Some(x) => m[sid := x]
  }

  /** What the tables hold under one session id. */
  function SlotIn(t: Tables, sid: Sid): Slot {
    Slot(Entry(t.sessions, sid), Entry(t.circuits, sid), Entry(t.probes, sid))
  }

  function WithSlot(t: Tables, sid: Sid, s: Slot): Tables {
    Tables(WithEntry(t.sessions, sid, s.session), WithEntry(t.circuits, sid, s.circuit),
              WithEntry(t.probes, sid, s.probe))
  }

  lemma WithSlotIs(t: Tables, sid: Sid, s: Slot, x: Sid)
    ensures SlotIn(WithSlot(t, sid, s), x) == if x == sid then s else SlotIn(t, x)
  {}

  lemma SameEntries<T>(m: map<Sid, T>, n: map<Sid, T>)
    requires forall x :: Entry(m, x) == Entry(n, x)
    ensures m == n
  {
    assert forall x :: x in m <==> Entry(m, x).Some?;
    assert forall x :: x in n <==> Entry(n, x).Some?;
    forall x | x in m ensures m[x] == n[x] { assert Entry(m, x) == Some(m[x]); }
  }

  /** Tables are told apart by their slots. */
  lemma SameTables(t: Tables, u: Tables)
    requires forall x :: SlotIn(t, x) == SlotIn(u, x)
    ensures t == u
  {
    forall x
      ensures Entry(t.sessions, x) == Entry(u.sessions, x) && Entry(t.circuits, x) == Entry(u.circuits, x)
      ensures Entry(t.probes, x) == Entry(u.probes, x)
    { assert SlotIn(t, x) == SlotIn(u, x); }
    SameEntries(t.sessions, u.sessions);
    SameEntries(t.circuits, u.circuits);
    SameEntries(t.probes, u.probes);
  }

  function Puts(o: Option<Write>): seq<Effect> { if o.Some? then [Put(o.value)] else [] }

  function Closes(o: Option<End>): seq<Effect> { if o.Some? then [CloseStream(o.value)] else [] }

  /** The effects of an outcome of the handler of stream end `e` for `sid`, in order. */
  function EffectsOf(out: Outcome, e: End, sid: Sid): seq<Effect> {
    Puts(out.first) + Puts(out.second) + Closes(out.shut1) + Closes(out.shut2)
    + (if out.ack then [SendAck(e)] else []) + (if out.starts then [StartHandshake(sid)] else [])
  }

  // ---- what handlers queue, without a slot ----------------------------------------------------------

  /** A message on both streams of a session, as far as they exist, the early one first. */
  function Told(s: Session, msg: Message): seq<Effect> {
    (if s.early.Some? then [Put(Write(s.early.value, msg))] else [])
    + (if s.later.Some? then [Put(Write(s.later.value, msg))] else [])
  }

  /** A message that came on `e`, on the other stream of a ready session. */
  function Passed(s: Session, e: End, msg: Message): seq<Effect> {
    if !s.Ready() then []
    else if s.early == Some(e) then [Put(Write(s.later.value, msg))]
    else if s.later == Some(e) then [Put(Write(s.early.value, msg))]
    else []
  }

  /** The closes of a session's streams, the early one first. */
  function Closed(s: Session): seq<Effect> {
    (if s.early.Some? then [CloseStream(s.early.value)] else [])
    + (if s.later.Some? then [CloseStream(s.later.value)] else [])
  }

  /** The tables without any entry for a session id. */
  function Without(t: Tables, sid: Sid): Tables {
    Tables(t.sessions - {sid}, t.circuits - {sid}, t.probes - {sid})
  }

  // ---- the read loop as a specification ------------------------------------------------------------

  /** What the reader of a stream is given. */
  datatype Input = Got(msg: Message) | ReadError

  /** The state of one handler between two reads. */
  datatype Reader = Reader(tables: Tables, remembered: Option<Sid>, effects: seq<Effect>, stopped: bool)

  function Apply(r: Reader, e: End, sid: Sid, out: Outcome): Reader {
    r.(tables := WithSlot(r.tables, sid, out.slot), effects := r.effects + EffectsOf(out, e, sid))
  }

  /** The circuit entry is made under the session id the handler remembers, the session under the one in
      the message. */
  function TakeMessage(r: Reader, e: End, msg: Message): Reader
    requires msg.SetSession?
  {
    var known := if r.remembered.None? then msg.sid else r.remembered.value;
    var t := if msg.role == Answer then WithSlot(r.tables, known, WithCircuit(SlotIn(r.tables, known), e))
        else r.tables;
    Apply(r.(tables := t, remembered := Some(known)), e, msg.sid, TakeRole(SlotIn(t, msg.sid), e, msg))
  }

  /** One turn of the read loop. A probe without a remembered session id makes the source's task panic. */
  function Turn(r: Reader, e: End, input: Input): Reader {
    if input.ReadError? then
      (if r.remembered.None? then r
          else Apply(r, e, r.remembered.value, OnError(SlotIn(r.tables, r.remembered.value), e)))
      .(stopped := true)
    else
      match input.msg
      case Wake => r
      case SetSession(_, _) => TakeMessage(r, e, input.msg)
      case Probe(_, _) =>
        if r.remembered.None? then r.(stopped := true)
        else Apply(r, e, r.remembered.value,
                      OnProbe(SlotIn(r.tables, r.remembered.value), e, r.remembered.value, input.msg))
      case Disconnect(sid) => Apply(r, e, sid, OnClose(SlotIn(r.tables, sid))).(stopped := true)
      case Success(sid) => Apply(r, e, sid, OnSuccess(SlotIn(r.tables, sid), e, input.msg))
      case Data(sid, _) => Apply(r, e, sid, OnData(SlotIn(r.tables, sid), e, input.msg))
  }

  /** The whole loop on the inputs that arrive while nobody else uses the tables. */
  function Loop(r: Reader, e: End, inputs: seq<Input>): Reader
    decreases |inputs|
  {
    if r.stopped || inputs == [] then r else Loop(Turn(r, e, inputs[0]), e, inputs[1..])
  }

  /** The loop takes one input after the other, as long as it has not stopped. */
  lemma LoopOne(r: Reader, e: End, input: Input)
    ensures Loop(r, e, []) == r && Loop(r, e, [input]) == if r.stopped then r else Turn(r, e, input)
  {
    hide Turn;
    assert [input][1..] == [];
  }

  lemma {:induction false} LoopThen(r: Reader, e: End, a: seq<Input>, b: seq<Input>)
    ensures Loop(r, e, a + b) == Loop(Loop(r, e, a), e, b)
    decreases |a|
  {
    hide Turn;
    if a == [] {
      assert a + b == b;
    } else if !r.stopped {
      assert (a + b)[1..] == a[1..] + b;
      LoopThen(Turn(r, e, a[0]), e, a[1..], b);
    }
  }

  // ---- the node ------------------------------------------------------------------------------------

  class Node {
    var sessionMap: map<Sid, Session>
    var circuitMap: map<Sid, Circuit>
    var probeMap: map<Sid, Rand>
    var effects: seq<Effect>

    constructor ()
      ensures Held() == Tables(map[], map[], map[]) && effects == []
    {
      sessionMap, circuitMap, probeMap, effects := map[], map[], map[], [];
    }

    function Held(): Tables
      reads this
    {
      Tables(sessionMap, circuitMap, probeMap)
    }

    method Write(e: End, msg: Message)
      modifies this`effects
      ensures effects == old(effects) + [Put(Protocol.Write(e, msg))]
    {
      effects := effects + [Put(Protocol.Write(e, msg))];
    }

    method CloseEnd(e: End)
      modifies this`effects
      ensures effects == old(effects) + [CloseStream(e)]
    {
      effects := effects + [CloseStream(e)];
    }

    method HandleCloseSession(sid: Sid)
      modifies this
      ensures sessionMap == old(sessionMap) - {sid} && circuitMap == old(circuitMap) - {sid}
      ensures probeMap == old(probeMap) - {sid}
      ensures sid !in old(sessionMap) ==> effects == old(effects)
      ensures sid in old(sessionMap) ==>
                var early, later := old(sessionMap)[sid].early, old(sessionMap)[sid].later;
                effects == old(effects) + (if early.Some? then [CloseStream(early.value)] else [])
                                        + (if later.Some? then [CloseStream(later.value)] else [])
      ensures Held() == WithSlot(old(Held()), sid, OnClose(SlotIn(old(Held()), sid)).slot)
      ensures forall e :: effects == old(effects) + EffectsOf(OnClose(SlotIn(old(Held()), sid)), e, sid)
    {
      if sid in sessionMap {
        var session := sessionMap[sid];
        sessionMap := sessionMap - {sid};
        if session.early.Some? { CloseEnd(session.early.value); }
        if session.later.Some? { CloseEnd(session.later.value); }
      } else {
        assert sessionMap == sessionMap - {sid};
      }
      circuitMap := circuitMap - {sid};
      probeMap := probeMap - {sid};
    }

    method ForwardRelay(session: Session, e: End, msg: Message)
      requires session.Ready()
      modifies this`effects
      ensures effects == old(effects) +
        (if session.early == Some(e) then [Put(Protocol.Write(session.later.value, msg))]
         else if session.later == Some(e) then [Put(Protocol.Write(session.early.value, msg))] else [])
    {
      if session.early.value == e {
        Write(session.later.value, msg);
      } else if session.later.value == e {
        Write(session.early.value, msg);
      }
    }

    method SendRelayTwoway(session: Session, msg: Message)
      modifies this`effects
      ensures effects == old(effects)
                         + (if session.early.Some? then [Put(Protocol.Write(session.early.value, msg))] else [])
                         + (if session.later.Some? then [Put(Protocol.Write(session.later.value, msg))] else [])
    {
      if session.early.Some? { Write(session.early.value, msg); }
      if session.later.Some? { Write(session.later.value, msg); }
    }

    method HandleRelayProbe(sid: Sid, e: End, msg: Message)
      requires msg.Probe?
      modifies this
      ensures sid !in old(sessionMap) ==> Held() == old(Held()) && effects == old(effects)
      ensures sid in old(sessionMap) && old(sessionMap)[sid].role != Sink ==>
                Held() == old(Held()) && effects == old(effects) + Passed(old(sessionMap)[sid], e, msg)
      ensures sid in old(sessionMap) && old(sessionMap)[sid].role == Sink && sid !in old(probeMap) ==>
                Held() == old(Held()).(probes := old(probeMap)[sid := msg.rand]) && effects == old(effects)
      ensures sid in old(sessionMap) && old(sessionMap)[sid].role == Sink && sid in old(probeMap) ==>
                if old(probeMap)[sid] == msg.rand then
                  Held() == old(Held()) && effects == old(effects) + Told(old(sessionMap)[sid], Success(sid))
                else
                  Held() == Without(old(Held()), sid) && effects == old(effects) + Closed(old(sessionMap)[sid])
      ensures Held() == WithSlot(old(Held()), sid, OnProbe(SlotIn(old(Held()), sid), e, sid, msg).slot)
      ensures effects == old(effects) + EffectsOf(OnProbe(SlotIn(old(Held()), sid), e, sid, msg), e, sid)
    {
      ghost var t := Held();
      if sid !in sessionMap {
        Unchanged(t, sid);
        return;
      }
      var session := sessionMap[sid];
      if session.role == Sink {
        if sid in probeMap {
          if probeMap[sid] == msg.rand {
            Unchanged(t, sid);
            SendRelayTwoway(session, Success(sid));
          } else {
            HandleCloseSession(sid);
          }
        } else {
          Unchanged(t, sid);
          probeMap := probeMap[sid := msg.rand];
        }
        return;
      }
      Unchanged(t, sid);
      if session.Ready() { ForwardRelay(session, e, msg); }
    }

    method HandleSuccess(sid: Sid, e: End, msg: Message)
      requires msg == Success(sid)
      modifies this`effects
      ensures sid !in old(sessionMap) ==> effects == old(effects)
      ensures sid in old(sessionMap) ==>
                effects == old(effects) + (if old(sessionMap)[sid].role in {Caller, Answer} then
                                             if sid in old(circuitMap) then [StartHandshake(sid)] else []
                                           else Passed(old(sessionMap)[sid], e, msg))
      ensures Held() == WithSlot(old(Held()), sid, OnSuccess(SlotIn(old(Held()), sid), e, msg).slot)
      ensures effects == old(effects) + EffectsOf(OnSuccess(SlotIn(old(Held()), sid), e, msg), e, sid)
    {
      Unchanged(Held(), sid);
      if sid !in sessionMap { return; }
      var session := sessionMap[sid];
      if session.role == Caller || session.role == Answer {
        if sid in circuitMap { effects := effects + [StartHandshake(sid)]; }
      } else if session.Ready() {
        ForwardRelay(session, e, msg);
      }
    }

    method HandleRelayMsg(sid: Sid, e: End, msg: Message)
      requires msg.Data? && msg.dataSid == sid
      modifies this`effects, this`circuitMap
      ensures sid !in old(sessionMap) ==> circuitMap == old(circuitMap) && effects == old(effects)
      ensures sid in old(sessionMap) && old(sessionMap)[sid].role !in {Caller, Answer} ==>
                circuitMap == old(circuitMap) && effects == old(effects) + Passed(old(sessionMap)[sid], e, msg)
      ensures sid in old(sessionMap) && old(sessionMap)[sid].role in {Caller, Answer} ==>
                && effects == old(effects)
                && (if sid !in old(circuitMap) then circuitMap == old(circuitMap)
                    else var c := old(circuitMap)[sid];
                         var d := Circuit(c.out, c.sent, c.received + multiset{msg.payload});
                         circuitMap == old(circuitMap)[sid := d])
      ensures Held() == WithSlot(old(Held()), sid, OnData(SlotIn(old(Held()), sid), e, msg).slot)
      ensures effects == old(effects) + EffectsOf(OnData(SlotIn(old(Held()), sid), e, msg), e, sid)
    {
      Unchanged(Held(), sid);
      if sid !in sessionMap { return; }
      var session := sessionMap[sid];
      if session.role == Answer || session.role == Caller {
        if sid in circuitMap {
          var c := circuitMap[sid];
          circuitMap := circuitMap[sid := c.(received := c.received + multiset{msg.payload})];
        }
      } else if session.Ready() {
        ForwardRelay(session, e, msg);
      }
    }

    method AddCircuitConn(sid: Sid, e: End)
      modifies this`circuitMap
      ensures circuitMap == if sid in old(circuitMap) then old(circuitMap)
                            else old(circuitMap)[sid := Circuit(e, multiset{}, multiset{})]
      ensures Held() == WithSlot(old(Held()), sid, WithCircuit(SlotIn(old(Held()), sid), e))
    {
      Unchanged(Held(), sid);
      if sid !in circuitMap { circuitMap := circuitMap[sid := Circuit(e, multiset{}, multiset{})]; }
    }

    method HandleSetSession(e: End, msg: Message)
      requires msg.SetSession?
      modifies this
      ensures msg.sid !in old(sessionMap) ==>
                && Held() == old(Held()).(sessions := old(sessionMap)[msg.sid := Session(msg.role, Some(e), None)])
                && effects == old(effects) + [SendAck(e)]
      ensures msg.sid in old(sessionMap) ==>
                var s := old(sessionMap)[msg.sid];
                var t := old(Held()).(sessions := old(sessionMap)[msg.sid := Session(s.role, s.early, Some(e))]);
                if s.role == Entry && msg.role == Relay then
                  if s.early.Some? && s.later.Some? then
                    && Held() == t
                    && effects == old(effects) + [Put(Protocol.Write(s.later.value, Disconnect(msg.sid))),
                                                  CloseStream(s.later.value), SendAck(e)]
                  else Held() == Without(old(Held()), msg.sid) && effects == old(effects) + Closed(s)
                else Held() == t && effects == old(effects) + [SendAck(e)]
      ensures Held() == WithSlot(old(Held()), msg.sid, TakeRole(SlotIn(old(Held()), msg.sid), e, msg).slot)
      ensures effects == old(effects) + EffectsOf(TakeRole(SlotIn(old(Held()), msg.sid), e, msg), e, msg.sid)
    {
      hide OnClose;
      var sid := msg.sid;
      Unchanged(Held(), sid);
      if sid in sessionMap && sessionMap[sid].role == Entry && msg.role == Relay {
        var session := sessionMap[sid];
        if session.Ready() {
          sessionMap := sessionMap[sid := session.(later := Some(e))];
          Write(session.later.value, Disconnect(sid));
          CloseEnd(session.later.value);
          effects := effects + [SendAck(e)];
        } else {
          HandleCloseSession(sid);
        }
        return;
      }
      if sid !in sessionMap {
        sessionMap := sessionMap[sid := Session(msg.role, Some(e), None)];
      } else {
        sessionMap := sessionMap[sid := sessionMap[sid].(later := Some(e))];
      }
      effects := effects + [SendAck(e)];
    }

    /** A handshake task that is done puts its copy of the circuit entry into the table. The copy shares its
        channel with the entry, if that is still there, so that the entry's record stays what it was. */
    method FinishHandshake(sid: Sid, out: End)
      modifies this`circuitMap
      ensures Held() == WithSlot(old(Held()), sid, WithCircuit(SlotIn(old(Held()), sid), out))
      ensures circuitMap == if sid in old(circuitMap) then old(circuitMap)
                            else old(circuitMap)[sid := Circuit(out, multiset{}, multiset{})]
    {
      AddCircuitConn(sid, out);
    }

    /** The end of new_session_to_peer: the acknowledgement has come. */
    method AttachStream(sid: Sid, role: Role, e: End)
      modifies this`sessionMap
      ensures sid !in old(sessionMap) ==> sessionMap == old(sessionMap)[sid := Session(role, Some(e), None)]
      ensures sid in old(sessionMap) ==>
                var s := old(sessionMap)[sid]; sessionMap == old(sessionMap)[sid := Session(s.role, s.early, Some(e))]
      ensures Held() == WithSlot(old(Held()), sid, Attach(SlotIn(old(Held()), sid), role, e))
    {
      Unchanged(Held(), sid);
      if sid !in sessionMap {
        sessionMap := sessionMap[sid := Session(role, Some(e), None)];
      } else {
        sessionMap := sessionMap[sid := sessionMap[sid].(later := Some(e))];
      }
    }

    /** Rewriting a slot with what it holds changes nothing. */
    lemma Unchanged(t: Tables, sid: Sid)
      ensures WithSlot(t, sid, SlotIn(t, sid)) == t
    {
      forall x
        ensures SlotIn(WithSlot(t, sid, SlotIn(t, sid)), x) == SlotIn(t, x)
      { WithSlotIs(t, sid, SlotIn(t, sid), x); }
      SameTables(WithSlot(t, sid, SlotIn(t, sid)), t);
    }

    /** A read error closes the session only if it still holds this stream. */
    method HandleReadError(e: End, sid: Sid)
      modifies this
      ensures sid !in old(sessionMap) ==> Held() == old(Held()) && effects == old(effects)
      ensures sid in old(sessionMap) ==>
                var s := old(sessionMap)[sid];
                if s.early == Some(e) || s.later == Some(e) then
                  Held() == Without(old(Held()), sid) && effects == old(effects) + Closed(s)
                else Held() == old(Held()) && effects == old(effects)
      ensures Held() == WithSlot(old(Held()), sid, OnError(SlotIn(old(Held()), sid), e).slot)
      ensures effects == old(effects) + EffectsOf(OnError(SlotIn(old(Held()), sid), e), e, sid)
    {
      Unchanged(Held(), sid);
      var found := false;
      if sid in sessionMap {
        var session := sessionMap[sid];
        if session.early.Some? && session.early.value == e { found := true; }
        if session.later.Some? && session.later.value == e { found := true; }
      }
      if found { HandleCloseSession(sid); }
    }

    ghost function State(remembered: Option<Sid>, stopped: bool): Reader
      reads this
    {
      Reader(Held(), remembered, effects, stopped)
    }

    method HandleMessage(e: End, sessionId: Option<Sid>, msg: Message) returns (remembered: Option<Sid>, stopped: bool)
      modifies this
      ensures remembered == if msg.SetSession? && sessionId.None? then Some(msg.sid) else sessionId
      ensures stopped <==> msg.Disconnect? || (msg.Probe? && sessionId.None?)
      ensures msg.Disconnect? ==> Held() == Without(old(Held()), msg.closeSid)
      ensures msg.Wake? || (msg.Probe? && sessionId.None?) ==> Held() == old(Held()) && effects == old(effects)
      ensures State(remembered, stopped) == Turn(old(State(sessionId, false)), e, Got(msg))
    {
      remembered, stopped := sessionId, false;
      match msg
      case Wake =>
      case Probe(_, _) =>
        if remembered.None? { stopped := true; } else { HandleRelayProbe(remembered.value, e, msg); }
      case Disconnect(sid) =>
        HandleCloseSession(sid);
        assert effects == old(effects) + EffectsOf(OnClose(SlotIn(old(Held()), sid)), e, sid);
        stopped := true;
      case SetSession(sid, role) =>
        if remembered.None? { remembered := Some(sid); }
        if role == Answer { AddCircuitConn(remembered.value, e); }
        HandleSetSession(e, msg);
      case Success(sid) => HandleSuccess(sid, e, msg);
      case Data(sid, _) => HandleRelayMsg(sid, e, msg);
    }

    /** The handler of one stream, on the inputs that it is given in a row. */
    method RelayEventHandler(e: End, sessionId: Option<Sid>, inputs: seq<Input>)
        returns (remembered: Option<Sid>, stopped: bool)
      modifies this
      ensures State(remembered, stopped) == Loop(old(State(sessionId, false)), e, inputs)
    {
      remembered, stopped := sessionId, false;
      var i := 0;
      while i < |inputs| && !stopped
        invariant 0 <= i <= |inputs|
        invariant Loop(State(remembered, stopped), e, inputs[i..]) == Loop(old(State(sessionId, false)), e, inputs)
      {
        assert inputs[i..][0] == inputs[i] && inputs[i..][1..] == inputs[i + 1..];
        if inputs[i].ReadError? {
          if remembered.Some? { HandleReadError(e, remembered.value); }
          stopped := true;
        } else {
          remembered, stopped := HandleMessage(e, remembered, inputs[i].msg);
        }
        i := i + 1;
      }
    }
  }
}
