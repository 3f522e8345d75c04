/** What the relay event handler of one node does to the slot of one session id: the new slot,
    the messages it queues, the streams it closes, and whether it acknowledges a set-session
    message, originates a Success, or starts a handshake. */
module RelayLogic {
  import opened Wrappers
  import opened Protocol

  datatype Outcome = Outcome(
    slot: Slot,
    first: Option<Write>, second: Option<Write>,
    shut1: Option<End>, shut2: Option<End>,
    ack: bool, emits: bool, starts: bool)

  function Quiet(slot: Slot): Outcome {
    Outcome(slot, None, None, None, None, false, false, false)
  }

  function WriteTo(e: Option<End>, msg: Message): Option<Write> {
    if e.Some? then Some(Write(e.value, msg)) else None
  }

  /** Removes the three entries and closes the streams the session held. */
  function OnClose(slot: Slot): Outcome {
    if slot.session.None? then Quiet(EMPTY_SLOT)
    else Quiet(EMPTY_SLOT).(shut1 := slot.session.value.early, shut2 := slot.session.value.later)
  }

  /** Sends the same message on both streams of the session, as far as they exist. */
  function TwoWay(slot: Slot, msg: Message): Outcome {
    if slot.session.None? then Quiet(slot)
    else Quiet(slot).(first := WriteTo(slot.session.value.early, msg),
                      second := WriteTo(slot.session.value.later, msg),
                      emits := msg.Success?)
  }

  /** Sends a message that arrived on `e` out on the other stream of a ready session. */
  function Forward(slot: Slot, e: End, msg: Message): Outcome {
    if slot.session.None? || !slot.session.value.Ready() then Quiet(slot)
    else if slot.session.value.early == Some(e) then
      Quiet(slot).(first := WriteTo(slot.session.value.later, msg))
    else if slot.session.value.later == Some(e) then
      Quiet(slot).(first := WriteTo(slot.session.value.early, msg))
    else Quiet(slot)
  }

  function OnProbe(slot: Slot, e: End, sid: Sid, msg: Message): Outcome
    requires msg.Probe?
  {
    if slot.session.None? then Quiet(slot)
    else if slot.session.value.role == Sink then
      if slot.probe.None? then Quiet(slot.(probe := Some(msg.rand)))
      else if slot.probe.value == msg.rand then TwoWay(slot, Success(sid))
      else OnClose(slot)
    else Forward(slot, e, msg)
  }

  /** True for the two roles that end a circuit. */
  predicate IsClientRole(role: Role) { role == Caller || role == Answer }

  /** At a client a Success starts the handshake on the circuit entry (the source panics when
      there is none; Isolation.WellFormed rules that out). */
  function OnSuccess(slot: Slot, e: End, msg: Message): Outcome
    requires msg.Success?
  {
    if slot.session.None? then Quiet(slot)
    else if IsClientRole(slot.session.value.role) then Quiet(slot).(starts := slot.circuit.Some?)
    else Forward(slot, e, msg)
  }

  function OnData(slot: Slot, e: End, msg: Message): Outcome
    requires msg.Data?
  {
    if slot.session.None? then Quiet(slot)
    else if IsClientRole(slot.session.value.role) then
      if slot.circuit.None? then Quiet(slot)
      else
        var c := slot.circuit.value;
        Quiet(slot.(circuit := Some(c.(received := c.received + multiset{msg.payload}))))
    else Forward(slot, e, msg)
  }

  /** An answering client gets a circuit entry for the stream unless it has one already. */
  function WithCircuit(slot: Slot, e: End): Slot {
    if slot.circuit.Some? then slot
    else slot.(circuit := Some(Circuit(e, multiset{}, multiset{})))
  }

  /** The session takes the stream as its first one, or replaces its later one. */
  function Attach(slot: Slot, role: Role, e: End): Slot {
    slot.(session := Some(
      if slot.session.None? then Session(role, Some(e), None)
      else slot.session.value.(later := Some(e))))
  }

  /** A node told to take a role on a stream: an entry node told to relay replaces its stream to the
      sink, and closes the replaced one, if its session is ready, and gives up if it is not. */
  function TakeRole(s: Slot, e: End, msg: Message): Outcome
    requires msg.SetSession?
  {
    if s.session.Some? && s.session.value.role == Entry && msg.role == Relay then
      if s.session.value.Ready() then
        Quiet(Attach(s, Relay, e)).(
          first := WriteTo(s.session.value.later, Disconnect(msg.sid)),
          shut1 := s.session.value.later, ack := true)
      else OnClose(s)
    else Quiet(Attach(s, msg.role, e)).(ack := true)
  }

  function OnSetSession(slot: Slot, e: End, msg: Message): Outcome
    requires msg.SetSession?
  {
    TakeRole(if msg.role == Answer then WithCircuit(slot, e) else slot, e, msg)
  }

  /** One message of the read loop. */
  function OnMessage(slot: Slot, e: End, sid: Sid, msg: Message): Outcome {
    match msg
    case Wake => Quiet(slot)
    case SetSession(_, _) => OnSetSession(slot, e, msg)
    case Probe(_, _) => OnProbe(slot, e, sid, msg)
    case Disconnect(_) => OnClose(slot)
    case Success(_) => OnSuccess(slot, e, msg)
    case Data(_, _) => OnData(slot, e, msg)
  }

  /** The read loop meets an error on `e`: only a session that still holds `e` is closed. */
  function OnError(slot: Slot, e: End): Outcome {
    if slot.session.Some? && slot.session.value.Holds(e) then OnClose(slot) else Quiet(slot)
  }
}
