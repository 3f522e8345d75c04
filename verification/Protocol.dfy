/** The vocabulary of the circuit protocol: nodes, session ids, stream ends, relay messages,
    and the three table entries (session, circuit, probe) a node keeps for one session id. */
module Protocol {
  import opened Wrappers

  type NodeId = nat
  type Sid = nat
  type LinkId = nat

  /** The bytes of one application or handshake message, as an opaque token. */
  type Payload = nat

  type Rand = nat

  datatype Role = Caller | Entry | Sink | Relay | Access | Answer

  /** One end of a stream. Both ends wrap the same substream; the opener's and the acceptor's
      copies have different stream ids. */
  datatype End = End(link: LinkId, opener: bool)

  function Peer(e: End): (p: End)
    ensures p != e && p.link == e.link
  {
    End(e.link, !e.opener)
  }

  datatype Message =
    | Wake
    | SetSession(sid: Sid, role: Role)
    | Probe(probeSid: Sid, rand: Rand)
    | Disconnect(closeSid: Sid)
    | Success(doneSid: Sid)
    | Data(dataSid: Sid, payload: Payload)

  /** The probe of a session carries a hash of the session id; the hash is taken to be injective. */
  function ProbeRand(sid: Sid): Rand { sid }

  datatype Session = Session(role: Role, early: Option<End>, later: Option<End>) {
    predicate Ready() { early.Some? && later.Some? }

    predicate Holds(e: End) { early == Some(e) || later == Some(e) }
  }

  /** A client's end of a circuit. `sent` and `received` record what was written to the out
      stream and what was pushed into the in-channel. */
  datatype Circuit = Circuit(out: End, sent: multiset<Payload>, received: multiset<Payload>)

  /** What one node stores under one session id in its session, circuit and probe maps. */
  datatype Slot = Slot(session: Option<Session>, circuit: Option<Circuit>, probe: Option<Rand>)

  const EMPTY_SLOT := Slot(None, None, None)

  /** A relay message put on the out queue of a node's own stream end. */
  datatype Write = Write(end: End, msg: Message)
}
