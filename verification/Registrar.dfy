/** The registration maps of a proxy node: which client sits behind which hash, and which hash each
    connected peer has registered last. */
module Registrar {
  import opened Peers

  /** An id is one character for the kind of key, followed by the key; the hash looks at the key only,
      and is taken to be injective there. */
  datatype ClientId = ClientId(kind: char, key: nat)

  function HashOf(id: ClientId): Hash { id.key }

  datatype Client = Client(id: ClientId, peer: Peer)

  datatype Maps = Maps(byHash: map<Hash, Client>, byPeer: map<Peer, Hash>)

  const NOBODY := Maps(map[], map[])

  datatype Event = Register(peer: Peer, id: ClientId) | Unregister(peer: Peer) | Disconnect(peer: Peer)

  /** The hash is free, so the registration is accepted. */
  predicate Accepted(m: Maps, e: Event) { e.Register? && HashOf(e.id) !in m.byHash }

  function Leave(m: Maps, p: Peer): Maps {
    if p in m.byPeer then Maps(m.byHash - {m.byPeer[p]}, m.byPeer - {p}) else m
  }

  function Next(m: Maps, e: Event): Maps {
    match e
    case Register(p, id) =>
      if HashOf(id) in m.byHash then m
      else Maps(m.byHash[HashOf(id) := Client(id, p)], m.byPeer[p := HashOf(id)])
    case Unregister(p) => Leave(m, p)
    case Disconnect(p) => Leave(m, p)
  }

  function After(m: Maps, es: seq<Event>): Maps
    decreases |es|
  {
    if es == [] then m else After(Next(m, es[0]), es[1..])
  }

  lemma AfterOne(m: Maps, e: Event)
    ensures After(m, [e]) == Next(m, e)
  {
    assert [e][1..] == [];
  }

  /** Events in a row are those of the first part and then those of the second. */
  lemma {:induction false} AfterThen(m: Maps, a: seq<Event>, b: seq<Event>)
    ensures After(m, a + b) == After(After(m, a), b)
    decreases |a|
  {
    if a == [] {
      assert a + b == b;
    } else {
      assert (a + b)[1..] == a[1..] + b;
      AfterThen(Next(m, a[0]), a[1..], b);
    }
  }

  /** The part of the event loop of a proxy node that keeps the two maps. */
  class Proxy {
    var clientWnMap: map<Hash, Client>
    var clientPeerMap: map<Peer, Hash>

    constructor ()
      ensures Held() == NOBODY
    {
      clientWnMap, clientPeerMap := map[], map[];
    }

    function Held(): Maps
      reads this
    {
      Maps(clientWnMap, clientPeerMap)
    }

    /** A refused registration is answered with a negative acknowledgement and changes nothing. */
    method NewProxy(peer: Peer, id: ClientId) returns (result: bool)
      modifies this
      ensures result <==> HashOf(id) !in old(clientWnMap)
      ensures result ==>
                && clientWnMap == old(clientWnMap)[HashOf(id) := Client(id, peer)]
                && clientPeerMap == old(clientPeerMap)[peer := HashOf(id)]
      ensures !result ==> clientWnMap == old(clientWnMap) && clientPeerMap == old(clientPeerMap)
      ensures Held() == Next(old(Held()), Register(peer, id))
    {
      var hash := HashOf(id);
      if hash in clientWnMap { return false; }
      clientPeerMap := clientPeerMap[peer := hash];
      clientWnMap := clientWnMap[hash := Client(id, peer)];
      return true;
    }

    method Remove(peer: Peer)
      modifies this
      ensures peer !in clientPeerMap
      ensures peer in old(clientPeerMap) ==> old(clientPeerMap)[peer] !in clientWnMap
      ensures forall p :: p != peer ==> (p in clientPeerMap <==> p in old(clientPeerMap))
      ensures forall p :: p in clientPeerMap ==> clientPeerMap[p] == old(clientPeerMap)[p]
      ensures forall h :: (peer in old(clientPeerMap) ==> h != old(clientPeerMap)[peer]) ==>
                            (h in clientWnMap <==> h in old(clientWnMap))
      ensures forall h :: h in clientWnMap ==> h in old(clientWnMap) && clientWnMap[h] == old(clientWnMap)[h]
      ensures Held() == Leave(old(Held()), peer)
    {
      if peer in clientPeerMap {
        var hash := clientPeerMap[peer];
        clientPeerMap := clientPeerMap - {peer};
        clientWnMap := clientWnMap - {hash};
      }
    }

    method ProcessProxyRequests(events: seq<Event>)
      modifies this
      ensures Held() == After(old(Held()), events)
    {
      var i := 0;
      while i < |events|
        invariant 0 <= i <= |events|
        invariant After(Held(), events[i..]) == After(old(Held()), events)
      {
        assert events[i..][0] == events[i] && events[i..][1..] == events[i + 1..];
        match events[i] {
          case Register(peer, id) => var result := NewProxy(peer, id);
          case Unregister(peer) => Remove(peer);
          case Disconnect(peer) => Remove(peer);
        }
        i := i + 1;
      }
    }
  }

  // ---- every run -----------------------------------------------------------------------------------

  /** The hash a peer is filed under is filed for that peer. */
  ghost predicate Consistent(m: Maps) {
    && (forall p :: p in m.byPeer ==> m.byPeer[p] in m.byHash && m.byHash[m.byPeer[p]].peer == p)
    && (forall h :: h in m.byHash ==> HashOf(m.byHash[h].id) == h)
  }

  /** In addition every client's peer is filed under that client's hash. */
  ghost predicate Inverse(m: Maps) {
    && Consistent(m)
    && (forall h :: h in m.byHash ==> m.byHash[h].peer in m.byPeer && m.byPeer[m.byHash[h].peer] == h)
  }

  /** What every accepted or refused registration does, after whatever run. */
  lemma RegisteringFiles(es: seq<Event>, p: Peer, id: ClientId)
    ensures var m, n, h := After(NOBODY, es), After(NOBODY, es + [Register(p, id)]), HashOf(id);
            && (h in m.byHash ==> n == m)
            && (h !in m.byHash ==> n == Maps(m.byHash[h := Client(id, p)], m.byPeer[p := h]))
  {
    AfterThen(NOBODY, es, [Register(p, id)]);
    AfterOne(After(NOBODY, es), Register(p, id));
  }

  /** What a peer that leaves, in either way, takes with it, after whatever run: its own entry and that of
      the hash it is filed under, and nothing else. A registration of that hash, by anybody, is accepted
      again. */
  lemma LeavingFrees(es: seq<Event>, e: Event, q: Peer, id: ClientId)
    requires !e.Register?
    ensures var m, n, p := After(NOBODY, es), After(NOBODY, es + [e]), e.peer;
            && p !in n.byPeer
            && (forall x :: x != p ==> (x in n.byPeer <==> x in m.byPeer))
            && (forall x :: x in n.byPeer ==> n.byPeer[x] == m.byPeer[x])
            && (forall h :: h in n.byHash <==> h in m.byHash && !(p in m.byPeer && h == m.byPeer[p]))
            && (forall h :: h in n.byHash ==> n.byHash[h] == m.byHash[h])
            && (p in m.byPeer && HashOf(id) == m.byPeer[p] ==>
                  var again := After(NOBODY, es + [e] + [Register(q, id)]);
                  again.byPeer == n.byPeer[q := HashOf(id)] && again.byHash == n.byHash[HashOf(id) := Client(id, q)])
  {
    AfterThen(NOBODY, es, [e]);
    AfterOne(After(NOBODY, es), e);
    RegisteringFiles(es + [e], q, id);
  }

  lemma {:induction false} RunConsistent(m: Maps, es: seq<Event>)
    requires Consistent(m)
    ensures Consistent(After(m, es))
    decreases |es|
  {
    if es != [] { RunConsistent(Next(m, es[0]), es[1..]); }
  }

  /** In every run the peers are filed under different hashes, each filed for its peer. */
  lemma PeersNeverShare(es: seq<Event>, p: Peer, q: Peer)
    ensures var m := After(NOBODY, es);
            && (p in m.byPeer ==> m.byPeer[p] in m.byHash && m.byHash[m.byPeer[p]].peer == p)
            && (p in m.byPeer && q in m.byPeer && m.byPeer[p] == m.byPeer[q] ==> p == q)
  {
    RunConsistent(NOBODY, es);
  }

  /** A peer that is filed already gets a second registration accepted. */
  predicate Reregisters(m: Maps, e: Event) { Accepted(m, e) && e.peer in m.byPeer }

  ghost predicate NeverReregisters(m: Maps, es: seq<Event>)
    decreases |es|
  {
    es != [] ==> !Reregisters(m, es[0]) && NeverReregisters(Next(m, es[0]), es[1..])
  }

  /** An entry whose peer is not filed under it. */
  ghost predicate Stale(m: Maps, h: Hash) {
    h in m.byHash && forall p :: p in m.byPeer ==> m.byPeer[p] != h
  }

  lemma StaleStays(m: Maps, e: Event, h: Hash)
    requires Stale(m, h)
    ensures Stale(Next(m, e), h) && Next(m, e).byHash[h] == m.byHash[h]
  {}

  /** Nothing ever removes a stale entry, and its hash can never be registered again. */
  lemma {:induction false} StaleForever(m: Maps, es: seq<Event>, h: Hash)
    requires Stale(m, h)
    ensures Stale(After(m, es), h) && After(m, es).byHash[h] == m.byHash[h]
    decreases |es|
  {
    if es != [] {
      StaleStays(m, es[0], h);
      StaleForever(Next(m, es[0]), es[1..], h);
    }
  }

  /** A second registration leaves the first entry of the peer behind. */
  lemma ReregisteringLeavesStale(m: Maps, e: Event)
    requires Inverse(m) && Reregisters(m, e)
    ensures Stale(Next(m, e), m.byPeer[e.peer])
  {}

  lemma OtherEventsKeepInverse(m: Maps, e: Event)
    requires Inverse(m) && !Reregisters(m, e)
    ensures Inverse(Next(m, e))
  {}

  /** From maps that are inverse to each other, a run ends with inverse maps if and only if no peer that
      is filed already ever gets a second registration accepted. */
  lemma {:induction false} InverseExactlyIf(m: Maps, es: seq<Event>)
    requires Inverse(m)
    ensures Inverse(After(m, es)) <==> NeverReregisters(m, es)
    decreases |es|
  {
    if es != [] {
      if Reregisters(m, es[0]) {
        ReregisteringLeavesStale(m, es[0]);
        StaleForever(Next(m, es[0]), es[1..], m.byPeer[es[0].peer]);
      } else {
        OtherEventsKeepInverse(m, es[0]);
        InverseExactlyIf(Next(m, es[0]), es[1..]);
      }
    }
  }

  /** Each peer only ever registers the id of its own key. */
  ghost predicate OwnIds(own: Peer -> ClientId, es: seq<Event>) {
    forall i :: 0 <= i < |es| && es[i].Register? ==> es[i].id == own(es[i].peer)
  }

  lemma {:induction false} OwnIdsNeverReregister(own: Peer -> ClientId, m: Maps, es: seq<Event>)
    requires OwnIds(own, es) && Consistent(m)
    requires forall h :: h in m.byHash ==> m.byHash[h].id == own(m.byHash[h].peer)
    ensures NeverReregisters(m, es)
    decreases |es|
  {
    if es != [] {
      if es[0].Register? && es[0].peer in m.byPeer {
        assert m.byHash[m.byPeer[es[0].peer]].id == own(es[0].peer);
      }
      OwnIdsNeverReregister(own, Next(m, es[0]), es[1..]);
    }
  }

  /** When each peer always registers the id of its own key, the two maps are exact inverses. */
  lemma OwnIdsKeepInverse(own: Peer -> ClientId, es: seq<Event>)
    requires OwnIds(own, es)
    ensures Inverse(After(NOBODY, es))
  {
    OwnIdsNeverReregister(own, NOBODY, es);
    InverseExactlyIf(NOBODY, es);
  }
}
