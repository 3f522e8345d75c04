/** How an entry node finds a sink and an access node finds a relay: a scan of the peer list from a
    random start, up to three attempts, each with a session stream that opens or times out. */
module PeerSelection {
  import opened Wrappers
  import opened Protocol
  import opened RelayLogic
  import opened RelayNode
  import opened Peers

  /** The values of the source's index type. */
  const WORD := 0x1_0000_0000_0000_0000

  /** What a scan must avoid: this node, the peer that is busy with the session already, the bootstrap
      node if one is known, and peers whose stored hash, hashed again, is the destination. */
  datatype Search = Search(self: Peer, other: Peer, boot: Option<Peer>, stored: map<Peer, Hash>, to: Hash)

  predicate Blocked(rehash: Hash -> Hash, q: Search, p: Peer) { p in q.stored && rehash(q.stored[p]) == q.to }

  predicate Eligible(rehash: Hash -> Hash, q: Search, invalid: set<Peer>, p: Peer) {
    p !in invalid && p != q.self && p != q.other && Some(p) != q.boot && !Blocked(rehash, q, p)
  }

  /** The position visited in turn `j` of a scan that starts at the random word `start`; the increment
      wraps at the word size, as in a release build. */
  function Visited(start: nat, n: nat, j: nat): (k: nat)
    requires n > 0
    ensures k < n
  {
    ((start + 1) % WORD + j) % n
  }

  lemma Multiple(d: int, n: nat)
    ensures d >= 1 ==> d * n >= n
    ensures d <= -1 ==> d * n + n <= 0
  {
    if d >= 1 { assert d * n == (d - 1) * n + n; }
    if d <= -1 { assert d * n == (d + 1) * n - n; }
  }

  lemma ModIs(a: nat, n: nat, q: nat, r: nat)
    requires n > 0 && r < n && a == q * n + r
    ensures a % n == r
  {
    var d := a / n - q;
    assert a == (a / n) * n + a % n;
    assert d * n == (a / n) * n - q * n;
    Multiple(d, n);
  }

  /** Turn `j` visits the position `j` places after the first one, around the list. */
  lemma Rotated(a: nat, j: nat, n: nat)
    requires j < n
    ensures (a + j) % n == if a % n + j < n then a % n + j else a % n + j - n
  {
    assert a == (a / n) * n + a % n;
    if a % n + j < n {
      ModIs(a + j, n, a / n, a % n + j);
    } else {
      assert (a / n + 1) * n == (a / n) * n + n;
      ModIs(a + j, n, a / n + 1, a % n + j - n);
    }
  }

  lemma ModStep(a: nat, n: nat)
    requires n > 0
    ensures (a % n + 1) % n == (a + 1) % n
  {
    var r := a % n;
    if n > 1 { Rotated(a, 1, n); }
    if r + 1 < n { ModIs(r + 1, n, 0, r + 1); } else { ModIs(n, n, 1, 0); }
  }

  /** Different turns of one scan visit different positions. */
  lemma VisitsDiffer(start: nat, n: nat, i: nat, j: nat)
    requires n > 0 && i < j < n
    ensures Visited(start, n, i) != Visited(start, n, j)
  {
    Rotated((start + 1) % WORD, i, n);
    Rotated((start + 1) % WORD, j, n);
  }

  /** Every position is visited in some turn, and by `VisitsDiffer` in only one. */
  lemma VisitsAll(start: nat, n: nat, k: nat) returns (j: nat)
    requires k < n
    ensures j < n && Visited(start, n, j) == k
  {
    var r := (start + 1) % WORD % n;
    j := if k >= r then k - r else k + n - r;
    Rotated((start + 1) % WORD, j, n);
  }

  lemma NextVisit(start: nat, n: nat, j: nat, index: nat)
    requires start < WORD && j < n < WORD
    requires if j == 0 then index == start else index == Visited(start, n, j - 1)
    ensures (index + 1) % WORD % n == Visited(start, n, j)
  {
    if j > 0 {
      assert index + 1 < WORD;
      ModIs(index + 1, WORD, 0, index + 1);
      ModStep((start + 1) % WORD + (j - 1), n);
    }
  }

  /** The scan as the source has it. It finds the first eligible peer in the order of its turns. */
  method Scan(rehash: Hash -> Hash, q: Search, peers: seq<Peer>, invalid: set<Peer>, start: nat, before: Peer)
    returns (join: Peer, found: bool, ghost turn: nat)
    requires start < WORD && |peers| < WORD
    ensures found ==> turn < |peers| && join == peers[((start + 1) % WORD + turn) % |peers|]
    ensures found ==> join != q.self && join != q.other && Some(join) != q.boot && join !in invalid
    ensures found && join in q.stored ==> rehash(q.stored[join]) != q.to
    ensures !found ==> forall p :: p in peers ==>
                         || p == q.self || p == q.other || Some(p) == q.boot || p in invalid
                         || (p in q.stored && rehash(q.stored[p]) == q.to)
    ensures found <==> exists k :: 0 <= k < |peers| && Eligible(rehash, q, invalid, peers[k])
    ensures !found ==> join == before
    ensures found ==> Eligible(rehash, q, invalid, join)
    ensures found ==> forall i :: 0 <= i < turn ==> !Eligible(rehash, q, invalid, peers[Visited(start, |peers|, i)])
  {
    join, found, turn := before, false, 0;
    var index := start;
    var j := 0;
    while j < |peers|
      invariant 0 <= j <= |peers|
      invariant j > 0 ==> index == Visited(start, |peers|, j - 1)
      invariant j == 0 ==> index == start
      invariant forall i :: 0 <= i < j ==> !Eligible(rehash, q, invalid, peers[Visited(start, |peers|, i)])
    {
      NextVisit(start, |peers|, j, index);
      index := (index + 1) % WORD;
      index := index % |peers|;
      if Eligible(rehash, q, invalid, peers[index]) {
        return peers[index], true, j;
      }
      j := j + 1;
    }
    forall k | 0 <= k < |peers| ensures !Eligible(rehash, q, invalid, peers[k]) {
      var i := VisitsAll(start, |peers|, k);
    }
  }

  /** The peers of the attempts so far: those that found an eligible peer differ from all before. */
  ghost predicate Distinct(tried: seq<Peer>) { forall i, j :: 0 <= i < j < |tried| ==> tried[i] != tried[j] }

  /** How one call of new_session_to_peer ends: with a stream, acknowledged by the peer, or with the wait
      timed out. */
  type Opened = Option<End>

  /** The attempts that were made: all that failed and the first that did not. */
  function Attempts(outcomes: seq<Opened>): nat {
    if outcomes == [] then 0 else if outcomes[0].Some? then 1 else 1 + Attempts(outcomes[1..])
  }

  function FirstOpened(outcomes: seq<Opened>): Opened {
    if outcomes == [] then None else if outcomes[0].Some? then outcomes[0] else FirstOpened(outcomes[1..])
  }

  /** The attempts before the first that succeeds. */
  lemma {:induction false} FailedFirst(outcomes: seq<Opened>, n: nat)
    requires n <= |outcomes| && forall i :: 0 <= i < n ==> outcomes[i].None?
    ensures n < |outcomes| && outcomes[n].Some? ==> FirstOpened(outcomes) == outcomes[n] && Attempts(outcomes) == n + 1
    ensures n == |outcomes| ==> FirstOpened(outcomes) == None && Attempts(outcomes) == n
    decreases n
  {
    if n > 0 { FailedFirst(outcomes[1..], n - 1); }
  }

  /** What the attempts make of the slot: failed ones leave it alone, the first stream that opens becomes
      the later stream, and when none does the session is given up. */
  function Extended(s: Slot, role: Role, outcomes: seq<Opened>): Slot {
    if FirstOpened(outcomes).Some? then Attach(s, role, FirstOpened(outcomes).value) else OnClose(s).slot
  }

  /** The search for a sink by the entry node, or for a relay by the access node. `starts` are the random
      words and `outcomes` how the three attempts would end. */
  method FindAndExtend(rehash: Hash -> Hash, q: Search, peers: seq<Peer>, starts: seq<nat>, outcomes: seq<Opened>,
                       node: Node, sid: Sid, role: Role, random: Peer)
    returns (tried: seq<Peer>, ok: bool, ghost hits: seq<bool>)
    requires |starts| == 3 && |outcomes| == 3 && |peers| < WORD && forall i :: 0 <= i < 3 ==> starts[i] < WORD
    modifies node
    ensures |tried| == |hits| && 1 <= |tried| <= 3
    ensures forall i :: 0 <= i < |tried| - 1 ==> outcomes[i].None?
    ensures ok <==> outcomes[|tried| - 1].Some?
    ensures !ok ==> |tried| == 3
    ensures ok ==> node.circuitMap == old(node.circuitMap) && node.probeMap == old(node.probeMap)
    ensures ok && sid in old(node.sessionMap) ==>
              var s := old(node.sessionMap)[sid];
              node.sessionMap == old(node.sessionMap)[sid := Session(s.role, s.early, outcomes[|tried| - 1])]
    ensures ok && sid !in old(node.sessionMap) ==>
              node.sessionMap == old(node.sessionMap)[sid := Session(role, outcomes[|tried| - 1], None)]
    ensures !ok ==> node.Held() == Without(old(node.Held()), sid)
    ensures !ok && sid in old(node.sessionMap) ==> node.effects == old(node.effects) + Closed(old(node.sessionMap)[sid])
    ensures !ok && sid !in old(node.sessionMap) ==> node.effects == old(node.effects)
    ensures forall i :: 0 <= i < |tried| && hits[i] ==>
              && tried[i] in peers && tried[i] != q.self && tried[i] != q.other && Some(tried[i]) != q.boot
              && tried[i] !in tried[..i] && (tried[i] in q.stored ==> rehash(q.stored[tried[i]]) != q.to)
    ensures forall i, p :: 0 <= i < |tried| && !hits[i] && p in peers ==>
              || p == q.self || p == q.other || Some(p) == q.boot || p in tried[..i]
              || (p in q.stored && rehash(q.stored[p]) == q.to)
    ensures Carried(tried, hits, random)
    ensures node.Held() == WithSlot(old(node.Held()), sid, Extended(SlotIn(old(node.Held()), sid), role, outcomes))
    ensures ok <==> FirstOpened(outcomes).Some?
    ensures ok ==> node.effects == old(node.effects)
    ensures !ok ==> forall e :: node.effects ==
                        old(node.effects) + EffectsOf(OnClose(SlotIn(old(node.Held()), sid)), e, sid)
    ensures |tried| == |hits| == Attempts(outcomes)
    ensures Fair(rehash, q, peers, tried, hits)
    ensures (forall i :: 0 <= i < |hits| ==> hits[i]) ==> Distinct(tried)
  {
    hide Eligible, Distinct, EffectsOf, OnClose, Selected, Fair, Carried, FirstOpened, Attempts, Attach, Visited;
    NoneSelected(rehash, q, peers, random);
    var invalid: set<Peer> := {};
    var join := random;
    tried, ok, hits := [], false, [];
    ghost var t := node.Held();
    node.Unchanged(t, sid);
    var i := 0;
    while i < 3
      invariant 0 <= i <= 3
      invariant node.Held() == t && node.effects == old(node.effects)
      invariant |tried| == |hits| == i && Selected(rehash, q, peers, random, tried, hits, invalid)
      invariant join == if i == 0 then random else tried[i - 1]
      invariant forall k :: 0 <= k < i ==> outcomes[k].None?
    {
      var found;
      ghost var turn;
      join, found, turn := Scan(rehash, q, peers, invalid, starts[i], join);
      SelectedGrows(rehash, q, peers, random, tried, hits, invalid, join, found);
      tried, hits := tried + [join], hits + [found];
      if outcomes[i].None? {
        invalid := invalid + {join};
      } else {
        FailedFirst(outcomes, i);
        node.AttachStream(sid, role, outcomes[i].value);
        ok := true;
        SelectedMeans(rehash, q, peers, random, tried, hits, invalid + {join});
        return;
      }
      i := i + 1;
    }
    FailedFirst(outcomes, 3);
    SelectedMeans(rehash, q, peers, random, tried, hits, invalid);
    node.HandleCloseSession(sid);
  }

  /** The peers tried before attempt `i`. */
  function Earlier(tried: seq<Peer>, i: nat): set<Peer>
    requires i <= |tried|
  {
    set k | 0 <= k < i :: tried[k]
  }

  lemma EarlierGrows(tried: seq<Peer>, p: Peer)
    ensures forall i :: 0 <= i <= |tried| ==> Earlier(tried + [p], i) == Earlier(tried, i)
    ensures Earlier(tried + [p], |tried| + 1) == Earlier(tried, |tried|) + {p}
  {
    var more := tried + [p];
    forall i | 0 <= i <= |tried| ensures Earlier(more, i) == Earlier(tried, i) {
      assert forall k :: 0 <= k < i ==> more[k] == tried[k];
    }
    forall x | x in Earlier(tried, |tried|) + {p} ensures x in Earlier(more, |tried| + 1) {
      if x == p { assert more[|tried|] == x; } else {
        var k :| 0 <= k < |tried| && tried[k] == x;
        assert more[k] == x;
      }
    }
  }

  /** Each attempt that found an eligible peer tried that one; where none was found there was none. */
  ghost predicate Fair(rehash: Hash -> Hash, q: Search, peers: seq<Peer>, tried: seq<Peer>, hits: seq<bool>) {
    && |hits| == |tried|
    && (forall i :: 0 <= i < |tried| && hits[i] ==>
                      tried[i] in peers && Eligible(rehash, q, Earlier(tried, i), tried[i]))
    && (forall i :: 0 <= i < |tried| && !hits[i] ==> forall k :: 0 <= k < |peers| ==>
                                                         !Eligible(rehash, q, Earlier(tried, i), peers[k]))
  }

  /** An attempt that found nobody tries the peer of the attempt before again. */
  ghost predicate Carried(tried: seq<Peer>, hits: seq<bool>, random: Peer) {
    && |hits| == |tried|
    && (|tried| > 0 && !hits[0] ==> tried[0] == random)
    && forall i :: 0 < i < |tried| && !hits[i] ==> tried[i - 1] == tried[i]
  }

  lemma CarriedAtFirst(random: Peer)
    ensures Carried([], [], random)
  {}

  lemma CarriedGrows(tried: seq<Peer>, hits: seq<bool>, random: Peer, p: Peer, found: bool)
    requires Carried(tried, hits, random)
    requires !found ==> p == if |tried| == 0 then random else tried[|tried| - 1]
    ensures Carried(tried + [p], hits + [found], random)
  {}

  lemma EarlierIs(tried: seq<Peer>, i: nat, p: Peer)
    requires i <= |tried|
    ensures p in Earlier(tried, i) <==> p in tried[..i]
  {
    if p in Earlier(tried, i) {
      var k :| 0 <= k < i && tried[k] == p;
      assert tried[..i][k] == p;
    }
    if p in tried[..i] {
      var k :| 0 <= k < i && tried[..i][k] == p;
      assert tried[k] == p;
    }
  }

  /** What the attempts did, test by test. */
  lemma FairMeans(rehash: Hash -> Hash, q: Search, peers: seq<Peer>, tried: seq<Peer>, hits: seq<bool>)
    requires Fair(rehash, q, peers, tried, hits)
    ensures |hits| == |tried|
    ensures forall i :: 0 <= i < |tried| && hits[i] ==>
              && tried[i] in peers && tried[i] != q.self && tried[i] != q.other && Some(tried[i]) != q.boot
              && tried[i] !in tried[..i] && (tried[i] in q.stored ==> rehash(q.stored[tried[i]]) != q.to)
    ensures forall i, p :: 0 <= i < |tried| && !hits[i] && p in peers ==>
              || p == q.self || p == q.other || Some(p) == q.boot || p in tried[..i]
              || (p in q.stored && rehash(q.stored[p]) == q.to)
  {
    forall i, p | 0 <= i < |tried| ensures p in Earlier(tried, i) <==> p in tried[..i] { EarlierIs(tried, i, p); }
    hide Earlier;
  }

  lemma FairAtFirst(rehash: Hash -> Hash, q: Search, peers: seq<Peer>)
    ensures Fair(rehash, q, peers, [], [])
  {}

  lemma FairGrows(rehash: Hash -> Hash, q: Search, peers: seq<Peer>, tried: seq<Peer>, hits: seq<bool>, p: Peer,
          found: bool)
    requires Fair(rehash, q, peers, tried, hits)
    requires if found then p in peers && Eligible(rehash, q, Earlier(tried, |tried|), p)
             else forall k :: 0 <= k < |peers| ==> !Eligible(rehash, q, Earlier(tried, |tried|), peers[k])
    ensures Fair(rehash, q, peers, tried + [p], hits + [found])
  {
    hide Eligible;
    EarlierGrows(tried, p);
  }

  lemma HitsDiffer(rehash: Hash -> Hash, q: Search, tried: seq<Peer>)
    requires forall i :: 0 <= i < |tried| ==> Eligible(rehash, q, Earlier(tried, i), tried[i])
    ensures Distinct(tried)
  {
    forall i, j | 0 <= i < j < |tried| ensures tried[i] != tried[j] {
      assert tried[i] in Earlier(tried, j);
      assert tried[j] !in Earlier(tried, j);
    }
  }

  /** The attempts so far, and the peers that no later one may take. */
  ghost predicate Selected(rehash: Hash -> Hash, q: Search, peers: seq<Peer>, random: Peer, tried: seq<Peer>,
          hits: seq<bool>, invalid: set<Peer>) {
    && Fair(rehash, q, peers, tried, hits) && Carried(tried, hits, random) && invalid == Earlier(tried, |tried|)
  }

  lemma NoneSelected(rehash: Hash -> Hash, q: Search, peers: seq<Peer>, random: Peer)
    ensures Selected(rehash, q, peers, random, [], [], {})
  {
    FairAtFirst(rehash, q, peers);
    CarriedAtFirst(random);
  }

  lemma SelectedGrows(rehash: Hash -> Hash, q: Search, peers: seq<Peer>, random: Peer, tried: seq<Peer>,
          hits: seq<bool>, invalid: set<Peer>, p: Peer, found: bool)
    requires Selected(rehash, q, peers, random, tried, hits, invalid)
    requires found ==> p in peers && Eligible(rehash, q, invalid, p)
    requires !found ==> p == if |tried| == 0 then random else tried[|tried| - 1]
    requires !found ==> forall k :: 0 <= k < |peers| ==> !Eligible(rehash, q, invalid, peers[k])
    ensures Selected(rehash, q, peers, random, tried + [p], hits + [found], invalid + {p})
  {
    hide Eligible, Fair, Carried, Earlier;
    FairGrows(rehash, q, peers, tried, hits, p, found);
    CarriedGrows(tried, hits, random, p, found);
    EarlierGrows(tried, p);
  }

  lemma SelectedMeans(rehash: Hash -> Hash, q: Search, peers: seq<Peer>, random: Peer, tried: seq<Peer>,
          hits: seq<bool>, invalid: set<Peer>)
    requires Selected(rehash, q, peers, random, tried, hits, invalid)
    ensures |hits| == |tried| && Fair(rehash, q, peers, tried, hits) && Carried(tried, hits, random)
    ensures (forall i :: 0 <= i < |hits| ==> hits[i]) ==> Distinct(tried)
    ensures forall i :: 0 <= i < |tried| && hits[i] ==>
              && tried[i] in peers && tried[i] != q.self && tried[i] != q.other && Some(tried[i]) != q.boot
              && tried[i] !in tried[..i] && (tried[i] in q.stored ==> rehash(q.stored[tried[i]]) != q.to)
    ensures forall i, p :: 0 <= i < |tried| && !hits[i] && p in peers ==>
              || p == q.self || p == q.other || Some(p) == q.boot || p in tried[..i]
              || (p in q.stored && rehash(q.stored[p]) == q.to)
  {
    hide Fair, Carried, Distinct, Earlier;
    FairMeans(rehash, q, peers, tried, hits);
    AllHitsDiffer(rehash, q, peers, tried, hits);
  }

  lemma AllHitsDiffer(rehash: Hash -> Hash, q: Search, peers: seq<Peer>, tried: seq<Peer>, hits: seq<bool>)
    requires Fair(rehash, q, peers, tried, hits)
    ensures (forall i :: 0 <= i < |hits| ==> hits[i]) ==> Distinct(tried)
  {
    if forall i :: 0 <= i < |hits| ==> hits[i] { HitsDiffer(rehash, q, tried); }
  }

  /** Any number of attempts that time out, and then one that succeeds, leave the session its first stream
      and give it exactly the new one as its later stream; attempts that all fail leave nothing. */
  lemma {:induction false} FailedAttemptsDoNotDisturb(s: Slot, role: Role, outcomes: seq<Opened>, n: nat)
    requires s.session.Some? && n <= |outcomes| && forall i :: 0 <= i < n ==> outcomes[i].None?
    ensures n < |outcomes| && outcomes[n].Some? ==>
              Extended(s, role, outcomes) ==
                  s.(session := Some(Session(s.session.value.role, s.session.value.early, outcomes[n])))
              && Attempts(outcomes) == n + 1
    ensures n == |outcomes| ==> Extended(s, role, outcomes) == EMPTY_SLOT && Attempts(outcomes) == n
    decreases n
  {
    if n > 0 { FailedAttemptsDoNotDisturb(s, role, outcomes[1..], n - 1); }
  }

  /** The test against the destination hashes a value that is a hash already. For every list that holds the
      destination's own client there is a random start with which the scan takes this very client first, if
      and only if hashing its hash again gives a different hash. */
  lemma DestinationIsTakenExactlyIf(rehash: Hash -> Hash, q: Search, peers: seq<Peer>, k: nat)
    requires k < |peers| < WORD && peers[k] in q.stored && q.stored[peers[k]] == q.to
    requires peers[k] != q.self && peers[k] != q.other && Some(peers[k]) != q.boot
    ensures (exists start: nat :: start < WORD && Visited(start, |peers|, 0) == k
                 && Eligible(rehash, q, {}, peers[Visited(start, |peers|, 0)]))
            <==> rehash(q.to) != q.to
  {
    var start := if k == 0 then WORD - 1 else k - 1;
    assert (start + 1) % WORD == k by { ModIs(start + 1, WORD, if k == 0 then 1 else 0, k); }
    ModIs(k, |peers|, 0, k);
    assert Visited(start, |peers|, 0) == k;
  }
}
