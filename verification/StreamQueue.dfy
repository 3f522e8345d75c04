/** The queue of newly opened streams and the rotating search in it: alone, with arrivals between the
    rounds, and with several waiters interleaved at every single operation. */
module StreamQueue {
  import opened Wrappers
  import opened Peers

  datatype Stream = Stream(id: nat, peer: Peer)

  /** The position of the first stream to `peer`, or the length. */
  function FirstTo(q: seq<Stream>, peer: Peer): (i: nat)
    ensures i <= |q|
    ensures i < |q| ==> q[i].peer == peer
    ensures forall j :: 0 <= j < i ==> q[j].peer != peer
  {
    if q == [] || q[0].peer == peer then 0 else 1 + FirstTo(q[1..], peer)
  }

  /** Everything that was pushed, in order. */
  function Arrived(a: seq<seq<Stream>>): seq<Stream> {
    if a == [] then [] else Arrived(a[..|a| - 1]) + a[|a| - 1]
  }

  const ROUND_MILLIS := 50
  const LIMIT_MILLIS := 5000

  class Queue {
    var streams: seq<Stream>

    constructor ()
      ensures streams == []
    {
      streams := [];
    }

    method PushBack(s: Stream)
      modifies this
      ensures streams == old(streams) + [s]
    {
      streams := streams + [s];
    }

    /** One round of the search. A miss puts everything back in place; a hit takes out the first stream to
        the peer and leaves what was behind it, followed by what was before it. */
    method Search(peer: Peer) returns (found: Option<Stream>)
      modifies this
      ensures var q, i := old(streams), FirstTo(old(streams), peer);
              if i < |q| then found == Some(q[i]) && streams == q[i + 1..] + q[..i]
              else found == None && streams == q
    {
      var len := |streams|;
      var index := 0;
      while index < len
        invariant 0 <= index <= len == old(|streams|)
        invariant streams == old(streams)[index..] + old(streams)[..index]
        invariant index <= FirstTo(old(streams), peer)
      {
        if streams != [] {
          var s := streams[0];
          streams := streams[1..];
          if s.peer == peer { return Some(s); }
          streams := streams + [s];
        }
        index := index + 1;
      }
      return None;
    }

    /** What the swarm pushes while a waiter sleeps. */
    method PushAll(xs: seq<Stream>)
      modifies this
      ensures streams == old(streams) + xs
    {
      for i := 0 to |xs|
        invariant streams == old(streams) + xs[..i]
      {
        PushBack(xs[i]);
      }
      assert xs[..|xs|] == xs;
    }

    /** The wait: at most a hundred rounds, with `arrivals[r]` pushed while the waiter sleeps after round
        `r`. Each round searches what was there first and what arrived since. The first round that has a
        stream to the peer takes the first such stream; the queue keeps all the others. The wait gives up
        only if every round has missed, so that no stream to the peer is left but what arrived during the
        last sleep. */
    method WaitForStream(peer: Peer, arrivals: seq<seq<Stream>>) returns (found: Option<Stream>, rounds: nat)
      requires |arrivals| == LIMIT_MILLIS / ROUND_MILLIS
      modifies this
      ensures 1 <= rounds <= LIMIT_MILLIS / ROUND_MILLIS
      ensures found.Some? ==>
                var q := old(streams) + Arrived(arrivals[..rounds - 1]);
                exists i ::
                  && 0 <= i < |q| && found == Some(q[i]) && q[i].peer == peer
                  && (forall j :: 0 <= j < i ==> q[j].peer != peer) && streams == q[i + 1..] + q[..i]
      ensures found.Some? && rounds > 1 ==>
                forall s :: s in old(streams) + Arrived(arrivals[..rounds - 2]) ==> s.peer != peer
      ensures found.None? ==> rounds == LIMIT_MILLIS / ROUND_MILLIS && streams == old(streams) + Arrived(arrivals)
      ensures found.None? ==> forall s :: s in old(streams) + Arrived(arrivals[..rounds - 1]) ==> s.peer != peer
    {
      hide FirstTo;
      var waitTime := 0;
      rounds := 0;
      found := None;
      assert old(streams) + Arrived(arrivals[..0]) == old(streams);
      while waitTime < LIMIT_MILLIS
        invariant found.None? && waitTime == rounds * ROUND_MILLIS && rounds <= LIMIT_MILLIS / ROUND_MILLIS
        invariant streams == old(streams) + Arrived(arrivals[..rounds])
        invariant rounds > 0 ==> forall s :: s in old(streams) + Arrived(arrivals[..rounds - 1]) ==> s.peer != peer
      {
        found := Search(peer);
        if found.Some? {
          rounds := rounds + 1;
          return;
        }
        ghost var q := streams;
        PushAll(arrivals[rounds]);
        assert arrivals[..rounds + 1][..rounds] == arrivals[..rounds];
        assert q + arrivals[rounds] == old(streams) + Arrived(arrivals[..rounds + 1]);
        rounds := rounds + 1;
        waitTime := waitTime + ROUND_MILLIS;
      }
      assert arrivals[..rounds] == arrivals;
    }
  }

  // ---- several waiters -----------------------------------------------------------------------------

  type Waiter = nat

  /** A waiter between two operations on the queue: it may hold a stream that it is about to put back, and
      it may have found one. */
  datatype Hand = Hand(peer: Peer, holds: Option<Stream>, found: Option<Stream>)

  datatype Shared = Shared(queue: seq<Stream>, hands: map<Waiter, Hand>, pushed: multiset<Stream>)

  /** A stream is opened; a waiter starts, takes the front, puts it back, or gives up. */
  datatype Step =
    | Push(s: Stream)
    | Start(w: Waiter, peer: Peer)
    | TakeFront(w: Waiter)
    | PutBack(w: Waiter)
    | GiveUp(w: Waiter)

  predicate Enabled(s: Shared, st: Step) {
    match st
    case Push(x) => x !in s.pushed
    case Start(w, _) => w !in s.hands
    case TakeFront(w) => w in s.hands && s.hands[w].holds.None? && s.hands[w].found.None?
    case PutBack(w) => w in s.hands && s.hands[w].holds.Some?
    case GiveUp(w) => w in s.hands && s.hands[w].holds.None? && s.hands[w].found.None?
  }

  function Do(s: Shared, st: Step): Shared
    requires Enabled(s, st)
  {
    match st
    case Push(x) => s.(queue := s.queue + [x], pushed := s.pushed + multiset{x})
    case Start(w, peer) => s.(hands := s.hands[w := Hand(peer, None, None)])
    case TakeFront(w) =>
      if s.queue == [] then s
      else if s.queue[0].peer == s.hands[w].peer then
        s.(queue := s.queue[1..], hands := s.hands[w := s.hands[w].(found := Some(s.queue[0]))])
      else s.(queue := s.queue[1..], hands := s.hands[w := s.hands[w].(holds := Some(s.queue[0]))])
    case PutBack(w) =>
      s.(queue := s.queue + [s.hands[w].holds.value], hands := s.hands[w := s.hands[w].(holds := None)])
    case GiveUp(w) => s.(hands := s.hands - {w})
  }

  ghost predicate CanRun(s: Shared, steps: seq<Step>)
    decreases |steps|
  {
    steps != [] ==> Enabled(s, steps[0]) && CanRun(Do(s, steps[0]), steps[1..])
  }

  ghost function Run(s: Shared, steps: seq<Step>): Shared
    requires CanRun(s, steps)
    decreases |steps|
  {
    if steps == [] then s else Run(Do(s, steps[0]), steps[1..])
  }

  /** `n` streams taken and put back by one waiter; after them, if it takes another one, it keeps that. */
  function Turns(w: Waiter, n: nat, last: bool): seq<Step> {
    if n == 0 then if last then [TakeFront(w)] else []
    else [TakeFront(w), PutBack(w)] + Turns(w, n - 1, last)
  }

  /** A waiter that nobody interrupts finds what one round of the search finds, and leaves the queue as that
      round leaves it. */
  lemma AloneItSearches(s: Shared, w: Waiter, n: nat)
    requires Enabled(s, TakeFront(w)) && n <= |s.queue|
    requires forall j :: 0 <= j < n ==> s.queue[j].peer != s.hands[w].peer
    requires n < |s.queue| ==> s.queue[n].peer == s.hands[w].peer
    ensures var q, steps := s.queue, Turns(w, n, n < |s.queue|);
            && CanRun(s, steps)
            && Run(s, steps) ==
               if n < |q| then s.(queue := q[n + 1..] + q[..n], hands := s.hands[w := s.hands[w].(found := Some(q[n]))])
               else s
    decreases n
  {
    AloneFrom(s, w, n, n < |s.queue|);
    if n == |s.queue| { assert s.queue[n..] + s.queue[..n] == s.queue; }
  }

  lemma {:induction false} AloneFrom(s: Shared, w: Waiter, n: nat, last: bool)
    requires w in s.hands && Enabled(s, TakeFront(w)) && n <= |s.queue|
    requires forall j :: 0 <= j < n ==> s.queue[j].peer != s.hands[w].peer
    requires last ==> n < |s.queue| && s.queue[n].peer == s.hands[w].peer
    ensures var q, steps := s.queue, Turns(w, n, last);
            && CanRun(s, steps)
            && Run(s, steps) ==
               if last then s.(queue := q[n + 1..] + q[..n], hands := s.hands[w := s.hands[w].(found := Some(q[n]))])
               else s.(queue := q[n..] + q[..n])
    decreases n
  {
    hide Do, Enabled;
    var q, steps := s.queue, Turns(w, n, last);
    if n > 0 {
      OneTurn(s, w, Turns(w, n - 1, last));
      var u := s.(queue := q[1..] + [q[0]]);
      AloneFrom(u, w, n - 1, last);
      assert u.queue[n - 1..] + u.queue[..n - 1] == q[n..] + q[..n];
      if last { assert u.queue[n..] + u.queue[..n - 1] == q[n + 1..] + q[..n]; }
    } else if last {
      TakesIt(s, w);
      assert steps[1..] == [] && q[1..] + q[..0] == q[1..];
    }
  }

  lemma OneTurn(s: Shared, w: Waiter, rest: seq<Step>)
    requires Enabled(s, TakeFront(w)) && s.queue != [] && s.queue[0].peer != s.hands[w].peer
    ensures var u, steps := s.(queue := s.queue[1..] + [s.queue[0]]), [TakeFront(w), PutBack(w)] + rest;
            Enabled(u, TakeFront(w)) && (CanRun(u, rest) ==> CanRun(s, steps) && Run(s, steps) == Run(u, rest))
  {
    var t, steps := Do(s, TakeFront(w)), [TakeFront(w), PutBack(w)] + rest;
    assert Do(t, PutBack(w)) == s.(queue := s.queue[1..] + [s.queue[0]]);
    hide Do, Enabled;
    assert steps[1..] == [PutBack(w)] + rest && steps[1..][1..] == rest;
    if CanRun(Do(t, PutBack(w)), rest) { assert CanRun(t, steps[1..]); }
  }

  lemma TakesIt(s: Shared, w: Waiter)
    requires Enabled(s, TakeFront(w)) && s.queue != [] && s.queue[0].peer == s.hands[w].peer
    ensures Do(s, TakeFront(w)) ==
            s.(queue := s.queue[1..], hands := s.hands[w := s.hands[w].(found := Some(s.queue[0]))])
  {}

  predicate InHand(s: Shared, w: Waiter, x: Stream) {
    w in s.hands && (s.hands[w].holds == Some(x) || s.hands[w].found == Some(x))
  }

  ghost predicate Counted(s: Shared) {
    && (forall x :: s.pushed[x] <= 1 && multiset(s.queue)[x] <= s.pushed[x])
    && (forall w, x :: InHand(s, w, x) ==> s.pushed[x] == 1 && multiset(s.queue)[x] == 0)
  }

  ghost predicate Alone(s: Shared) { forall w, v, x :: InHand(s, w, x) && InHand(s, v, x) ==> w == v }

  ghost predicate Kept(s: Shared) { forall x :: x in s.pushed && x !in s.queue ==> exists w :: InHand(s, w, x) }

  ghost predicate Served(s: Shared) {
    && (forall w :: w in s.hands ==> !(s.hands[w].holds.Some? && s.hands[w].found.Some?))
    && (forall w :: w in s.hands && s.hands[w].found.Some? ==> s.hands[w].found.value.peer == s.hands[w].peer)
  }

  /** Every stream that was pushed is in exactly one place: once in the queue, or in the hands of one
      waiter, as held or as found. */
  ghost predicate Partitioned(s: Shared) { Counted(s) && Alone(s) && Kept(s) && Served(s) }

  lemma PushPartitioned(s: Shared, x: Stream)
    requires Partitioned(s) && Enabled(s, Push(x))
    ensures Partitioned(Do(s, Push(x)))
  {
    var t := Do(s, Push(x));
    forall y | y in t.pushed && y !in t.queue ensures exists w :: InHand(t, w, y) {
      assert t.queue[|t.queue| - 1] == x;
      var w :| InHand(s, w, y);
      assert InHand(t, w, y);
    }
    forall w, y | InHand(t, w, y) ensures t.pushed[y] == 1 && multiset(t.queue)[y] == 0 { assert InHand(s, w, y); }
    forall w, v, y | InHand(t, w, y) && InHand(t, v, y) ensures w == v { assert InHand(s, w, y) && InHand(s, v, y); }
  }

  /** Taking the front moves it from the queue into one hand. */
  lemma TakeMoves(s: Shared, w: Waiter)
    requires Enabled(s, TakeFront(w)) && s.queue != [] && Counted(s)
    ensures var x, t := s.queue[0], Do(s, TakeFront(w));
            && multiset(s.queue) == multiset{x} + multiset(t.queue) && s.pushed[x] == 1 && t.pushed == s.pushed
            && InHand(t, w, x) && (forall v :: !InHand(s, v, x))
            && (forall v, y :: InHand(t, v, y) <==> InHand(s, v, y) || (v == w && y == x))
  {
    assert s.queue == [s.queue[0]] + s.queue[1..];
    assert s.queue[0] in multiset(s.queue);
  }

  lemma TakeServed(s: Shared, w: Waiter)
    requires Partitioned(s) && Enabled(s, TakeFront(w)) && s.queue != []
    ensures Served(Do(s, TakeFront(w)))
  {
    hide InHand;
  }

  lemma TakePartitioned(s: Shared, w: Waiter)
    requires Partitioned(s) && Enabled(s, TakeFront(w))
    ensures Partitioned(Do(s, TakeFront(w)))
  {
    hide InHand, Served;
    var t := Do(s, TakeFront(w));
    if s.queue != [] {
      var x := s.queue[0];
      TakeServed(s, w);
      TakeMoves(s, w);
      hide Do, Enabled;
      forall y ensures y in s.queue <==> y in multiset(s.queue) {}
      forall y ensures y in t.queue <==> y in multiset(t.queue) {}
      forall y | y in t.pushed && y !in t.queue ensures exists v :: InHand(t, v, y) {
        if y != x {
          var v :| InHand(s, v, y);
          assert InHand(t, v, y);
        }
      }
    }
  }

  lemma PutPartitioned(s: Shared, w: Waiter)
    requires Partitioned(s) && Enabled(s, PutBack(w))
    ensures Partitioned(Do(s, PutBack(w)))
  {
    var x, t := s.hands[w].holds.value, Do(s, PutBack(w));
    assert InHand(s, w, x);
    assert t.queue[|t.queue| - 1] == x;
    assert multiset(t.queue) == multiset(s.queue) + multiset{x};
    forall v, y | InHand(t, v, y) ensures InHand(s, v, y) && y != x {
      assert v != w ==> InHand(s, v, y);
    }
    forall y | y in t.pushed && y !in t.queue ensures exists v :: InHand(t, v, y) {
      assert y != x && y !in s.queue by { assert y in s.queue ==> y in multiset(t.queue); }
      var v :| InHand(s, v, y);
      assert InHand(t, v, y);
    }
  }

  lemma OtherPartitioned(s: Shared, st: Step)
    requires Partitioned(s) && Enabled(s, st) && (st.Start? || st.GiveUp?)
    ensures Partitioned(Do(s, st))
  {
    var t := Do(s, st);
    forall v, y ensures InHand(t, v, y) <==> InHand(s, v, y) {}
    forall y | y in t.pushed && y !in t.queue ensures exists v :: InHand(t, v, y) {
      var v :| InHand(s, v, y);
      assert InHand(t, v, y);
    }
  }

  lemma {:induction false} RunPartitioned(s: Shared, steps: seq<Step>)
    requires Partitioned(s) && CanRun(s, steps)
    ensures Partitioned(Run(s, steps))
    decreases |steps|
  {
    if steps != [] {
      var t := Do(s, steps[0]);
      match steps[0] {
        case Push(x) => PushPartitioned(s, x);
        case TakeFront(w) => TakePartitioned(s, w);
        case PutBack(w) => PutPartitioned(s, w);
        case _ => OtherPartitioned(s, steps[0]);
      }
      hide Partitioned;
      RunPartitioned(t, steps[1..]);
    }
  }

  /** Under every interleaving of arrivals and waiters: no stream is lost or duplicated, none is given to
      two waiters, and every waiter gets a stream to its own peer. */
  lemma StreamsAreHandedOutOnce(steps: seq<Step>, w: Waiter, v: Waiter, x: Stream)
    requires CanRun(Shared([], map[], multiset{}), steps)
    ensures var s := Run(Shared([], map[], multiset{}), steps);
            && (x in s.pushed ==> (x in s.queue <==> forall u :: !InHand(s, u, x)))
            && multiset(s.queue)[x] <= 1
            && (InHand(s, w, x) && InHand(s, v, x) ==> w == v && x in s.pushed)
            && (w in s.hands && s.hands[w].found == Some(x) ==> x.peer == s.hands[w].peer)
  {
    RunPartitioned(Shared([], map[], multiset{}), steps);
    var s := Run(Shared([], map[], multiset{}), steps);
    assert x in s.queue <==> x in multiset(s.queue);
  }
}
