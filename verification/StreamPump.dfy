/** The task of one wrapped stream: it writes what is queued and hands on what is read, in whatever order
    the two become ready, until one of them ends it. Each message that is read is given to a task of its
    own, which puts it into the reader's channel when it runs. */
module StreamPump {
  import opened Wrappers

  type Packet = seq<nat>

  /** What the users of the stream queue. */
  datatype Item = Close | Payload(data: Packet)

  /** What happens next: a user queues an item; the pump finds its queue ready, or finds that every sender
      is gone; a read ends with a message, which may be empty, or with an error; a write fails, at which
      the source's task panics; or the task of a message that was read runs, `task` being its place among
      those that have not run yet. */
  datatype Event =
    | Queue(item: Item)
    | TakeItem
    | SendersGone
    | ReadMessage(data: Packet)
    | ReadFails
    | WriteFails
    | HandOver(task: nat)

  datatype Ending = Open | ByClose | BySenders | ByRead | ByPanic

  /** `queued` is everything ever queued, `taken` how much of it the pump has taken, `handing` the messages
      whose tasks have not run, `results` what the reader's channel was given, None being an error. */
  datatype Pump = Pump(queued: seq<Item>, taken: nat, written: seq<Packet>, handing: seq<Packet>,
                          results: seq<Option<Packet>>, ending: Ending)

  const NEW_PUMP := Pump([], 0, [], [], [], Open)

  function Signalled(p: Pump, ending: Ending): Pump { p.(results := p.results + [None], ending := ending) }

  function Next(p: Pump, e: Event): Pump {
    if e.Queue? then p.(queued := p.queued + [e.item])
    else if e.HandOver? then
      if e.task >= |p.handing| then p
      else p.(handing := p.handing[..e.task] + p.handing[e.task + 1..],
              results := p.results + [Some(p.handing[e.task])])
    else if p.ending != Open then p
    else
      match e
      case TakeItem =>
        if p.taken >= |p.queued| then p
        else if p.queued[p.taken].Close? then Signalled(p.(taken := p.taken + 1), ByClose)
        else p.(taken := p.taken + 1, written := p.written + [p.queued[p.taken].data])
      case WriteFails =>
        if p.taken < |p.queued| && p.queued[p.taken].Payload? then p.(taken := p.taken + 1, ending := ByPanic) else p
      case SendersGone => if p.taken == |p.queued| then Signalled(p, BySenders) else p
      case ReadFails => Signalled(p, ByRead)
      case ReadMessage(data) => if data == [] then Signalled(p, ByRead) else p.(handing := p.handing + [data])
  }

  function After(p: Pump, es: seq<Event>): Pump
    decreases |es|
  {
    if es == [] then p else After(Next(p, es[0]), es[1..])
  }

  lemma AfterOne(p: Pump, e: Event)
    ensures After(p, [e]) == Next(p, e)
  {
    assert [e][1..] == [];
  }

  /** Events in a row are those of the first part and then those of the second. */
  lemma {:induction false} AfterThen(p: Pump, a: seq<Event>, b: seq<Event>)
    ensures After(p, a + b) == After(After(p, a), b)
    decreases |a|
  {
    if a == [] {
      assert a + b == b;
    } else {
      assert (a + b)[1..] == a[1..] + b;
      AfterThen(Next(p, a[0]), a[1..], b);
    }
  }

  /** The wrapped stream with its two channels, the polling task, and the tasks that hand messages over. */
  class Wrapped {
    var outChannel: seq<Item>
    var wire: seq<Packet>
    var handing: seq<Packet>
    var inChannel: seq<Option<Packet>>
    ghost var pump: Pump

    /** The channels hold what the pump's history says. */
    ghost predicate Valid()
      reads this
    {
      && pump.taken <= |pump.queued|
      && outChannel == pump.queued[pump.taken..]
      && wire == pump.written
      && handing == pump.handing
      && inChannel == pump.results
    }

    constructor ()
      ensures Valid() && pump == NEW_PUMP
      ensures outChannel == [] && wire == [] && handing == [] && inChannel == []
    {
      outChannel, wire, handing, inChannel, pump := [], [], [], [], NEW_PUMP;
    }

    method Send(item: Item)
      requires Valid()
      modifies this
      ensures outChannel == old(outChannel) + [item]
      ensures wire == old(wire) && handing == old(handing) && inChannel == old(inChannel)
      ensures Valid() && pump == Next(old(pump), Queue(item))
    {
      outChannel := outChannel + [item];
      pump := Next(pump, Queue(item));
      assert pump.queued[pump.taken..] == old(pump).queued[pump.taken..] + [item];
    }

    /** One of the tasks that carry a message runs. */
    method RunTask(task: nat)
      requires Valid() && task < |handing|
      modifies this
      ensures inChannel == old(inChannel) + [Some(old(handing)[task])]
      ensures handing == old(handing)[..task] + old(handing)[task + 1..]
      ensures outChannel == old(outChannel) && wire == old(wire)
      ensures Valid() && pump == Next(old(pump), HandOver(task))
    {
      inChannel := inChannel + [Some(handing[task])];
      handing := handing[..task] + handing[task + 1..];
      pump := Next(pump, HandOver(task));
    }

    /** One turn of the select loop; the result says whether the task goes on. */
    method Poll(e: Event) returns (running: bool)
      requires Valid() && pump.ending == Open && !e.Queue? && !e.HandOver?
      modifies this
      ensures e.TakeItem? && old(outChannel) != [] && old(outChannel)[0].Payload? ==>
                && running && outChannel == old(outChannel)[1..] && wire == old(wire) + [old(outChannel)[0].data]
                && handing == old(handing) && inChannel == old(inChannel)
      ensures e.TakeItem? && old(outChannel) != [] && old(outChannel)[0].Close? ==>
                && !running && outChannel == old(outChannel)[1..] && inChannel == old(inChannel) + [None]
                && handing == old(handing) && wire == old(wire)
      ensures e.WriteFails? && old(outChannel) != [] && old(outChannel)[0].Payload? ==>
                && !running && outChannel == old(outChannel)[1..]
                && handing == old(handing) && wire == old(wire) && inChannel == old(inChannel)
      ensures e.ReadMessage? && e.data != [] ==>
                && running && handing == old(handing) + [e.data]
                && outChannel == old(outChannel) && wire == old(wire) && inChannel == old(inChannel)
      ensures e.ReadFails? || e == ReadMessage([]) || (e.SendersGone? && old(outChannel) == []) ==>
                && !running && inChannel == old(inChannel) + [None]
                && outChannel == old(outChannel) && wire == old(wire) && handing == old(handing)
      ensures || ((e.TakeItem? || e.WriteFails?) && old(outChannel) == [])
              || (e.WriteFails? && old(outChannel)[0].Close?) || (e.SendersGone? && old(outChannel) != []) ==>
                && running && outChannel == old(outChannel) && wire == old(wire)
                && handing == old(handing) && inChannel == old(inChannel)
      ensures Valid() && pump == Next(old(pump), e)
      ensures running <==> pump.ending == Open
    {
      ghost var was := pump;
      assert was.taken < |was.queued| ==>
             was.queued[was.taken..] == [was.queued[was.taken]] + was.queued[was.taken + 1..];
      running := true;
      match e {
        case TakeItem =>
          if outChannel != [] {
            var item := outChannel[0];
            outChannel := outChannel[1..];
            match item {
              case Close =>
                inChannel := inChannel + [None];
                running := false;
              case Payload(data) => wire := wire + [data];
            }
          }
        case WriteFails =>
          if outChannel != [] && outChannel[0].Payload? {
            outChannel := outChannel[1..];
            running := false;
          }
        case SendersGone =>
          if outChannel == [] {
            inChannel := inChannel + [None];
            running := false;
          }
        case ReadFails =>
          inChannel := inChannel + [None];
          running := false;
        case ReadMessage(data) =>
          if data == [] {
            inChannel := inChannel + [None];
            running := false;
          } else {
            handing := handing + [data];
          }
      }
      pump := Next(pump, e);
    }

    /** start_poll, with the users' sends and the tasks it has spawned interleaved as the events say. */
    method StartPoll(events: seq<Event>)
      requires Valid() && pump.ending == Open
      modifies this
      ensures Valid() && pump == After(old(pump), events)
    {
      var i := 0;
      var running := true;
      while i < |events|
        invariant 0 <= i <= |events|
        invariant Valid() && (running <==> pump.ending == Open)
        invariant After(pump, events[i..]) == After(old(pump), events)
      {
        assert events[i..][0] == events[i] && events[i..][1..] == events[i + 1..];
        if events[i].Queue? {
          Send(events[i].item);
        } else if events[i].HandOver? {
          if events[i].task < |handing| { RunTask(events[i].task); }
        } else if running {
          running := Poll(events[i]);
        }
        i := i + 1;
      }
    }
  }

  // ---- what is written, in every interleaving ----------------------------------------------------

  /** The items that the events queue. */
  function QueuedIn(es: seq<Event>): seq<Item> {
    if es == [] then [] else (if es[0].Queue? then [es[0].item] else []) + QueuedIn(es[1..])
  }

  /** The data queued before the first close. */
  function BeforeClose(q: seq<Item>): seq<Packet> {
    if q == [] || q[0].Close? then [] else [q[0].data] + BeforeClose(q[1..])
  }

  /** How many errors the reader is given. */
  function Errors(r: seq<Option<Packet>>): nat {
    if r == [] then 0 else Errors(r[..|r| - 1]) + One(r[|r| - 1].None?)
  }

  lemma ErrorsGrow(r: seq<Option<Packet>>, x: Option<Packet>)
    ensures Errors(r + [x]) == Errors(r) + One(x.None?)
  {
    assert (r + [x])[..|r|] == r;
  }

  predicate NoClose(q: seq<Item>) { forall i :: 0 <= i < |q| ==> !q[i].Close? }

  lemma {:induction false} BeforeCloseSplits(q: seq<Item>, r: seq<Item>)
    ensures NoClose(q) ==> BeforeClose(q + r) == BeforeClose(q) + BeforeClose(r)
    ensures !NoClose(q) ==> BeforeClose(q + r) == BeforeClose(q)
  {
    if q == [] {
      assert q + r == r;
    } else {
      assert (q + r)[1..] == q[1..] + r;
      BeforeCloseSplits(q[1..], r);
      if !q[0].Close? {
        assert NoClose(q[1..]) ==> NoClose(q) by { assert forall i :: 0 < i < |q| ==> q[i] == q[1..][i - 1]; }
      }
    }
  }

  /** The pump has taken data only, and after it the close or the failing write that ended it. */
  ghost predicate Ordered(p: Pump) {
    && p.taken <= |p.queued|
    && (p.ending == ByClose || p.ending == ByPanic ==> p.taken > 0)
    && var data := if p.ending == ByClose || p.ending == ByPanic then p.taken - 1 else p.taken;
    && NoClose(p.queued[..data]) && p.written == BeforeClose(p.queued[..data])
    && (p.ending == ByClose ==> p.queued[p.taken - 1].Close?)
  }

  /** One error has been signalled if the pump has ended in any way but a panic. */
  ghost predicate ErrorsFit(p: Pump) {
    Errors(p.results) == One(p.ending == ByClose || p.ending == BySenders || p.ending == ByRead)
  }

  lemma QueueOrdered(p: Pump, item: Item)
    requires Ordered(p)
    ensures Ordered(Next(p, Queue(item)))
  {
    var n := Next(p, Queue(item));
    assert n.queued[..p.taken] == p.queued[..p.taken];
    if p.taken > 0 { assert n.queued[..p.taken - 1] == p.queued[..p.taken - 1]; }
  }

  lemma TakeOrdered(p: Pump)
    requires Ordered(p)
    ensures Ordered(Next(p, TakeItem))
  {
    if p.ending == Open && p.taken < |p.queued| && p.queued[p.taken].Payload? {
      assert p.queued[..p.taken + 1] == p.queued[..p.taken] + [p.queued[p.taken]];
      BeforeCloseSplits(p.queued[..p.taken], [p.queued[p.taken]]);
    }
  }

  lemma NextOrdered(p: Pump, e: Event)
    requires Ordered(p)
    ensures Ordered(Next(p, e))
  {
    hide BeforeClose, NoClose;
    match e
    case Queue(item) => QueueOrdered(p, item);
    case TakeItem => TakeOrdered(p);
    case _ =>
  }

  lemma NextErrors(p: Pump, e: Event)
    requires ErrorsFit(p)
    ensures ErrorsFit(Next(p, e))
  {
    ErrorsGrow(p.results, None);
    if e.HandOver? && e.task < |p.handing| { ErrorsGrow(p.results, Some(p.handing[e.task])); }
    hide Errors;
  }

  lemma NextQueued(p: Pump, e: Event)
    ensures Next(p, e).queued == p.queued + if e.Queue? then [e.item] else []
  {}

  lemma {:induction false} AfterInStep(p: Pump, es: seq<Event>)
    requires Ordered(p) && ErrorsFit(p)
    ensures Ordered(After(p, es)) && ErrorsFit(After(p, es)) && After(p, es).queued == p.queued + QueuedIn(es)
    decreases |es|
  {
    hide Ordered, ErrorsFit, Next;
    if es != [] {
      NextOrdered(p, es[0]);
      NextErrors(p, es[0]);
      NextQueued(p, es[0]);
      AfterInStep(Next(p, es[0]), es[1..]);
    }
  }

  /** For every interleaving: what is written is, in order, the beginning of the data queued before the first
      close, and all of it when the close is what ends the pump. One error is signalled exactly when the
      pump has ended other than by a failing write. */
  lemma WritesInOrder(es: seq<Event>)
    ensures var p := After(NEW_PUMP, es);
            && p.queued == QueuedIn(es) && p.written <= BeforeClose(p.queued)
            && (p.ending == ByClose ==> p.written == BeforeClose(p.queued))
            && (Errors(p.results) == 1 <==> p.ending != Open && p.ending != ByPanic) && Errors(p.results) <= 1
  {
    hide After, QueuedIn;
    AfterInStep(NEW_PUMP, es);
    InStepMeans(After(NEW_PUMP, es));
  }

  lemma InStepMeans(p: Pump)
    requires Ordered(p) && ErrorsFit(p)
    ensures p.written <= BeforeClose(p.queued) && (p.ending == ByClose ==> p.written == BeforeClose(p.queued))
    ensures (Errors(p.results) == 1 <==> p.ending != Open && p.ending != ByPanic) && Errors(p.results) <= 1
  {
    hide Errors;
    var data := if p.ending == ByClose || p.ending == ByPanic then p.taken - 1 else p.taken;
    assert p.queued == p.queued[..data] + p.queued[data..];
    BeforeCloseSplits(p.queued[..data], p.queued[data..]);
  }

  /** Once the pump has ended nothing is written, read or signalled any more, whatever is queued; only
      the messages read before are still handed over, each by its task. */
  lemma {:induction false} EndedStays(p: Pump, es: seq<Event>)
    requires p.ending != Open
    ensures var n := After(p, es);
            && n.written == p.written && n.ending == p.ending && p.results <= n.results
            && |n.results| + |n.handing| == |p.results| + |p.handing|
            && forall i :: |p.results| <= i < |n.results| ==> n.results[i].Some?
    decreases |es|
  {
    if es != [] { EndedStays(Next(p, es[0]), es[1..]); }
  }

  /** A disconnect message queued before the close is on the wire when the close ends the pump. */
  lemma DisconnectGoesFirst(es: seq<Event>, i: nat, j: nat)
    requires var p := After(NEW_PUMP, es);
             i < j < |p.queued| && p.queued[j].Close? && NoClose(p.queued[..j]) && p.ending == ByClose
    ensures var p := After(NEW_PUMP, es); i < |p.written| && p.written[i] == p.queued[i].data
  {
    WritesInOrder(es);
    var p := After(NEW_PUMP, es);
    assert p.queued == p.queued[..j] + p.queued[j..];
    BeforeCloseSplits(p.queued[..j], p.queued[j..]);
    BeforeCloseAt(p.queued[..j], i);
  }

  lemma {:induction false} BeforeCloseAt(q: seq<Item>, i: nat)
    requires NoClose(q) && i < |q|
    ensures i < |BeforeClose(q)| && BeforeClose(q)[i] == q[i].data
  {
    if i > 0 { BeforeCloseAt(q[1..], i - 1); }
  }

  // ---- what is read, in every interleaving -------------------------------------------------------

  /** The messages that the events read, without empty ones, which count as errors. */
  function ReadIn(es: seq<Event>): seq<Packet> {
    if es == [] then [] else (if es[0].ReadMessage? && es[0].data != [] then [es[0].data] else []) + ReadIn(es[1..])
  }

  /** The messages among what the reader's channel was given. */
  function Messages(r: seq<Option<Packet>>): seq<Packet> {
    if r == [] then [] else Messages(r[..|r| - 1]) + (if r[|r| - 1].Some? then [r[|r| - 1].value] else [])
  }

  lemma MessagesGrow(r: seq<Option<Packet>>, x: Option<Packet>)
    ensures Messages(r + [x]) == Messages(r) + if x.Some? then [x.value] else []
  {
    assert (r + [x])[..|r|] == r;
  }

  /** The read that makes the pump end: an error, or an empty message. */
  predicate BadRead(e: Event) { e.ReadFails? || e == ReadMessage([]) }

  /** The event that can end the pump in this way. */
  predicate EndsBy(e: Event, ending: Ending) {
    match ending
    case Open => false
    case ByClose => e.TakeItem?
    case BySenders => e.SendersGone?
    case ByRead => BadRead(e)
    case ByPanic => e.WriteFails?
  }

  /** The tasks that carry messages run in the order in which they were spawned. */
  predicate RunInTurn(es: seq<Event>) { forall i :: 0 <= i < |es| && es[i].HandOver? ==> es[i].task == 0 }

  /** The messages handed over, followed by those on their way. */
  function Conveyed(p: Pump): seq<Packet> { Messages(p.results) + p.handing }

  /** What an event makes an open pump read. */
  function Reads(p: Pump, e: Event): seq<Packet> {
    if p.ending == Open && e.ReadMessage? && e.data != [] then [e.data] else []
  }

  lemma Moved(m: seq<Packet>, h: seq<Packet>, i: nat)
    requires i < |h|
    ensures multiset(m + [h[i]] + (h[..i] + h[i + 1..])) == multiset(m + h)
    ensures i == 0 ==> m + [h[i]] + (h[..i] + h[i + 1..]) == m + h
  {
    assert m + h == m + h[..i] + [h[i]] + h[i + 1..];
  }

  lemma HandOverConveys(p: Pump, task: nat)
    requires task < |p.handing|
    ensures var n := Next(p, HandOver(task));
            && multiset(Conveyed(n)) == multiset(Conveyed(p)) && (task == 0 ==> Conveyed(n) == Conveyed(p))
  {
    hide Messages;
    MessagesGrow(p.results, Some(p.handing[task]));
    Moved(Messages(p.results), p.handing, task);
  }

  lemma OtherConveys(p: Pump, e: Event)
    requires !e.HandOver?
    ensures Conveyed(Next(p, e)) == Conveyed(p) + Reads(p, e)
  {
    hide Messages;
    MessagesGrow(p.results, None);
  }

  /** What one event adds to the messages handed over or on their way. */
  lemma OneRead(p: Pump, e: Event)
    ensures multiset(Conveyed(Next(p, e))) == multiset(Conveyed(p) + Reads(p, e))
    ensures !(e.HandOver? && 0 < e.task < |p.handing|) ==> Conveyed(Next(p, e)) == Conveyed(p) + Reads(p, e)
  {
    hide Conveyed;
    if e.HandOver? {
      assert Conveyed(p) + Reads(p, e) == Conveyed(p);
      if e.task < |p.handing| { HandOverConveys(p, e.task); }
    } else {
      OtherConveys(p, e);
    }
  }

  lemma EndsSo(p: Pump, e: Event)
    requires p.ending == Open
    ensures Next(p, e).ending != Open ==> EndsBy(e, Next(p, e).ending)
    ensures BadRead(e) ==> Next(p, e).ending == ByRead
    ensures Next(p, e).ending == ByRead ==> BadRead(e)
  {}

  /** Up to `k` the pump has been open, and it has ended in this way: with the events, or by the last one
      before `k`. No other read before `k` has gone wrong. */
  predicate UpTo(es: seq<Event>, k: nat, ending: Ending) {
    && k <= |es|
    && (if ending == Open then k == |es| else k > 0 && EndsBy(es[k - 1], ending))
    && forall i :: 0 <= i < k && BadRead(es[i]) ==> i == k - 1 && ending == ByRead
  }

  lemma UpToGrows(p: Pump, es: seq<Event>, rest: nat)
    requires es != [] && p.ending == Open && rest < |es|
    requires var q := Next(p, es[0]);
             if q.ending == Open then UpTo(es[1..], rest, After(q, es[1..]).ending)
             else rest == 0 && After(q, es[1..]).ending == q.ending
    ensures UpTo(es, rest + 1, After(p, es).ending)
  {
    hide Next, EndsBy, BadRead;
    EndsSo(p, es[0]);
    var q := Next(p, es[0]);
    forall i | 0 <= i < rest + 1 && BadRead(es[i]) ensures i == rest && After(p, es).ending == ByRead {
      if i > 0 { assert es[1..][i - 1] == es[i]; }
    }
  }

  lemma UpToNothing()
    ensures UpTo([], 0, Open)
  {}

  lemma Joined(a: seq<Packet>, b: seq<Packet>, c: seq<Packet>, more: seq<Packet>, rest: seq<Packet>)
    requires multiset(b) == multiset(a + more) && multiset(c) == multiset(b + rest)
    ensures multiset(c) == multiset(a + (more + rest))
    ensures b == a + more && c == b + rest ==> c == a + (more + rest)
  {
    assert a + (more + rest) == (a + more) + rest;
  }

  lemma ReadInSplits(p: Pump, es: seq<Event>, k: nat, rest: nat)
    requires es != [] && rest < |es| && k == if p.ending == Open then rest + 1 else 0
    requires Next(p, es[0]).ending != Open ==> rest == 0
    ensures ReadIn(es[..k]) == Reads(p, es[0]) + ReadIn(es[1..][..rest])
  {
    if p.ending == Open { assert es[..k][1..] == es[1..][..rest]; }
  }

  lemma {:induction false} ReadsFrom(p: Pump, es: seq<Event>) returns (k: nat)
    ensures k <= |es| && (p.ending != Open ==> k == 0) && (p.ending == Open ==> UpTo(es, k, After(p, es).ending))
    ensures multiset(Conveyed(After(p, es))) == multiset(Conveyed(p) + ReadIn(es[..k]))
    ensures RunInTurn(es) ==> Conveyed(After(p, es)) == Conveyed(p) + ReadIn(es[..k])
    decreases |es|
  {
    hide Conveyed, Reads, UpTo;
    k := 0;
    if es == [] {
      assert Conveyed(p) + ReadIn(es[..k]) == Conveyed(p);
      UpToNothing();
    } else {
      var q, e := Next(p, es[0]), es[0];
      var rest := ReadsFrom(q, es[1..]);
      if p.ending == Open { k := rest + 1; }
      if q.ending != Open { EndedStays(q, es[1..]); }
      OneRead(p, e);
      ReadInSplits(p, es, k, rest);
      if p.ending == Open { UpToGrows(p, es, rest); }
      Joined(Conveyed(p), Conveyed(q), Conveyed(After(q, es[1..])), Reads(p, e), ReadIn(es[1..][..rest]));
      if RunInTurn(es) { assert RunInTurn(es[1..]) && !(e.HandOver? && e.task > 0); }
    }
  }

  /** For every interleaving there is a moment `k` up to which the pump reads: the end of the events if it
      is open, else just after the event that ended it. What the reader was given, with what is still on
      its way, are the messages read until then, each once, and nothing else; and if the tasks run in turn,
      in the order in which they were read. Up to that moment no other read has gone wrong. */
  lemma ReadsAreDelivered(es: seq<Event>) returns (k: nat)
    ensures var p := After(NEW_PUMP, es);
            && k <= |es| && (p.ending == Open ==> k == |es|)
            && (p.ending != Open ==> k > 0 && EndsBy(es[k - 1], p.ending))
            && (forall i :: 0 <= i < k && BadRead(es[i]) ==> i == k - 1 && p.ending == ByRead)
            && multiset(Messages(p.results) + p.handing) == multiset(ReadIn(es[..k]))
            && (RunInTurn(es) ==> Messages(p.results) + p.handing == ReadIn(es[..k]))
  {
    k := ReadsFrom(NEW_PUMP, es);
    assert Conveyed(NEW_PUMP) + ReadIn(es[..k]) == ReadIn(es[..k]);
  }

  /** A message is handed over by a task that was spawned after the task of one still waiting. */
  ghost predicate Overtakes(p: Pump, es: seq<Event>)
    decreases |es|
  {
    es != [] && ((es[0].HandOver? && 0 < es[0].task < |p.handing|) || Overtakes(Next(p, es[0]), es[1..]))
  }

  predicate NoneTwice(d: seq<Packet>) { forall i, j :: 0 <= i < j < |d| ==> d[i] != d[j] }

  lemma {:induction false} MessagesStay(p: Pump, es: seq<Event>)
    ensures Messages(p.results) <= Messages(After(p, es).results)
    decreases |es|
  {
    if es != [] {
      var e := es[0];
      if e.HandOver? && e.task < |p.handing| {
        MessagesGrow(p.results, Some(p.handing[e.task]));
      } else {
        MessagesGrow(p.results, None);
      }
      MessagesStay(Next(p, e), es[1..]);
    }
  }

  /** A message that overtakes one still waiting stays in its place. */
  lemma OvertakingShows(p: Pump, task: nat, rest: seq<Event>, all: seq<Packet>)
    requires 0 < task < |p.handing| && NoneTwice(all) && Conveyed(p) <= all
    ensures !(Messages(After(Next(p, HandOver(task)), rest).results) <= all)
  {
    var q, m := Next(p, HandOver(task)), |Messages(p.results)|;
    MessagesGrow(p.results, Some(p.handing[task]));
    MessagesStay(q, rest);
    assert Messages(q.results)[m] == p.handing[task];
    assert all[m] == Conveyed(p)[m] == p.handing[0];
    assert all[m + task] == Conveyed(p)[m + task] == p.handing[task];
    hide Messages, Next, Conveyed;
  }

  lemma {:induction false} OrderFrom(p: Pump, es: seq<Event>, all: seq<Packet>)
    requires NoneTwice(all) && Conveyed(p) <= all && (p.ending == Open ==> all == Conveyed(p) + ReadIn(es))
    ensures Messages(After(p, es).results) <= all <==> !Overtakes(p, es)
    decreases |es|
  {
    hide Conveyed, Next, NoneTwice, Messages, Reads, ReadIn;
    if es == [] {
      ConveyedFirst(p);
    } else {
      var e, q := es[0], Next(p, es[0]);
      if e.HandOver? && 0 < e.task < |p.handing| {
        OvertakingShows(p, e.task, es[1..], all);
      } else {
        OneRead(p, e);
        EndingStays(p, es);
        assert Conveyed(p) + (Reads(p, e) + ReadIn(es[1..])) == Conveyed(p) + Reads(p, e) + ReadIn(es[1..]);
        assert p.ending != Open ==> Conveyed(p) + Reads(p, e) == Conveyed(p);
        OrderFrom(q, es[1..], all);
      }
    }
  }

  lemma ConveyedFirst(p: Pump)
    ensures Messages(p.results) <= Conveyed(p)
  {}

  lemma EndingStays(p: Pump, es: seq<Event>)
    requires es != []
    ensures Next(p, es[0]).ending == Open ==> p.ending == Open
    ensures p.ending != Open ==> Reads(p, es[0]) == []
    ensures p.ending == Open ==> ReadIn(es) == Reads(p, es[0]) + ReadIn(es[1..])
  {}

  /** When no two messages are the same, the reader is given a beginning of what is read, in order, if and
      only if no task ever overtakes an earlier one. */
  lemma OrderKeptExactlyIf(es: seq<Event>)
    requires NoneTwice(ReadIn(es))
    ensures Messages(After(NEW_PUMP, es).results) <= ReadIn(es) <==> !Overtakes(NEW_PUMP, es)
  {
    OrderFrom(NEW_PUMP, es, ReadIn(es));
  }

  /** The error that ends the pump is sent directly, so it can overtake a message that was read before. */
  lemma ErrorMayOvertake(data: Packet)
    requires data != []
    ensures After(NEW_PUMP, [ReadMessage(data), ReadFails, HandOver(0)]).results == [None, Some(data)]
  {
    var p := Next(NEW_PUMP, ReadMessage(data));
    AfterThen(NEW_PUMP, [ReadMessage(data)], [ReadFails] + [HandOver(0)]);
    AfterThen(p, [ReadFails], [HandOver(0)]);
    AfterOne(NEW_PUMP, ReadMessage(data));
    AfterOne(p, ReadFails);
    AfterOne(Next(p, ReadFails), HandOver(0));
    assert [ReadMessage(data), ReadFails, HandOver(0)] == [ReadMessage(data)] + ([ReadFails] + [HandOver(0)]);
  }
}
