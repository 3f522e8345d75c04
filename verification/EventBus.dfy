/** Requests and their acknowledgements: a waiter registers a key on the event bus, and the
    acknowledgement that carries the key wakes it. */
module EventBus {
  type Key = nat
  type Waiter = nat
  datatype Ack = Ack(commandId: Key, result: bool)

  /** `bus` maps the key of each request that is waited for to the waiter's one-shot sender. `key` has
      every request made so far, `sent` those already written out, `got` what each waiter received. */
  datatype State = State(bus: map<Key, Waiter>, key: map<Waiter, Key>, sent: set<Waiter>, got: map<Waiter, Ack>)

  const NO_REQUESTS := State(map[], map[], {}, map[])

  datatype Step = Register(waiter: Waiter, reqKey: Key) | Send(sender: Waiter, sentKey: Key) | Arrive(ack: Ack)

  /** An acknowledgement takes the sender off the bus and wakes its waiter; without one it is dropped. */
  function Dispatch(s: State, ack: Ack): State {
    if ack.commandId in s.bus then
      s.(bus := s.bus - {ack.commandId}, got := s.got[s.bus[ack.commandId] := ack])
    else s
  }

  function Do(s: State, st: Step): State {
    match st
    case Register(w, k) => s.(bus := s.bus[k := w], key := s.key[w := k])
    case Send(w, _) => s.(sent := s.sent + {w})
    case Arrive(ack) => Dispatch(s, ack)
  }

  /** The bus as it is shared by all tasks of a node. */
  class Bus {
    var senders: map<Key, Waiter>
    var got: map<Waiter, Ack>

    constructor ()
      ensures senders == map[] && got == map[]
    {
      senders, got := map[], map[];
    }

    method Insert(k: Key, w: Waiter)
      modifies this`senders
      ensures senders == old(senders)[k := w]
    {
      senders := senders[k := w];
    }

    method InjectAck(ack: Ack)
      modifies this
      ensures ack.commandId !in senders
      ensures ack.commandId in old(senders) ==>
                && senders == old(senders) - {ack.commandId}
                && got == old(got)[old(senders)[ack.commandId] := ack]
      ensures ack.commandId !in old(senders) ==> senders == old(senders) && got == old(got)
      ensures forall key, sent ::
                State(senders, key, sent, got) == Dispatch(State(old(senders), key, sent, old(got)), ack)
    {
      if ack.commandId in senders {
        var w := senders[ack.commandId];
        senders := senders - {ack.commandId};
        got := got[w := ack];
      }
    }
  }

  // ---- registering before sending ------------------------------------------------------------------

  /** external_send_node_request_and_wait: each waiter makes one request, registers it first, and the keys
      of requests waited for are different. Acknowledgements may arrive at any time, late or more than
      once, and from anyone. */
  predicate RegistersFirst(s: State, st: Step) {
    match st
    case Register(w, k) => w !in s.key && k !in s.bus
    case Send(w, k) => w in s.key && s.key[w] == k && w !in s.sent
    case Arrive(_) => true
  }

  ghost predicate CanRun(s: State, steps: seq<Step>)
    decreases |steps|
  {
    steps != [] ==> RegistersFirst(s, steps[0]) && CanRun(Do(s, steps[0]), steps[1..])
  }

  function Run(s: State, steps: seq<Step>): State
    decreases |steps|
  {
    if steps == [] then s else Run(Do(s, steps[0]), steps[1..])
  }

  /** A waiter is on the bus under its key exactly as long as it has not been answered; its answer carries
      its key. */
  ghost predicate Matched(s: State) {
    && (forall k :: k in s.bus ==> s.bus[k] in s.key && s.key[s.bus[k]] == k && s.bus[k] !in s.got)
    && (forall w :: w in s.key && w !in s.got ==> s.key[w] in s.bus && s.bus[s.key[w]] == w)
    && (forall w :: w in s.got ==> w in s.key && s.got[w].commandId == s.key[w])
    && (forall w :: w in s.sent ==> w in s.key)
  }

  lemma {:induction false} RunMatched(s: State, steps: seq<Step>)
    requires Matched(s) && CanRun(s, steps)
    ensures Matched(Run(s, steps))
    decreases |steps|
  {
    if steps != [] { RunMatched(Do(s, steps[0]), steps[1..]); }
  }

  /** Once received, an acknowledgement is never replaced. */
  lemma {:induction false} AnswersLast(s: State, steps: seq<Step>, w: Waiter)
    requires Matched(s) && CanRun(s, steps) && w in s.got
    ensures w in Run(s, steps).got && Run(s, steps).got[w] == s.got[w]
    decreases |steps|
  {
    if steps != [] { AnswersLast(Do(s, steps[0]), steps[1..], w); }
  }

  /** No acknowledgement of an outstanding request is dropped, whoever else is waiting, and an
      acknowledgement that nobody waits for changes nothing. */
  lemma NoAckIsLost(steps: seq<Step>, ack: Ack, w: Waiter)
    requires CanRun(NO_REQUESTS, steps)
    requires var s := Run(NO_REQUESTS, steps); w in s.sent && w in s.key && s.key[w] == ack.commandId && w !in s.got
    ensures var s := Run(NO_REQUESTS, steps);
            && Do(s, Arrive(ack)).got == s.got[w := ack]
            && forall other: Ack :: other.commandId !in s.bus ==> Do(s, Arrive(other)) == s
  {
    RunMatched(NO_REQUESTS, steps);
  }

  /** Each waiter receives at most one acknowledgement, for its own key. */
  lemma OneAckEach(steps: seq<Step>, more: seq<Step>, w: Waiter)
    requires CanRun(NO_REQUESTS, steps) && CanRun(Run(NO_REQUESTS, steps), more)
    ensures var s := Run(NO_REQUESTS, steps);
            w in s.got ==> w in s.key && s.got[w].commandId == s.key[w]
                           && w in Run(s, more).got && Run(s, more).got[w] == s.got[w]
  {
    RunMatched(NO_REQUESTS, steps);
    if w in Run(NO_REQUESTS, steps).got { AnswersLast(Run(NO_REQUESTS, steps), more, w); }
  }

  // ---- sending before registering ------------------------------------------------------------------

  /** Some acknowledgement of the key arrives in these steps. */
  predicate Acknowledged(steps: seq<Step>, k: Key) {
    exists i :: 0 <= i < |steps| && steps[i].Arrive? && steps[i].ack.commandId == k
  }

  /** Only other waiters register, and under other keys. Anybody may send, and acknowledgements of any key
      may arrive any number of times. */
  predicate OthersRegister(steps: seq<Step>, w: Waiter, k: Key) {
    forall i :: 0 <= i < |steps| && steps[i].Register? ==> steps[i].waiter != w && steps[i].reqKey != k
  }

  /** The waiter has not been answered, and is on the bus under this key or not at all. */
  ghost predicate Pending(s: State, w: Waiter, k: Key, waiting: bool) {
    && w !in s.got
    && (if waiting then k in s.bus && s.bus[k] == w else k !in s.bus)
    && forall j :: j in s.bus && s.bus[j] == w ==> j == k
  }

  /** Before it registers a waiter is not answered, whatever arrives. */
  lemma {:induction false} NotYetAnswered(s: State, steps: seq<Step>, w: Waiter, k: Key)
    requires Pending(s, w, k, false) && OthersRegister(steps, w, k)
    ensures Pending(Run(s, steps), w, k, false)
    decreases |steps|
  {
    if steps != [] { NotYetAnswered(Do(s, steps[0]), steps[1..], w, k); }
  }

  /** An answer is final as long as the waiter makes no other request. */
  lemma {:induction false} AnsweredForGood(s: State, steps: seq<Step>, w: Waiter, k: Key)
    requires w in s.got && (forall j :: j in s.bus ==> s.bus[j] != w) && OthersRegister(steps, w, k)
    ensures w in Run(s, steps).got && Run(s, steps).got[w] == s.got[w]
    decreases |steps|
  {
    if steps != [] { AnsweredForGood(Do(s, steps[0]), steps[1..], w, k); }
  }

  /** Once it has registered, the first acknowledgement of its key answers it. */
  lemma {:induction false} FirstAckAnswers(s: State, steps: seq<Step>, w: Waiter, k: Key)
    requires Pending(s, w, k, true) && OthersRegister(steps, w, k)
    ensures var t := Run(s, steps);
            && (w in t.got <==> Acknowledged(steps, k))
            && (w in t.got ==> t.got[w].commandId == k)
            && (!Acknowledged(steps, k) ==> Pending(t, w, k, true))
    decreases |steps|
  {
    if steps != [] {
      var rest, t := steps[1..], Do(s, steps[0]);
      assert Acknowledged(rest, k) ==> Acknowledged(steps, k) by {
        if i :| 0 <= i < |rest| && rest[i].Arrive? && rest[i].ack.commandId == k { assert steps[i + 1] == rest[i]; }
      }
      if steps[0].Arrive? && steps[0].ack.commandId == k {
        AnsweredForGood(t, rest, w, k);
      } else {
        FirstAckAnswers(t, rest, w, k);
        if i :| 0 <= i < |steps| && steps[i].Arrive? && steps[i].ack.commandId == k { assert rest[i - 1] == steps[i]; }
      }
    }
  }

  lemma {:induction false} RunThen(s: State, a: seq<Step>, b: seq<Step>)
    ensures Run(s, a + b) == Run(Run(s, a), b)
    decreases |a|
  {
    if a == [] {
      assert a + b == b;
    } else {
      assert (a + b)[1..] == a[1..] + b;
      RunThen(Do(s, a[0]), a[1..], b);
    }
  }

  /** new_session_to_peer writes its request before it registers, so that acknowledgements may arrive
      before the registration too. For every run, whatever arrives when and however often: the waiter is
      answered if and only if an acknowledgement of its key arrives after it has registered. Otherwise it
      stays on the bus. */
  lemma SendingFirstMayLoseAck(s: State, before: seq<Step>, after: seq<Step>, w: Waiter, k: Key)
    requires Pending(s, w, k, false) && OthersRegister(before, w, k) && OthersRegister(after, w, k)
    ensures var t := Run(s, [Send(w, k)] + before + [Register(w, k)] + after);
            && (w in t.got <==> Acknowledged(after, k))
            && (w in t.got ==> t.got[w].commandId == k)
            && (!Acknowledged(after, k) ==> k in t.bus && t.bus[k] == w)
  {
    var s0 := Do(s, Send(w, k));
    NotYetAnswered(s0, before, w, k);
    FirstAckAnswers(Do(Run(s0, before), Register(w, k)), after, w, k);
    RunThen(s, [Send(w, k)] + before + [Register(w, k)], after);
    RunThen(s, [Send(w, k)] + before, [Register(w, k)]);
    RunThen(s, [Send(w, k)], before);
    OneStep(s, Send(w, k));
    OneStep(Run(s0, before), Register(w, k));
  }

  lemma OneStep(s: State, st: Step)
    ensures Run(s, [st]) == Do(s, st)
  {
    assert [st][1..] == [];
  }
}
