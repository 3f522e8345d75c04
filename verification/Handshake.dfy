/** The Noise XX handshake over an established circuit of any length, when every reader is handed its
    messages in order. The two Success messages leave the originating node independently, so the
    first handshake message may overtake the answering client's Success. */
module Handshake {
  import opened Wrappers

  /** `Shake(i)` is message i of the XX pattern; `App` is a message of the application. */
  datatype Message = Success | Shake(turn: nat) | App(data: nat)

  /** One direction of the circuit: the queue of each stream, the sender's stream first, and, while the
      originating node has not written its Success in this direction, the stream it will write it to. */
  datatype Pipe = Pipe(queues: seq<seq<Message>>, pending: Option<nat>)

  /** `AwaitsSecond` is the caller, `AwaitsFirst` and `AwaitsThird` the answering client; `Starting` has
      been told to begin. `Open` holds a transport state. `Broken` has read a message out of turn, or
      been told to begin twice; the source panics or starts a second handshake there. */
  datatype Phase = Idle | Starting | AwaitsFirst | AwaitsSecond | AwaitsThird | Open | Broken

  /** A client: what it has written, what lies in its channel, and what its handshake or application has
      read. */
  datatype Side = Side(phase: Phase, sent: seq<Message>, channel: seq<Message>, consumed: seq<Message>)

  datatype State = State(caller: Side, answer: Side, out: Pipe, back: Pipe)

  /** In the steps, `forth` is true for the direction from the caller to the answering client. */
  datatype Step =
    | Emit(forth: bool)
    | Advance(forth: bool, at: nat)
    | Arrive(forth: bool)
    | Begin
    | Read(forth: bool)
    | Send(forth: bool, data: nat)

  // ---- pipes -------------------------------------------------------------------------------------

  function Carried(q: seq<Message>): seq<Message> {
    if q == [] then [] else (if q[0].Success? then [] else [q[0]]) + Carried(q[1..])
  }

  /** Everything in the pipe except successes, in the order in which it will arrive. */
  function Contents(qs: seq<seq<Message>>): seq<Message> {
    if qs == [] then [] else Contents(qs[1..]) + Carried(qs[0])
  }

  function Successes(q: seq<Message>): nat {
    if q == [] then 0 else (if q[0].Success? then 1 else 0) + Successes(q[1..])
  }

  function AllSuccesses(qs: seq<seq<Message>>): nat {
    if qs == [] then 0 else AllSuccesses(qs[1..]) + Successes(qs[0])
  }

  function Enter(p: Pipe, m: Message): Pipe
    requires |p.queues| > 0
  {
    p.(queues := p.queues[0 := p.queues[0] + [m]])
  }

  /** The node after stream `j` passes its first message on. */
  function Moved(p: Pipe, j: nat): Pipe
    requires j + 1 < |p.queues| && p.queues[j] != []
  {
    p.(queues := p.queues[j := p.queues[j][1..]][j + 1 := p.queues[j + 1] + [p.queues[j][0]]])
  }

  function Last(p: Pipe): seq<Message>
    requires |p.queues| > 0
  {
    p.queues[|p.queues| - 1]
  }

  function Left(p: Pipe): Pipe
    requires |p.queues| > 0 && Last(p) != []
  {
    p.(queues := p.queues[|p.queues| - 1 := Last(p)[1..]])
  }

  function Emitted(p: Pipe): Pipe
    requires p.pending.Some? && p.pending.value < |p.queues|
  {
    p.(queues := p.queues[p.pending.value := p.queues[p.pending.value] + [Success]], pending := None)
  }

  // ---- steps -------------------------------------------------------------------------------------

  function PipeOf(s: State, forth: bool): Pipe { if forth then s.out else s.back }

  function WithPipe(s: State, forth: bool, p: Pipe): State { if forth then s.(out := p) else s.(back := p) }

  /** The client that a direction leads to. */
  function Receiver(s: State, forth: bool): Side { if forth then s.answer else s.caller }

  function WithReceiver(s: State, forth: bool, side: Side): State {
    if forth then s.(answer := side) else s.(caller := side)
  }

  /** A client writes a message on its stream. */
  function Written(s: State, forth: bool, m: Message): State
    requires |PipeOf(s, forth).queues| > 0
  {
    var side := Receiver(s, !forth);
    WithPipe(WithReceiver(s, !forth, side.(sent := side.sent + [m])), forth, Enter(PipeOf(s, forth), m))
  }

  predicate Waits(side: Side) {
    side.phase.AwaitsFirst? || side.phase.AwaitsSecond? || side.phase.AwaitsThird? || side.phase.Open?
  }

  predicate Enabled(s: State, st: Step) {
    match st
    case Emit(f) => PipeOf(s, f).pending.Some? && PipeOf(s, f).pending.value < |PipeOf(s, f).queues|
    case Advance(f, j) => j + 1 < |PipeOf(s, f).queues| && PipeOf(s, f).queues[j] != []
    case Arrive(f) => |PipeOf(s, f).queues| > 0 && Last(PipeOf(s, f)) != []
    case Begin => s.caller.phase.Starting? && |s.out.queues| > 0
    case Read(f) => Waits(Receiver(s, f)) && Receiver(s, f).channel != [] && |PipeOf(s, !f).queues| > 0
    case Send(f, _) => Receiver(s, !f).phase.Open? && |PipeOf(s, f).queues| > 0
  }

  /** A message reaches a client: a Success starts the handshake, anything else goes into the channel. */
  function Received(side: Side, m: Message, forth: bool): Side {
    if m.Success? then
      side.(phase := if !side.phase.Idle? then Broken else if forth then AwaitsFirst else Starting)
    else side.(channel := side.channel + [m])
  }

  /** What the reading client does with a message of its channel; the second part is what it writes. */
  function Handled(phase: Phase, m: Message): (Phase, Option<Message>) {
    match phase
    case AwaitsFirst => if m == Shake(1) then (AwaitsThird, Some(Shake(2))) else (Broken, None)
    case AwaitsSecond => if m == Shake(2) then (Open, Some(Shake(3))) else (Broken, None)
    case AwaitsThird => if m == Shake(3) then (Open, None) else (Broken, None)
    case Open => if m.App? then (Open, None) else (Broken, None)
    case _ => (Broken, None)
  }

  function DoRead(s: State, forth: bool): State
    requires Enabled(s, Read(forth))
  {
    var side := Receiver(s, forth);
    var m := side.channel[0];
    var (phase, reply) := Handled(side.phase, m);
    var t := WithReceiver(s, forth,
                             side.(phase := phase, channel := side.channel[1..], consumed := side.consumed + [m]));
    if reply.Some? then Written(t, !forth, reply.value) else t
  }

  function Do(s: State, st: Step): State
    requires Enabled(s, st)
  {
    match st
    case Emit(f) => WithPipe(s, f, Emitted(PipeOf(s, f)))
    case Advance(f, j) => WithPipe(s, f, Moved(PipeOf(s, f), j))
    case Arrive(f) =>
      var m := Last(PipeOf(s, f))[0];
      WithPipe(WithReceiver(s, f, Received(Receiver(s, f), m, f)), f, Left(PipeOf(s, f)))
    case Begin => Written(s.(caller := s.caller.(phase := AwaitsSecond)), true, Shake(1))
    case Read(f) => DoRead(s, f)
    case Send(f, d) => Written(s, f, App(d))
  }

  /** The originating node is the one after stream `at - 1`; nothing is in the circuit yet. */
  predicate Initial(s: State, length: nat, at: nat) {
    && 0 < at < length
    && s.caller == Side(Idle, [], [], []) && s.answer == Side(Idle, [], [], [])
    && s.out == Pipe(seq(length, i => []), Some(at)) && s.back == Pipe(seq(length, i => []), Some(length - at))
  }

  ghost predicate CanRun(s: State, steps: seq<Step>)
    decreases |steps|
  {
    steps == [] || (Enabled(s, steps[0]) && CanRun(Do(s, steps[0]), steps[1..]))
  }

  ghost function Run(s: State, steps: seq<Step>): State
    requires CanRun(s, steps)
    decreases |steps|
  {
    if steps == [] then s else Run(Do(s, steps[0]), steps[1..])
  }

  // ---- what the pipe operations do to the contents -------------------------------------------------

  lemma {:induction false} CarriedAppend(q: seq<Message>, m: Message)
    ensures Carried(q + [m]) == Carried(q) + (if m.Success? then [] else [m])
    ensures Successes(q + [m]) == Successes(q) + (if m.Success? then 1 else 0)
  {
    if q != [] {
      assert (q + [m])[1..] == q[1..] + [m];
      CarriedAppend(q[1..], m);
    }
  }

  /** Appending to one queue inserts after what was in it and before what is behind it. */
  lemma {:induction false} AppendSuccess(qs: seq<seq<Message>>, j: nat)
    requires j < |qs|
    ensures Contents(qs[j := qs[j] + [Success]]) == Contents(qs)
    ensures AllSuccesses(qs[j := qs[j] + [Success]]) == AllSuccesses(qs) + 1
  {
    CarriedAppend(qs[j], Success);
    var rs := qs[j := qs[j] + [Success]];
    if j == 0 {
      assert rs[1..] == qs[1..];
    } else {
      assert rs[1..] == qs[1..][j - 1 := qs[1..][j - 1] + [Success]];
      AppendSuccess(qs[1..], j - 1);
    }
  }

  lemma EnterContents(p: Pipe, m: Message)
    requires |p.queues| > 0
    ensures Contents(Enter(p, m).queues) == Contents(p.queues) + (if m.Success? then [] else [m])
    ensures AllSuccesses(Enter(p, m).queues) == AllSuccesses(p.queues) + (if m.Success? then 1 else 0)
  {
    CarriedAppend(p.queues[0], m);
    assert Enter(p, m).queues[1..] == p.queues[1..];
  }

  lemma {:induction false} MovedContents(qs: seq<seq<Message>>, j: nat)
    requires j + 1 < |qs| && qs[j] != []
    ensures var rs := qs[j := qs[j][1..]][j + 1 := qs[j + 1] + [qs[j][0]]];
            Contents(rs) == Contents(qs) && AllSuccesses(rs) == AllSuccesses(qs)
  {
    var rs := qs[j := qs[j][1..]][j + 1 := qs[j + 1] + [qs[j][0]]];
    if j == 0 {
      CarriedAppend(qs[1], qs[0][0]);
      assert rs[1..][1..] == qs[1..][1..];
      assert rs[1..][0] == qs[1] + [qs[0][0]] && qs[1..][0] == qs[1] && rs[0] == qs[0][1..];
    } else {
      assert rs[1..] == qs[1..][j - 1 := qs[1..][j - 1][1..]][j - 1 + 1 := qs[1..][j - 1 + 1] + [qs[1..][j - 1][0]]];
      MovedContents(qs[1..], j - 1);
    }
  }

  lemma {:induction false} LeftContents(qs: seq<seq<Message>>)
    requires |qs| > 0 && qs[|qs| - 1] != []
    ensures var m := qs[|qs| - 1][0];
            var rs := qs[|qs| - 1 := qs[|qs| - 1][1..]];
            && Contents(qs) == (if m.Success? then [] else [m]) + Contents(rs)
            && AllSuccesses(qs) == AllSuccesses(rs) + (if m.Success? then 1 else 0)
  {
    var rs := qs[|qs| - 1 := qs[|qs| - 1][1..]];
    if |qs| == 1 {
      assert rs[1..] == [] && qs[1..] == [];
    } else {
      var t := qs[1..];
      assert t[|t| - 1] == qs[|qs| - 1];
      assert rs[1..] == t[|t| - 1 := t[|t| - 1][1..]] && rs[0] == qs[0];
      hide Carried, Successes;
      LeftContents(t);
    }
  }

  lemma {:induction false} EmptyContents(qs: seq<seq<Message>>)
    requires forall j :: 0 <= j < |qs| ==> qs[j] == []
    ensures Contents(qs) == [] && AllSuccesses(qs) == 0
  {
    if qs != [] { EmptyContents(qs[1..]); }
  }

  // ---- the invariant -------------------------------------------------------------------------------

  predicate AllApps(s: seq<Message>, from: nat) { forall i :: from <= i < |s| ==> s[i].App? }

  /** What the caller has written and read by the time it is in its phase. */
  predicate CallerForm(c: Side) {
    match c.phase
    case Idle => c.sent == [] && c.consumed == []
    case Starting => c.sent == [] && c.consumed == []
    case AwaitsSecond => c.sent == [Shake(1)] && c.consumed == []
    case Open =>
      && |c.sent| >= 2 && c.sent[0] == Shake(1) && c.sent[1] == Shake(3) && AllApps(c.sent, 2)
      && |c.consumed| >= 1 && c.consumed[0] == Shake(2) && AllApps(c.consumed, 1)
    case _ => false
  }

  predicate AnswerForm(a: Side) {
    match a.phase
    case Idle => a.sent == [] && a.consumed == []
    case AwaitsFirst => a.sent == [] && a.consumed == []
    case AwaitsThird => a.sent == [Shake(2)] && a.consumed == [Shake(1)]
    case Open =>
      && |a.sent| >= 1 && a.sent[0] == Shake(2) && AllApps(a.sent, 1)
      && |a.consumed| >= 2 && a.consumed[0] == Shake(1) && a.consumed[1] == Shake(3) && AllApps(a.consumed, 2)
    case _ => false
  }

  /** In one direction nothing is lost, duplicated or reordered, and one Success is due, in flight, or has
      arrived. */
  predicate InSequence(from: Side, to: Side, p: Pipe) {
    && |p.queues| > 0
    && (p.pending.Some? ==> p.pending.value < |p.queues|)
    && from.sent == to.consumed + to.channel + Contents(p.queues)
    && One(p.pending.Some?) + AllSuccesses(p.queues) + One(!to.phase.Idle?) == 1
  }

  predicate Orderly(s: State) {
    && |s.out.queues| == |s.back.queues|
    && InSequence(s.caller, s.answer, s.out) && InSequence(s.answer, s.caller, s.back)
    && CallerForm(s.caller) && AnswerForm(s.answer)
  }

  lemma InitialOrderly(s: State, length: nat, at: nat)
    requires Initial(s, length, at)
    ensures Orderly(s)
  {
    EmptyContents(s.out.queues);
    EmptyContents(s.back.queues);
  }

  /** A message that a client is about to read is the one its phase waits for. */
  lemma ReadsInTurn(s: State, forth: bool)
    requires Orderly(s) && Enabled(s, Read(forth))
    ensures !Handled(Receiver(s, forth).phase, Receiver(s, forth).channel[0]).0.Broken?
  {
    var from, to := Receiver(s, !forth), Receiver(s, forth);
    assert from.sent[|to.consumed|] == to.channel[0];
  }

  lemma EnteredInSequence(from: Side, to: Side, p: Pipe, m: Message)
    requires InSequence(from, to, p) && !m.Success?
    ensures InSequence(from.(sent := from.sent + [m]), to, Enter(p, m))
  {
    EnterContents(p, m);
  }

  lemma MovedInSequence(from: Side, to: Side, p: Pipe, j: nat)
    requires InSequence(from, to, p) && j + 1 < |p.queues| && p.queues[j] != []
    ensures InSequence(from, to, Moved(p, j))
  {
    MovedContents(p.queues, j);
  }

  lemma EmittedInSequence(from: Side, to: Side, p: Pipe)
    requires InSequence(from, to, p) && p.pending.Some?
    ensures InSequence(from, to, Emitted(p))
  {
    AppendSuccess(p.queues, p.pending.value);
  }

  lemma ArrivedInSequence(from: Side, to: Side, p: Pipe, forth: bool)
    requires InSequence(from, to, p) && Last(p) != []
    ensures InSequence(from, Received(to, Last(p)[0], forth), Left(p))
    ensures Last(p)[0].Success? ==> to.phase.Idle?
  {
    LeftContents(p.queues);
  }

  lemma ReadInSequence(from: Side, to: Side, p: Pipe, phase: Phase)
    requires InSequence(from, to, p) && to.channel != [] && !to.phase.Idle? && !phase.Idle?
    ensures InSequence(from, to.(phase := phase, channel := to.channel[1..], consumed := to.consumed + [to.channel[0]]),
                          p)
  {
    assert to.consumed + to.channel == to.consumed + [to.channel[0]] + to.channel[1..];
  }

  /** Reading the expected message keeps both clients in form. */
  lemma ReadKeepsForm(to: Side, forth: bool)
    requires to.channel != [] && Waits(to) && (if forth then AnswerForm(to) else CallerForm(to))
    requires !Handled(to.phase, to.channel[0]).0.Broken?
    ensures var (phase, reply) := Handled(to.phase, to.channel[0]);
            var read := to.(phase := phase, channel := to.channel[1..], consumed := to.consumed + [to.channel[0]]);
            var t := if reply.Some? then read.(sent := read.sent + [reply.value]) else read;
            && !phase.Idle? && (reply.Some? ==> !reply.value.Success?)
            && (if forth then AnswerForm(t) else CallerForm(t))
  {}

  lemma ReadOrderly(s: State, f: bool)
    requires Orderly(s) && Enabled(s, Read(f))
    ensures Orderly(Do(s, Read(f)))
  {
    ReadsInTurn(s, f);
    var from, to := Receiver(s, !f), Receiver(s, f);
    var (phase, reply) := Handled(to.phase, to.channel[0]);
    ReadKeepsForm(to, f);
    var read := to.(phase := phase, channel := to.channel[1..], consumed := to.consumed + [to.channel[0]]);
    ReadInSequence(from, to, PipeOf(s, f), phase);
    SentInSequence(to, read, from, PipeOf(s, !f));
    hide InSequence, CallerForm, AnswerForm, Handled;
    if reply.Some? { EnteredInSequence(read, from, PipeOf(s, !f), reply.value); }
    if reply.Some? { ReceiverSends(from, read, PipeOf(s, f), reply.value); }
    if reply.Some? { EnterLength(PipeOf(s, !f), reply.value); }
    hide Enter;
  }

  lemma EnterLength(p: Pipe, m: Message)
    requires |p.queues| > 0
    ensures |Enter(p, m).queues| == |p.queues|
  {}

  /** Only what the sender has written matters of the sender. */
  lemma SentInSequence(from: Side, other: Side, to: Side, p: Pipe)
    requires InSequence(from, to, p) && other.sent == from.sent
    ensures InSequence(other, to, p)
  {}

  /** What the receiver itself writes does not matter. */
  lemma ReceiverSends(from: Side, to: Side, p: Pipe, m: Message)
    requires InSequence(from, to, p)
    ensures InSequence(from, to.(sent := to.sent + [m]), p)
  {}

  lemma SendKeepsForm(from: Side, f: bool, d: nat)
    requires from.phase.Open? && (if f then CallerForm(from) else AnswerForm(from))
    ensures var t := from.(sent := from.sent + [App(d)]); if f then CallerForm(t) else AnswerForm(t)
  {}

  lemma SendOrderly(s: State, f: bool, d: nat)
    requires Orderly(s) && Enabled(s, Send(f, d))
    ensures Orderly(Do(s, Send(f, d)))
  {
    var from, to := Receiver(s, !f), Receiver(s, f);
    SendKeepsForm(from, f, d);
    hide InSequence, CallerForm, AnswerForm;
    EnteredInSequence(from, to, PipeOf(s, f), App(d));
    ReceiverSends(to, from, PipeOf(s, !f), App(d));
    EnterLength(PipeOf(s, f), App(d));
    hide Enter;
  }

  lemma ArriveOrderly(s: State, f: bool)
    requires Orderly(s) && Enabled(s, Arrive(f))
    ensures Orderly(Do(s, Arrive(f)))
  {
    var from, to := Receiver(s, !f), Receiver(s, f);
    var m := Last(PipeOf(s, f))[0];
    ArrivedInSequence(from, to, PipeOf(s, f), f);
    SentInSequence(to, Received(to, m, f), from, PipeOf(s, !f));
    assert |Left(PipeOf(s, f)).queues| == |PipeOf(s, f).queues|;
    hide InSequence, Left, Last;
  }

  lemma BeginOrderly(s: State)
    requires Orderly(s) && Enabled(s, Begin)
    ensures Orderly(Do(s, Begin))
  {
    var c := s.caller.(phase := AwaitsSecond);
    SentInSequence(s.caller, c, s.answer, s.out);
    assert InSequence(s.answer, c, s.back);
    hide InSequence;
    EnteredInSequence(c, s.answer, s.out, Shake(1));
    ReceiverSends(s.answer, c, s.back, Shake(1));
    EnterLength(s.out, Shake(1));
    hide Enter;
  }

  /** Every step, in whatever order, keeps the order of messages and of the handshake. */
  lemma StepOrderly(s: State, st: Step)
    requires Orderly(s) && Enabled(s, st)
    ensures Orderly(Do(s, st))
  {
    match st
    case Emit(f) =>
      hide Contents, AllSuccesses;
      EmittedInSequence(Receiver(s, !f), Receiver(s, f), PipeOf(s, f));
    case Advance(f, j) =>
      hide Contents, AllSuccesses;
      MovedInSequence(Receiver(s, !f), Receiver(s, f), PipeOf(s, f), j);
    case Arrive(f) =>
      hide *;
      ArriveOrderly(s, f);
    case Begin =>
      hide *;
      BeginOrderly(s);
    case Read(f) =>
      hide *;
      ReadOrderly(s, f);
    case Send(f, d) =>
      hide *;
      SendOrderly(s, f, d);
  }

  lemma {:induction false} RunOrderly(s: State, steps: seq<Step>)
    requires Orderly(s) && CanRun(s, steps)
    ensures Orderly(Run(s, steps))
    decreases |steps|
  {
    hide Orderly;
    if steps != [] {
      StepOrderly(s, steps[0]);
      RunOrderly(Do(s, steps[0]), steps[1..]);
    }
  }

  /** Whatever the length of the circuit, the originating node, and the interleaving: no client reads a
      message out of turn or is told to begin twice, and each has read what the other wrote, in order. */
  lemma HandshakeSafe(s: State, steps: seq<Step>, length: nat, at: nat)
    requires Initial(s, length, at) && CanRun(s, steps)
    ensures var t := Run(s, steps);
            && !t.caller.phase.Broken? && !t.answer.phase.Broken?
            && t.answer.consumed <= t.caller.sent && t.caller.consumed <= t.answer.sent
  {
    InitialOrderly(s, length, at);
    RunOrderly(s, steps);
  }

  // ---- progress ------------------------------------------------------------------------------------

  predicate Finished(s: State) { s.caller.phase.Open? && s.answer.phase.Open? }

  lemma Movable(s: State, forth: bool, j: nat) returns (st: Step)
    requires j < |PipeOf(s, forth).queues| && PipeOf(s, forth).queues[j] != []
    ensures Enabled(s, st) && !st.Send?
  {
    st := if j + 1 < |PipeOf(s, forth).queues| then Advance(forth, j) else Arrive(forth);
  }

  lemma EmptyPipesMove(s: State) returns (st: Step)
    requires Orderly(s) && !Finished(s) && s.out.pending.None? && s.back.pending.None?
    requires forall j :: 0 <= j < |s.out.queues| ==> s.out.queues[j] == []
    requires forall j :: 0 <= j < |s.back.queues| ==> s.back.queues[j] == []
    ensures Enabled(s, st) && !st.Send?
  {
    EmptyContents(s.out.queues);
    EmptyContents(s.back.queues);
    hide Contents, AllSuccesses;
    assert s.caller.sent == s.answer.consumed + s.answer.channel;
    assert s.answer.sent == s.caller.consumed + s.caller.channel;
    st := if s.caller.phase.Starting? then Begin else if s.answer.channel != [] then Read(true) else Read(false);
  }

  /** The run cannot block: until both clients hold a transport state, something other than an application
      message can happen. */
  lemma CannotBlock(s: State) returns (st: Step)
    requires Orderly(s) && !Finished(s)
    ensures Enabled(s, st) && !st.Send?
  {
    assert s.out.pending.Some? ==> s.out.pending.value < |s.out.queues|;
    assert s.back.pending.Some? ==> s.back.pending.value < |s.back.queues|;
    hide Orderly, Finished;
    if s.out.pending.Some? {
      st := Emit(true);
    } else if s.back.pending.Some? {
      st := Emit(false);
    } else if j: nat :| j < |s.out.queues| && s.out.queues[j] != [] {
      st := Movable(s, true, j);
    } else if j: nat :| j < |s.back.queues| && s.back.queues[j] != [] {
      st := Movable(s, false, j);
    } else {
      st := EmptyPipesMove(s);
    }
  }

  /** What one message in queue `j` of a pipe of `n` streams still has to go through. */
  function QueueLoad(qs: seq<seq<Message>>): nat {
    if qs == [] then 0 else |qs[0]| * (|qs| + 1) + QueueLoad(qs[1..])
  }

  function PipeLoad(p: Pipe): nat {
    QueueLoad(p.queues) + match p.pending case None => 0 case Some(k) => if k < |p.queues| then |p.queues| - k + 2
        else 0
  }

  function PhaseLoad(phase: Phase, n: nat): nat {
    match phase
    case Starting => 2 * n + 4
    case AwaitsSecond => n + 2
    case AwaitsFirst => n + 1
    case _ => 0
  }

  /** A bound on the steps left, application messages aside. */
  function Load(s: State): nat {
    var n := |s.out.queues|;
    PipeLoad(s.out) + PipeLoad(s.back) + |s.caller.channel| + |s.answer.channel|
    + (if s.caller.phase.Idle? then 2 * n + 4 else PhaseLoad(s.caller.phase, n))
    + (if s.answer.phase.Idle? then n + 1 else PhaseLoad(s.answer.phase, n))
  }

  lemma {:induction false} LoadAt(qs: seq<seq<Message>>, j: nat, q: seq<Message>)
    requires j < |qs|
    ensures QueueLoad(qs[j := q]) + |qs[j]| * (|qs| - j + 1) == QueueLoad(qs) + |q| * (|qs| - j + 1)
  {
    var rs := qs[j := q];
    if j == 0 {
      assert rs[1..] == qs[1..];
    } else {
      assert rs[1..] == qs[1..][j - 1 := q];
      LoadAt(qs[1..], j - 1, q);
    }
  }

  lemma OneMore(n: nat, w: int)
    ensures (n + 1) * w == n * w + w
  {}

  lemma MovedLoad(p: Pipe, j: nat)
    requires j + 1 < |p.queues| && p.queues[j] != []
    ensures PipeLoad(Moved(p, j)) + 1 == PipeLoad(p)
  {
    var rs := p.queues[j := p.queues[j][1..]];
    LoadAt(p.queues, j, p.queues[j][1..]);
    LoadAt(rs, j + 1, p.queues[j + 1] + [p.queues[j][0]]);
    hide QueueLoad;
    OneMore(|p.queues[j][1..]|, |p.queues| - j + 1);
    OneMore(|p.queues[j + 1]|, |p.queues| - j);
  }

  lemma LeftLoad(p: Pipe)
    requires |p.queues| > 0 && Last(p) != []
    ensures PipeLoad(Left(p)) + 2 == PipeLoad(p)
  {
    hide QueueLoad;
    var n := |p.queues|;
    LoadAt(p.queues, n - 1, Last(p)[1..]);
    OneMore(|Last(p)[1..]|, n - (n - 1) + 1);
  }

  lemma EnterLoad(p: Pipe, m: Message)
    requires |p.queues| > 0
    ensures PipeLoad(Enter(p, m)) == PipeLoad(p) + |p.queues| + 1
  {
    LoadAt(p.queues, 0, p.queues[0] + [m]);
    hide QueueLoad;
    OneMore(|p.queues[0]|, |p.queues| + 1);
  }

  lemma EmittedLoad(p: Pipe)
    requires p.pending.Some? && p.pending.value < |p.queues|
    ensures PipeLoad(Emitted(p)) + 1 == PipeLoad(p)
  {
    var k := p.pending.value;
    LoadAt(p.queues, k, p.queues[k] + [Success]);
    hide QueueLoad;
    OneMore(|p.queues[k]|, |p.queues| - k + 1);
  }

  lemma MoveProgresses(s: State, f: bool, j: nat)
    requires Enabled(s, Advance(f, j))
    ensures Load(Do(s, Advance(f, j))) < Load(s)
  {
    MovedLoad(PipeOf(s, f), j);
    assert |Moved(PipeOf(s, f), j).queues| == |PipeOf(s, f).queues|;
    hide PipeLoad, Moved;
  }

  lemma EmitProgresses(s: State, f: bool)
    requires Enabled(s, Emit(f))
    ensures Load(Do(s, Emit(f))) < Load(s)
  {
    EmittedLoad(PipeOf(s, f));
    assert |Emitted(PipeOf(s, f)).queues| == |PipeOf(s, f).queues|;
    hide PipeLoad, Emitted;
  }

  lemma ArriveProgresses(s: State, f: bool)
    requires Orderly(s) && Enabled(s, Arrive(f))
    ensures Load(Do(s, Arrive(f))) < Load(s)
  {
    LeftLoad(PipeOf(s, f));
    ArrivedInSequence(Receiver(s, !f), Receiver(s, f), PipeOf(s, f), f);
    assert |Left(PipeOf(s, f)).queues| == |PipeOf(s, f).queues|;
    hide PipeLoad, Left, Last, InSequence, CallerForm, AnswerForm;
  }

  lemma ReadProgresses(s: State, f: bool)
    requires Orderly(s) && Enabled(s, Read(f))
    ensures Load(Do(s, Read(f))) < Load(s)
  {
    ReadsInTurn(s, f);
    assert if f then AnswerForm(s.answer) else CallerForm(s.caller);
    var reply := Handled(Receiver(s, f).phase, Receiver(s, f).channel[0]).1;
    hide PipeLoad, InSequence;
    if reply.Some? {
      EnterLoad(PipeOf(s, !f), reply.value);
      EnterLength(PipeOf(s, !f), reply.value);
    }
    hide Enter;
  }

  lemma BeginProgresses(s: State)
    requires Enabled(s, Begin)
    ensures Load(Do(s, Begin)) < Load(s)
  {
    EnterLoad(s.out, Shake(1));
    EnterLength(s.out, Shake(1));
    hide PipeLoad, Enter;
  }

  /** Every step except an application's own sending brings the end nearer. */
  lemma StepProgresses(s: State, st: Step)
    requires Orderly(s) && Enabled(s, st) && !st.Send?
    ensures Load(Do(s, st)) < Load(s)
  {
    hide *;
    match st
    case Emit(f) => EmitProgresses(s, f);
    case Advance(f, j) => MoveProgresses(s, f, j);
    case Arrive(f) => ArriveProgresses(s, f);
    case Begin => BeginProgresses(s);
    case Read(f) => ReadProgresses(s, f);
    case _ =>
  }

  lemma {:induction false} RunProgresses(s: State, steps: seq<Step>)
    requires Orderly(s) && CanRun(s, steps) && forall i :: 0 <= i < |steps| ==> !steps[i].Send?
    ensures |steps| + Load(Run(s, steps)) <= Load(s)
    decreases |steps|
  {
    hide Orderly, Load;
    if steps != [] {
      StepOrderly(s, steps[0]);
      StepProgresses(s, steps[0]);
      RunProgresses(Do(s, steps[0]), steps[1..]);
    }
  }

  /** From any state of any run both clients can reach a transport state without the applications. */
  lemma {:induction false} CanComplete(s: State) returns (steps: seq<Step>)
    requires Orderly(s)
    ensures CanRun(s, steps) && Finished(Run(s, steps)) && |steps| <= Load(s)
    ensures forall i :: 0 <= i < |steps| ==> !steps[i].Send?
    decreases Load(s)
  {
    hide Orderly, Load;
    steps := [];
    if !Finished(s) {
      var st := CannotBlock(s);
      StepOrderly(s, st);
      StepProgresses(s, st);
      var rest := CanComplete(Do(s, st));
      steps := [st] + rest;
      assert steps[1..] == rest;
    }
  }

  /** From any state of any run, application messages under way or not, every continuation in which the
      applications pause is bounded, and where it can go no further both clients hold a transport
      state. */
  lemma HandshakeCompletes(s: State, steps: seq<Step>, more: seq<Step>, length: nat, at: nat)
    requires Initial(s, length, at) && CanRun(s, steps) && CanRun(Run(s, steps), more)
    requires forall i :: 0 <= i < |more| ==> !more[i].Send?
    ensures |more| <= Load(Run(s, steps))
    ensures (forall st :: Enabled(Run(Run(s, steps), more), st) ==> st.Send?) ==> Finished(Run(Run(s, steps), more))
  {
    InitialOrderly(s, length, at);
    RunOrderly(s, steps);
    RunProgresses(Run(s, steps), more);
    RunOrderly(Run(s, steps), more);
    var t := Run(Run(s, steps), more);
    if !Finished(t) { var st := CannotBlock(t); }
  }

  /** The first handshake message can indeed overtake the answering client's Success: then it waits in
      the channel until the handshake starts. */
  lemma FirstMessageMayOvertake(s: State) returns (steps: seq<Step>)
    requires Initial(s, 2, 1)
    ensures CanRun(s, steps) && Run(s, steps).answer.phase.Idle? && Run(s, steps).answer.channel == [Shake(1)]
    ensures Run(s, steps).out.pending.Some?
  {
    steps := [Emit(false), Arrive(false), Begin, Advance(true, 0), Arrive(true)];
    var s1 := Do(s, Emit(false));
    var s2 := Do(s1, Arrive(false));
    var s3 := Do(s2, Begin);
    var s4 := Do(s3, Advance(true, 0));
    var s5 := Do(s4, Arrive(true));
    assert steps[1..][1..] == [Begin, Advance(true, 0), Arrive(true)];
    assert steps[1..][1..][1..][1..] == [Arrive(true)] && steps[1..][1..][1..] == [Advance(true, 0), Arrive(true)];
    assert Run(s5, []) == s5;
    assert CanRun(s4, [Arrive(true)]) && Run(s4, [Arrive(true)]) == s5 by { assert [Arrive(true)][1..] == []; }
  }
}
