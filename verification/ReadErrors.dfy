/** How far read errors spread, for any set of sessions of a session id: a circuit that stands, one that is
    still being built, or what is left of one. Exactly the nodes fall that are connected, through streams
    that sessions hold, to a reader with an error before it; every other session stays as it is. */
module ReadErrors {
  import opened Wrappers
  import opened Protocol
  import opened RelayLogic
  import opened Network
  import opened Isolation

  predicate HoldsEnd(net: Net, n: NodeId, sid: Sid, e: End) {
    var s := SlotOf(net, n, sid).session;
    s.Some? && s.value.Holds(e)
  }

  /** The session of `n` holds its end `e` of a stream, and the reader of the end is running. */
  predicate Listens(net: Net, n: NodeId, sid: Sid, e: End) {
    && HoldsEnd(net, n, sid, e) && Known(net, e) && OwnerOf(net, e) == n
    && StateOf(net, e).handler == Running(Some(sid))
  }

  /** A read error is pending that makes `n` close its session. */
  ghost predicate Struck(net: Net, sid: Sid, n: NodeId) {
    exists e :: Listens(net, n, sid, e) && StateOf(net, e).eof
  }

  /** When `n` closes its session, a reader that belongs to the session of `m` meets an error. */
  ghost predicate Passes(net: Net, sid: Sid, n: NodeId, m: NodeId) {
    exists e :: HoldsEnd(net, n, sid, e) && Listens(net, m, sid, Peer(e))
  }

  /** A path along which an error spreads from a node with a pending error, or from the node `from`. */
  ghost predicate Spreads(net: Net, sid: Sid, from: Option<NodeId>, path: seq<NodeId>) {
    && path != []
    && (Struck(net, sid, path[0]) || from == Some(path[0]))
    && forall i :: 0 <= i < |path| - 1 ==> Passes(net, sid, path[i], path[i + 1])
  }

  /** An error spreads to `n`. */
  ghost predicate Falls(net: Net, sid: Sid, from: Option<NodeId>, n: NodeId) {
    exists path :: Spreads(net, sid, from, path) && path[|path| - 1] == n
  }

  lemma FallsAt(net: Net, sid: Sid, from: Option<NodeId>, n: NodeId)
    requires Struck(net, sid, n) || from == Some(n)
    ensures Falls(net, sid, from, n)
  {
    assert Spreads(net, sid, from, [n]);
  }

  lemma FallsOn(net: Net, sid: Sid, from: Option<NodeId>, n: NodeId, m: NodeId)
    requires Falls(net, sid, from, n) && Passes(net, sid, n, m)
    ensures Falls(net, sid, from, m)
  {
    var path :| Spreads(net, sid, from, path) && path[|path| - 1] == n;
    assert Spreads(net, sid, from, path + [m]);
  }

  lemma FallsHolds(net: Net, sid: Sid, n: NodeId)
    requires Falls(net, sid, None, n)
    ensures SlotOf(net, n, sid).session.Some?
  {
    var path :| Spreads(net, sid, None, path) && path[|path| - 1] == n;
    if |path| > 1 { assert Passes(net, sid, path[|path| - 2], path[|path| - 2 + 1]); }
  }

  lemma FallsFrom(net: Net, sid: Sid, n: NodeId)
    requires Falls(net, sid, None, n)
    ensures exists m :: Struck(net, sid, m)
  {
    var path :| Spreads(net, sid, None, path) && path[|path| - 1] == n;
    assert Struck(net, sid, path[0]);
  }

  // ---- one node closes ---------------------------------------------------------------------------

  /** Node `n` drops its session and its streams fail; of its own readers some may stop. Nothing else that
      belongs to `sid` changes. */
  ghost predicate Drops(a: Net, b: Net, sid: Sid, n: NodeId) {
    && |b.links| == |a.links|
    && (forall m :: SlotOf(b, m, sid) == if m == n then EMPTY_SLOT else SlotOf(a, m, sid))
    && (forall e :: Known(a, e) ==>
          && OwnerOf(b, e) == OwnerOf(a, e)
          && (OwnerOf(a, e) != n ==> StateOf(b, e).handler == StateOf(a, e).handler)
          && (StateOf(b, e).eof <==> StateOf(a, e).eof || HoldsEnd(a, n, sid, e) || HoldsEnd(a, n, sid, Peer(e))))
  }

  lemma DroppedListens(a: Net, b: Net, sid: Sid, n: NodeId, m: NodeId, e: End)
    requires Drops(a, b, sid, n)
    ensures Listens(b, m, sid, e) <==> m != n && Listens(a, m, sid, e)
  {}

  lemma DroppedPasses(a: Net, b: Net, sid: Sid, n: NodeId, m: NodeId, l: NodeId)
    requires Drops(a, b, sid, n)
    ensures Passes(b, sid, m, l) <==> m != n && l != n && Passes(a, sid, m, l)
  {
    forall e
      ensures Listens(b, l, sid, Peer(e)) <==> l != n && Listens(a, l, sid, Peer(e))
    { DroppedListens(a, b, sid, n, l, Peer(e)); }
    hide Listens;
    assert forall e :: HoldsEnd(b, m, sid, e) <==> m != n && HoldsEnd(a, m, sid, e);
    hide HoldsEnd, Drops;
    if Passes(a, sid, m, l) && m != n && l != n {
      var e :| HoldsEnd(a, m, sid, e) && Listens(a, l, sid, Peer(e));
      assert HoldsEnd(b, m, sid, e) && Listens(b, l, sid, Peer(e));
    }
    if Passes(b, sid, m, l) {
      var e :| HoldsEnd(b, m, sid, e) && Listens(b, l, sid, Peer(e));
      assert HoldsEnd(a, m, sid, e) && Listens(a, l, sid, Peer(e));
    }
  }

  lemma HeldIsOwn(a: Net, n: NodeId, sid: Sid, e: End)
    requires WellFormed(a) && HoldsEnd(a, n, sid, e)
    ensures Known(a, e) && OwnerOf(a, e) == n && a.links[e.link].sid == sid
  {
    assert SlotOk(a.links, n, sid, SlotOf(a, n, sid));
  }

  /** A reader that still runs has an error before it if it had one, or if the closed session held the other
      end of its stream. */
  lemma DroppedEof(a: Net, b: Net, sid: Sid, n: NodeId, m: NodeId, e: End)
    requires WellFormed(a) && Drops(a, b, sid, n) && m != n && Listens(a, m, sid, e)
    ensures Listens(b, m, sid, e) && (StateOf(b, e).eof <==> StateOf(a, e).eof || HoldsEnd(a, n, sid, Peer(e)))
  {
    hide WellFormed;
    DroppedListens(a, b, sid, n, m, e);
    if HoldsEnd(a, n, sid, e) { HeldIsOwn(a, n, sid, e); }
  }

  /** The nodes struck afterwards are those struck before and those to which the closing node passes it on. */
  lemma DroppedStruck(a: Net, b: Net, sid: Sid, n: NodeId, m: NodeId)
    requires WellFormed(a) && Drops(a, b, sid, n)
    ensures Struck(b, sid, m) <==> m != n && (Struck(a, sid, m) || Passes(a, sid, n, m))
  {
    hide WellFormed, Drops, HoldsEnd;
    if m != n && Struck(a, sid, m) {
      var e :| Listens(a, m, sid, e) && StateOf(a, e).eof;
      DroppedEof(a, b, sid, n, m, e);
    }
    if m != n && Passes(a, sid, n, m) {
      var e :| HoldsEnd(a, n, sid, e) && Listens(a, m, sid, Peer(e));
      assert Peer(Peer(e)) == e;
      DroppedEof(a, b, sid, n, m, Peer(e));
    }
    if Struck(b, sid, m) {
      var e :| Listens(b, m, sid, e) && StateOf(b, e).eof;
      DroppedListens(a, b, sid, n, m, e);
      DroppedEof(a, b, sid, n, m, e);
      if !StateOf(a, e).eof { assert HoldsEnd(a, n, sid, Peer(e)) && Peer(Peer(e)) == e; }
    }
  }

  /** After one node has closed, the nodes still to fall are those to which its closing spreads and those
      that were to fall anyway. */
  lemma FallsAfter(a: Net, b: Net, sid: Sid, n: NodeId, m: NodeId)
    requires WellFormed(a) && Drops(a, b, sid, n)
    ensures Falls(b, sid, None, m) <==> m != n && Falls(a, sid, Some(n), m)
  {
    if Falls(b, sid, None, m) {
      var path :| Spreads(b, sid, None, path) && path[|path| - 1] == m;
      FellBefore(a, b, sid, n, path);
    }
    if m != n && Falls(a, sid, Some(n), m) {
      var path :| Spreads(a, sid, Some(n), path) && path[|path| - 1] == m;
      FallsStill(a, b, sid, n, path);
    }
  }

  lemma {:induction false} FellBefore(a: Net, b: Net, sid: Sid, n: NodeId, path: seq<NodeId>)
    requires WellFormed(a) && Drops(a, b, sid, n) && Spreads(b, sid, None, path)
    ensures path[|path| - 1] != n && Falls(a, sid, Some(n), path[|path| - 1])
    decreases |path|
  {
    hide WellFormed, Drops, Struck, Passes, Falls;
    var i := |path| - 1;
    if i == 0 {
      DroppedStruck(a, b, sid, n, path[0]);
      FallsAt(a, sid, Some(n), if Struck(a, sid, path[0]) then path[0] else n);
      if !Struck(a, sid, path[0]) { FallsOn(a, sid, Some(n), n, path[0]); }
    } else {
      assert Passes(b, sid, path[i - 1], path[i - 1 + 1]);
      FellBefore(a, b, sid, n, path[..i]);
      DroppedPasses(a, b, sid, n, path[i - 1], path[i]);
      FallsOn(a, sid, Some(n), path[i - 1], path[i]);
    }
  }

  lemma {:induction false} FallsStill(a: Net, b: Net, sid: Sid, n: NodeId, path: seq<NodeId>)
    requires WellFormed(a) && Drops(a, b, sid, n) && Spreads(a, sid, Some(n), path) && path[|path| - 1] != n
    ensures Falls(b, sid, None, path[|path| - 1])
    decreases |path|
  {
    hide WellFormed, Drops, Struck, Passes, Falls;
    var i := |path| - 1;
    DroppedStruck(a, b, sid, n, path[i]);
    if i == 0 {
      FallsAt(b, sid, None, path[0]);
    } else {
      assert Passes(a, sid, path[i - 1], path[i - 1 + 1]);
      if path[i - 1] == n {
        FallsAt(b, sid, None, path[i]);
      } else {
        FallsStill(a, b, sid, n, path[..i]);
        DroppedPasses(a, b, sid, n, path[i - 1], path[i]);
        FallsOn(b, sid, None, path[i - 1], path[i]);
      }
    }
  }

  // ---- the steps that close ------------------------------------------------------------------------

  lemma CloseDrops(a: Net, b: Net, n: NodeId, sid: Sid)
    requires WellFormed(a) && |b.links| == |a.links| && b.slots == a.slots
    requires forall e :: Known(a, e) ==>
               && OwnerOf(b, e) == OwnerOf(a, e) && StateOf(b, e).eof == StateOf(a, e).eof
               && (OwnerOf(a, e) != n ==> StateOf(b, e).handler == StateOf(a, e).handler)
    ensures Drops(a, Commit(b, n, sid, OnClose(SlotOf(a, n, sid))), sid, n)
  {
    hide WellFormed;
    var s, c := SlotOf(a, n, sid), Commit(b, n, sid, OnClose(SlotOf(a, n, sid)));
    forall e | Known(a, e)
      ensures OwnerOf(c, e) == OwnerOf(b, e) && StateOf(c, e).handler == StateOf(b, e).handler
      ensures StateOf(c, e).eof <==> StateOf(b, e).eof || HoldsEnd(a, n, sid, e) || HoldsEnd(a, n, sid, Peer(e))
    {
      if s.session.Some? {
        if s.session.value.early.Some? { HeldIsKnown(a, n, sid, s.session.value.early.value); }
        if s.session.value.later.Some? { HeldIsKnown(a, n, sid, s.session.value.later.value); }
        ShutEof(b.links, s.session.value.early, e);
        ShutEof(Shut(b.links, s.session.value.early), s.session.value.later, e);
      }
    }
  }

  lemma HeldIsKnown(a: Net, n: NodeId, sid: Sid, e: End)
    requires WellFormed(a) && HoldsEnd(a, n, sid, e)
    ensures Known(a, e)
  {
    HeldIsOwn(a, n, sid, e);
  }

  lemma ShutEof(links: seq<Link>, s: Option<End>, e: End)
    requires e.link < |links|
    ensures var l, m := links[e.link], Shut(links, s)[e.link];
            && m.opener == l.opener && m.acceptor == l.acceptor && m.o.handler == l.o.handler
               && m.a.handler == l.a.handler
            && (EndOf(m, e.opener).eof <==> EndOf(l, e.opener).eof || s == Some(e) || s == Some(Peer(e)))
  {}

  /** The read error of an end that the session holds makes its node close. */
  lemma FaultDrops(a: Net, e: End, sid: Sid)
    requires WellFormed(a) && EnabledRelay(a, Fault(e)) && a.links[e.link].sid == sid
             && Listens(a, OwnerOf(a, e), sid, e)
    ensures Drops(a, DoFault(a, e), sid, OwnerOf(a, e)) && Struck(a, sid, OwnerOf(a, e))
  {
    hide WellFormed, Drops, Commit, OnClose;
    var n1 := a.(links := a.links[e.link := WithEnd(a.links[e.link], e.opener, StateOf(a, e).(handler := Stopped))]);
    CloseDrops(a, n1, OwnerOf(a, e), sid);
  }

  /** What belongs to `sid` and matters to read errors is the same. */
  ghost predicate Alike(a: Net, b: Net, sid: Sid) {
    && (forall n :: SlotOf(b, n, sid) == SlotOf(a, n, sid))
    && (forall n, e :: Listens(b, n, sid, e) <==> Listens(a, n, sid, e))
    && (forall n, e :: Listens(a, n, sid, e) && Listens(b, n, sid, e) ==> (StateOf(b, e).eof <==> StateOf(a, e).eof))
  }

  lemma IgnoredForm(a: Net, e: End, sid: Sid)
    requires WellFormed(a) && EnabledRelay(a, Fault(e)) && a.links[e.link].sid == sid
             && !Listens(a, OwnerOf(a, e), sid, e)
    ensures var b := DoFault(a, e);
            && b.links == a.links[e.link := WithEnd(a.links[e.link], e.opener, StateOf(a, e).(handler := Stopped))]
            && forall n :: SlotOf(b, n, sid) == SlotOf(a, n, sid)
  {
    hide WellFormed, OnClose, Commit, LinkOk;
    LinkKnown(a, e.link);
    RunsFor(a.links[e.link], e.opener);
    var n := OwnerOf(a, e);
    var n1 := a.(links := a.links[e.link := WithEnd(a.links[e.link], e.opener, StateOf(a, e).(handler := Stopped))]);
    QuietKeeps(n1, n, sid);
    if StateOf(a, e).handler.sid.Some? {
      assert OnError(SlotOf(n1, n, sid), e) == Quiet(SlotOf(n1, n, sid));
      assert DoFault(a, e) == Commit(n1, n, sid, Quiet(SlotOf(n1, n, sid)));
    }
  }

  lemma RunsFor(l: Link, opener: bool)
    requires LinkOk(l) && EndOf(l, opener).handler.Running?
    ensures EndOf(l, opener).handler.sid.Some? ==> EndOf(l, opener).handler == Running(Some(l.sid))
  {}

  lemma QuietKeeps(a: Net, n: NodeId, sid: Sid)
    ensures var b := Commit(a, n, sid, Quiet(SlotOf(a, n, sid)));
            b.links == a.links && forall m :: SlotOf(b, m, sid) == SlotOf(a, m, sid)
  {}

  lemma ListensStill(a: Net, b: Net, sid: Sid, e: End, n: NodeId, f: End)
    requires Known(a, e) && !Listens(a, OwnerOf(a, e), sid, e) && SlotOf(b, n, sid) == SlotOf(a, n, sid)
    requires b.links == a.links[e.link := WithEnd(a.links[e.link], e.opener, StateOf(a, e).(handler := Stopped))]
    ensures Listens(b, n, sid, f) <==> Listens(a, n, sid, f)
    ensures Listens(a, n, sid, f) ==> (StateOf(b, f).eof <==> StateOf(a, f).eof)
  {
    hide SlotOf;
    if f != e && f.link != e.link { assert Known(a, f) ==> b.links[f.link] == a.links[f.link]; }
  }

  /** Any other read error changes nothing of importance: the reader is not one that a session relies on. */
  lemma FaultIgnored(a: Net, e: End, sid: Sid)
    requires WellFormed(a) && EnabledRelay(a, Fault(e)) && a.links[e.link].sid == sid
             && !Listens(a, OwnerOf(a, e), sid, e)
    ensures Alike(a, DoFault(a, e), sid)
  {
    hide WellFormed, DoFault, SlotOf, HoldsEnd;
    IgnoredForm(a, e, sid);
    var b := DoFault(a, e);
    forall n, f
      ensures Listens(b, n, sid, f) <==> Listens(a, n, sid, f)
      ensures Listens(a, n, sid, f) && Listens(b, n, sid, f) ==> (StateOf(b, f).eof <==> StateOf(a, f).eof)
    { ListensStill(a, b, sid, e, n, f); }
  }

  lemma SameIsAlike(a: Net, b: Net, sid: Sid)
    requires WellFormed(a) && SameFor(a, b, sid)
    ensures Alike(a, b, sid)
  {
    hide WellFormed, SlotOf;
    forall n, e | HoldsEnd(a, n, sid, e)
      ensures Known(a, e) && a.links[e.link] == b.links[e.link]
    { HeldIsOwn(a, n, sid, e); }
  }

  lemma AlikeStruck(a: Net, b: Net, sid: Sid, n: NodeId)
    requires Alike(a, b, sid) && Struck(a, sid, n)
    ensures Struck(b, sid, n)
  {
    var e :| Listens(a, n, sid, e) && StateOf(a, e).eof;
    assert Listens(b, n, sid, e) && StateOf(b, e).eof;
  }

  lemma AlikePasses(a: Net, b: Net, sid: Sid, n: NodeId, m: NodeId)
    requires Alike(a, b, sid) && Passes(a, sid, n, m)
    ensures Passes(b, sid, n, m)
  {
    var e :| HoldsEnd(a, n, sid, e) && Listens(a, m, sid, Peer(e));
    assert HoldsEnd(b, n, sid, e) && Listens(b, m, sid, Peer(e));
  }

  lemma AlikeFalls(a: Net, b: Net, sid: Sid, from: Option<NodeId>, n: NodeId)
    requires Alike(a, b, sid) && Falls(a, sid, from, n)
    ensures Falls(b, sid, from, n)
  {
    hide Alike, Struck, Passes;
    var path :| Spreads(a, sid, from, path) && path[|path| - 1] == n;
    if Struck(a, sid, path[0]) { AlikeStruck(a, b, sid, path[0]); }
    forall i | 0 <= i < |path| - 1
      ensures Passes(b, sid, path[i], path[i + 1])
    { AlikePasses(a, b, sid, path[i], path[i + 1]); }
    assert Spreads(b, sid, from, path);
  }

  lemma AlikeBothWays(a: Net, b: Net, sid: Sid)
    requires Alike(a, b, sid)
    ensures Alike(b, a, sid)
  {}

  // ---- whole runs --------------------------------------------------------------------------------

  /** For `sid` only read errors happen; other session ids do what they like. */
  ghost predicate OnlyErrors(net: Net, steps: seq<Step>, sid: Sid)
    requires CanRun(net, steps)
    decreases |steps|
  {
    steps != [] ==>
      && (StepSid(net, steps[0]) == sid ==> steps[0].Fault?)
      && OnlyErrors(Do(net, steps[0]), steps[1..], sid)
  }

  ghost predicate Closed(a: Net, b: Net, sid: Sid, n: NodeId) {
    SlotOf(a, n, sid).session.Some? && SlotOf(b, n, sid) == EMPTY_SLOT
  }

  /** Between `a` and `b` some of the nodes that fall have closed, and every other slot is as it was. */
  ghost predicate Spread(a: Net, b: Net, sid: Sid) {
    forall n ::
      && (Falls(a, sid, None, n) <==> Falls(b, sid, None, n) || Closed(a, b, sid, n))
      && (Closed(a, b, sid, n) || SlotOf(b, n, sid) == SlotOf(a, n, sid))
  }

  lemma AlikeSpread(a: Net, b: Net, sid: Sid)
    requires Alike(a, b, sid)
    ensures Spread(a, b, sid)
  {
    AlikeBothWays(a, b, sid);
    forall n
      ensures Falls(a, sid, None, n) <==> Falls(b, sid, None, n)
      ensures !Closed(a, b, sid, n) && SlotOf(b, n, sid) == SlotOf(a, n, sid)
    {
      if Falls(a, sid, None, n) { AlikeFalls(a, b, sid, None, n); }
      if Falls(b, sid, None, n) { AlikeFalls(b, a, sid, None, n); }
    }
  }

  lemma DropsSpread(a: Net, b: Net, sid: Sid, n: NodeId)
    requires WellFormed(a) && Drops(a, b, sid, n) && Struck(a, sid, n)
    ensures Spread(a, b, sid)
  {
    hide WellFormed, Falls, Struck;
    FallsAt(a, sid, None, n);
    FallsHolds(a, sid, n);
    forall m ensures Falls(a, sid, Some(n), m) <==> Falls(a, sid, None, m) { StruckFalls(a, sid, n, m); }
    forall m ensures Falls(b, sid, None, m) <==> m != n && Falls(a, sid, Some(n), m) { FallsAfter(a, b, sid, n, m); }
  }

  lemma StruckFalls(a: Net, sid: Sid, n: NodeId, m: NodeId)
    requires Struck(a, sid, n)
    ensures Falls(a, sid, Some(n), m) <==> Falls(a, sid, None, m)
  {
    hide Struck, Passes;
    assert forall path :: Spreads(a, sid, Some(n), path) <==> Spreads(a, sid, None, path);
  }

  lemma SpreadThen(a: Net, b: Net, c: Net, sid: Sid)
    requires Spread(a, b, sid) && Spread(b, c, sid)
    ensures Spread(a, c, sid)
  {
    hide Falls;
  }

  lemma StepSpreads(a: Net, st: Step, sid: Sid)
    requires WellFormed(a) && Enabled(a, st) && (StepSid(a, st) == sid ==> st.Fault?)
    ensures WellFormed(Do(a, st)) && Spread(a, Do(a, st), sid)
  {
    hide WellFormed, Confined, Spread, DoFault, DoTask, EnabledTask, Listens, Drops, SameFor;
    StepIsolated(a, st);
    if StepSid(a, st) != sid {
      ConfinedIsSame(a, Do(a, st), StepSid(a, st), sid);
      SameIsAlike(a, Do(a, st), sid);
      AlikeSpread(a, Do(a, st), sid);
    } else if Listens(a, OwnerOf(a, st.end), sid, st.end) {
      FaultDrops(a, st.end, sid);
      DropsSpread(a, DoFault(a, st.end), sid, OwnerOf(a, st.end));
    } else {
      FaultIgnored(a, st.end, sid);
      AlikeSpread(a, DoFault(a, st.end), sid);
    }
  }

  lemma {:induction false} ErrorsSpread(net: Net, steps: seq<Step>, sid: Sid)
    requires WellFormed(net) && CanRun(net, steps) && OnlyErrors(net, steps, sid)
    ensures WellFormed(Run(net, steps)) && Spread(net, Run(net, steps), sid)
    decreases |steps|
  {
    hide WellFormed, Spread, StepSid, Enabled, Do;
    if steps == [] {
      AlikeSpread(net, net, sid);
    } else {
      var b := Do(net, steps[0]);
      StepSpreads(net, steps[0], sid);
      ErrorsSpread(b, steps[1..], sid);
      SpreadThen(net, b, Run(b, steps[1..]), sid);
    }
  }

  /** For any sessions in any well-formed network, an established circuit or any part of one: when the read
      errors of the session id have run out, in whatever order and interleaved with whatever other session
      ids do, exactly the nodes to which an error spreads have dropped all they had, and every other node
      has what it had. */
  lemma ExactlyTheConnectedFall(net: Net, steps: seq<Step>, sid: Sid)
    requires WellFormed(net) && CanRun(net, steps) && OnlyErrors(net, steps, sid)
    requires forall n :: !Struck(Run(net, steps), sid, n)
    ensures forall n :: SlotOf(Run(net, steps), n, sid) ==
                          if Falls(net, sid, None, n) then EMPTY_SLOT else SlotOf(net, n, sid)
  {
    var b := Run(net, steps);
    ErrorsSpread(net, steps, sid);
    hide WellFormed, Struck, Passes;
    forall n ensures !Falls(b, sid, None, n) {
      if Falls(b, sid, None, n) { FallsFrom(b, sid, n); }
    }
    hide Falls;
  }

  // ---- read errors run out -------------------------------------------------------------------------

  /** The running readers of all streams. */
  function Readers(links: seq<Link>): nat {
    if links == [] then 0
    else One(links[0].o.handler.Running?) + One(links[0].a.handler.Running?) + Readers(links[1..])
  }

  lemma {:induction false} ReadersAt(a: seq<Link>, b: seq<Link>, i: nat)
    requires |a| == |b| && i < |a|
    requires forall j :: 0 <= j < |a| && j != i ==> b[j].o.handler == a[j].o.handler && b[j].a.handler == a[j].a.handler
    requires One(b[i].o.handler.Running?) + One(b[i].a.handler.Running?)
             < One(a[i].o.handler.Running?) + One(a[i].a.handler.Running?)
    ensures Readers(b) < Readers(a)
    decreases |a|
  {
    if i > 0 {
      ReadersAt(a[1..], b[1..], i - 1);
    } else {
      ReadersSame(a[1..], b[1..]);
    }
  }

  lemma {:induction false} ReadersSame(a: seq<Link>, b: seq<Link>)
    requires |a| == |b| && forall j :: 0 <= j < |a| ==>
                               b[j].o.handler == a[j].o.handler && b[j].a.handler == a[j].a.handler
    ensures Readers(b) == Readers(a)
    decreases |a|
  {
    if a != [] { ReadersSame(a[1..], b[1..]); }
  }

  lemma FaultStops(a: Net, e: End)
    requires EnabledRelay(a, Fault(e))
    ensures Readers(DoFault(a, e).links) < Readers(a.links)
  {
    hide OnClose, Readers;
    var b, n := DoFault(a, e), OwnerOf(a, e);
    var l1 := a.links[e.link := WithEnd(a.links[e.link], e.opener, StateOf(a, e).(handler := Stopped))];
    HandlersKept(l1, if StateOf(a, e).handler.sid.None? then Quiet(EMPTY_SLOT)
                    else OnError(SlotOf(a, n, StateOf(a, e).handler.sid.value), e));
    ReadersAt(a.links, b.links, e.link);
  }

  /** Writing and closing leave the readers as they are. */
  lemma HandlersKept(links: seq<Link>, out: Outcome)
    ensures var r := Shut(Shut(Post(Post(links, out.first), out.second), out.shut1), out.shut2);
            |r| == |links| && forall j :: 0 <= j < |r| ==>
                                  r[j].o.handler == links[j].o.handler && r[j].a.handler == links[j].a.handler
  {
    hide Post, Shut;
    var l1 := Post(links, out.first);
    var l2 := Post(l1, out.second);
    PostHandlers(links, out.first);
    PostHandlers(l1, out.second);
    ShutHandlers(l2, out.shut1);
    ShutHandlers(Shut(l2, out.shut1), out.shut2);
  }

  lemma PostHandlers(links: seq<Link>, w: Option<Write>)
    ensures forall j :: 0 <= j < |links| ==>
              Post(links, w)[j].o.handler == links[j].o.handler && Post(links, w)[j].a.handler == links[j].a.handler
  {}

  lemma ShutHandlers(links: seq<Link>, e: Option<End>)
    ensures forall j :: 0 <= j < |links| ==>
              Shut(links, e)[j].o.handler == links[j].o.handler && Shut(links, e)[j].a.handler == links[j].a.handler
  {}

  /** From any well-formed network the read errors of a session id do run out, after at most as many of them
      as there are readers. */
  lemma {:induction false} ErrorsRunOut(net: Net, sid: Sid) returns (steps: seq<Step>)
    requires WellFormed(net)
    ensures CanRun(net, steps) && OnlyErrors(net, steps, sid) && |steps| <= Readers(net.links)
    ensures forall i :: 0 <= i < |steps| ==> steps[i].Fault?
    ensures forall n :: !Struck(Run(net, steps), sid, n)
    decreases Readers(net.links)
  {
    hide WellFormed, Readers, Confined;
    steps := [];
    if n :| Struck(net, sid, n) {
      var e :| Listens(net, n, sid, e) && StateOf(net, e).eof;
      hide DoFault;
      var b := Do(net, Fault(e));
      StepIsolated(net, Fault(e));
      FaultStops(net, e);
      var rest := ErrorsRunOut(b, sid);
      steps := [Fault(e)] + rest;
      assert steps[1..] == rest;
    }
  }

  /** So they leave no session behind if and only if an error spreads to every node that has one. */
  lemma NothingStaysExactlyIf(net: Net, steps: seq<Step>, sid: Sid)
    requires WellFormed(net) && CanRun(net, steps) && OnlyErrors(net, steps, sid)
    requires forall n :: !Struck(Run(net, steps), sid, n)
    ensures (forall n :: SlotOf(Run(net, steps), n, sid).session.None?)
            <==> (forall n :: SlotOf(net, n, sid).session.Some? ==> Falls(net, sid, None, n))
  {
    hide Struck, Passes, WellFormed;
    ExactlyTheConnectedFall(net, steps, sid);
    if n :| SlotOf(net, n, sid).session.Some? && !Falls(net, sid, None, n) {
      assert SlotOf(Run(net, steps), n, sid).session.Some?;
    } else {
      forall n ensures SlotOf(Run(net, steps), n, sid).session.None? {
        assert SlotOf(net, n, sid).session.Some? ==> Falls(net, sid, None, n);
      }
    }
  }

  /** Which node gives up with a task step: the entry node without a sink (not when it is the access node
      too), the access node without the answering client or a relay or with a refused command, and the
      relay node without a session or a stream to the sink. */
  function GivingUp(a: Net, st: Step): Option<NodeId>
    requires !IsRelayStep(st) && EnabledTask(a, st)
  {
    if st.Dial? then None
    else
      var k := a.ctls[st.sid];
      match st
      case JoinGiveUp(_) => if k.home == k.entry then None else Some(k.entry)
      case ReachGiveUp(_) => Some(k.home)
      case HopGiveUp(_) => Some(k.home)
      case CmdRefuse(_) => AcceptorOf(a, k.hop)
      case BridgeGiveUp(_) => AcceptorOf(a, k.hop)
      case ExpandReply(_) => if k.cmd == Replied(true) then None else Some(k.home)
      case _ => None
  }

  lemma GivingUpDrops(a: Net, st: Step)
    requires WellFormed(a) && !IsRelayStep(st) && EnabledTask(a, st) && GivingUp(a, st).Some?
    ensures Drops(a, DoTask(a, st), st.sid, GivingUp(a, st).value)
  {
    hide WellFormed, Drops, OnClose, Commit, Done, HalfOpen, RelaySlot;
    var sid, k, n := st.sid, a.ctls[st.sid], GivingUp(a, st).value;
    match st
    case JoinGiveUp(_) => ClosingDrops(a, sid, n, k.(endedE := true));
    case ReachGiveUp(_) => ClosingDrops(a, sid, n, k.(endedA := true));
    case HopGiveUp(_) => ClosingDrops(a, sid, n, k.(endedA := true));
    case CmdRefuse(_) => ClosingDrops(a, sid, n, k.(cmd := Replied(false)));
    case BridgeGiveUp(_) => ClosingDrops(a, sid, n, k.(cmd := Replied(false)));
    case ExpandReply(_) => ClosingDrops(a, sid, n, k.(endedA := true));
  }

  lemma ClosingDrops(a: Net, sid: Sid, n: NodeId, j: Control)
    requires WellFormed(a)
    ensures Drops(a, Close(WithControl(a, sid, j), n, sid), sid, n)
    ensures Drops(a, Break(Close(WithControl(a, sid, j), n, sid), sid), sid, n)
  {
    hide WellFormed, OnClose, Commit;
    CloseDrops(a, WithControl(a, sid, j), n, sid);
  }

  /** A node that gives up keeps nothing; and when the read errors after it have run out, those nodes have
      dropped everything to which its closing has spread, or another error that was pending, and no others:
      also while the circuit is still being built. */
  lemma GivingUpTakes(a: Net, st: Step, steps: seq<Step>)
    requires WellFormed(a) && !IsRelayStep(st) && EnabledTask(a, st) && GivingUp(a, st).Some?
    requires CanRun(DoTask(a, st), steps) && OnlyErrors(DoTask(a, st), steps, st.sid)
    requires forall n :: !Struck(Run(DoTask(a, st), steps), st.sid, n)
    ensures var n, c := GivingUp(a, st).value, Run(DoTask(a, st), steps);
            forall m :: SlotOf(c, m, st.sid) ==
                          if m == n || Falls(a, st.sid, Some(n), m) then EMPTY_SLOT else SlotOf(a, m, st.sid)
  {
    GivingUpDrops(a, st);
    DropTakes(a, st, GivingUp(a, st).value, steps);
  }

  /** Likewise when a node closes the session by itself. */
  lemma CloseTakes(a: Net, n: NodeId, sid: Sid, steps: seq<Step>)
    requires WellFormed(a) && sid in a.ctls
    requires var b := Do(a, ClientClose(n, sid));
             CanRun(b, steps) && OnlyErrors(b, steps, sid) && forall m :: !Struck(Run(b, steps), sid, m)
    ensures var c := Run(Do(a, ClientClose(n, sid)), steps);
            forall m :: SlotOf(c, m, sid) ==
                          if m == n || Falls(a, sid, Some(n), m) then EMPTY_SLOT else SlotOf(a, m, sid)
  {
    hide WellFormed, Drops, Falls, Struck, OnlyErrors, OnClose, Commit, Run, CanRun;
    ClientCloseDrops(a, n, sid);
    DropTakes(a, ClientClose(n, sid), n, steps);
  }

  lemma ClientCloseDrops(a: Net, n: NodeId, sid: Sid)
    requires WellFormed(a)
    ensures Drops(a, Break(Close(a, n, sid), sid), sid, n)
  {
    hide WellFormed, OnClose, Commit;
    CloseDrops(a, a, n, sid);
  }

  lemma DropTakes(a: Net, st: Step, n: NodeId, steps: seq<Step>)
    requires WellFormed(a) && Enabled(a, st) && Drops(a, Do(a, st), StepSid(a, st), n)
    requires CanRun(Do(a, st), steps) && OnlyErrors(Do(a, st), steps, StepSid(a, st))
    requires forall m :: !Struck(Run(Do(a, st), steps), StepSid(a, st), m)
    ensures var sid := StepSid(a, st);
            forall m :: SlotOf(Run(Do(a, st), steps), m, sid)
                     == if m == n || Falls(a, sid, Some(n), m) then EMPTY_SLOT else SlotOf(a, m, sid)
  {
    hide WellFormed, Falls, Struck, CanRun, Run, Do, Enabled, OnlyErrors, Confined;
    var sid, b := StepSid(a, st), Do(a, st);
    StepIsolated(a, st);
    ExactlyTheConnectedFall(b, steps, sid);
    forall m ensures Falls(b, sid, None, m) <==> m != n && Falls(a, sid, Some(n), m) { FallsAfter(a, b, sid, n, m); }
  }
}
