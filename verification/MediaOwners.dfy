/** What an owner that has disconnected can still get: the exact condition under which it comes to have a
    session again. */
module MediaOwners {
  import opened Prelude
  import opened BackendPins
  import opened MediaCore
  import opened MediaSystem
  import opened MediaInvariants
  import opened MediaPins
  import opened MediaTheorems

  /** No more session creations are requested by a connection that is gone. */
  predicate SilentStep(e: Event, connection: ConnectionId) {
    e.Admit? ==> e.owner != Some(connection)
  }

  predicate Silent(more: seq<Event>, connection: ConnectionId) {
    forall i | 0 <= i < |more| :: SilentStep(more[i], connection)
  }

  predicate OwnsSession(s: State, connection: ConnectionId, x: SessionId) {
    x in s.core.live && x in s.core.records && s.core.records[x].owner == Some(connection)
  }

  /** A creation of the owner between its admission and the end of session.create. */
  predicate OpenCreation(op: Op, connection: ConnectionId) {
    (op.Discovering? || op.Picked? || op.Opening? || op.Configuring?) && op.owner == Some(connection)
  }

  predicate CreationIn(s: State, connection: ConnectionId, o: OpId) {
    o in s.ops && OpenCreation(s.ops[o], connection)
  }

  // ----- without an open creation nothing comes back

  /** The owner has no session and no creation that can still bring one. */
  ghost predicate Barren(s: State, connection: ConnectionId) {
    && (forall x :: x in s.core.live ==> x in s.core.records && s.core.records[x].owner != Some(connection))
    && (s.stopping || forall o :: !CreationIn(s, connection, o))
  }

  ghost predicate SameOwners(c: Core, c': Core) {
    c'.live <= c.live && forall x :: x in c'.live && x in c.records ==> x in c'.records && c'.records[x].owner == c.records[x].owner
  }

  lemma BarrenCarry(s: State, s': State, connection: ConnectionId)
    requires Barren(s, connection) && SameOwners(s.core, s'.core) && SamePinOps(s, s') && (s.stopping ==> s'.stopping)
    ensures Barren(s', connection)
  {
    if s.stopping { return; }
    forall o
      ensures !CreationIn(s', connection, o)
    {
      assert !CreationIn(s, connection, o);
    }
  }

  lemma PhaseBarren(s: State, s': State, connection: ConnectionId, o: OpId)
    requires Barren(s, connection) && SameOwners(s.core, s'.core) && s'.stopping == s.stopping
    requires forall x :: x != o && x in s'.ops ==> x in s.ops && s'.ops[x] == s.ops[x]
    requires o in s'.ops && OpenCreation(s'.ops[o], connection) ==> CreationIn(s, connection, o)
    ensures Barren(s', connection)
  {
    if s.stopping { return; }
    forall x
      ensures !CreationIn(s', connection, x)
    {
      assert !CreationIn(s, connection, x);
    }
  }

  lemma PublishBarren(s: State, connection: ConnectionId, o: OpId, sid: SessionId)
    requires Barren(s, connection)
    ensures Barren(StepCreate(s, Configured(o, true, sid)), connection)
  {
    var s' := StepCreate(s, Configured(o, true, sid));
    if s' == s || s.stopping { return; }
    assert !CreationIn(s, connection, o);
    forall x
      ensures !CreationIn(s', connection, x)
    {
      assert !CreationIn(s, connection, x);
    }
  }

  lemma CreateBarren(s: State, e: Event, connection: ConnectionId)
    requires Barren(s, connection) && SilentStep(e, connection) && CreateEvent(e)
    ensures Barren(StepCreate(s, e), connection)
  {
    var s' := StepCreate(s, e);
    if s' == s { return; }
    match e {
      case Admit(op, _, _) => PhaseBarren(s, s', connection, op); return;
      case Pick(op, _, _) => PhaseBarren(s, s', connection, op); return;
      case RegisterPick(op, _) => PhaseBarren(s, s', connection, op); return;
      case Opened(op, _, _, _) => PhaseBarren(s, s', connection, op); return;
      case Configured(op, ok, sid) =>
        if ok {
          PublishBarren(s, connection, op, sid);
          return;
        }
        PhaseBarren(s, s', connection, op);
        return;
      case Unwound(op, _, _) => PhaseBarren(s, s', connection, op); return;
      case SweepPins(_, _) => BarrenCarry(s, s', connection); return;
    }
  }

  lemma TeardownOwners(s: State, e: Event)
    requires s.core.live <= s.core.records.Keys && TeardownEvent(e)
    ensures var s' := StepTeardown(s, e); SameOwners(s.core, s'.core) && (s.stopping ==> s'.stopping)
  {
    if StepTeardown(s, e) == s { return; }
    match e {
      case BeginDestroy(_, _) => return;
      case Destroyed(op, active, now) => DropOwners(s.core, s.ops[op].sid, active, now); return;
      case SocketClosed(sid, active, now) => DropOwners(s.core, sid, active, now); return;
      case OwnerLeft(_, order, active, now) => DropAllLive(s.core, order, active, now); return;
      case Stop => return;
      case ShutdownDestroyed(sid, active, now) => DropOwners(s.core, sid, active, now); return;
    }
  }

  lemma DropOwners(c: Core, sid: SessionId, active: set<CallId>, now: int)
    requires c.live <= c.records.Keys
    ensures SameOwners(c, Drop(c, sid, active, now))
  {
    if sid in c.live { DropSessions(c, sid, active, now); }
  }

  lemma BarrenStep(s: State, e: Event, connection: ConnectionId)
    requires s.core.live <= s.core.records.Keys && Barren(s, connection) && SilentStep(e, connection)
    ensures Barren(Step(s, e), connection)
  {
    if CreateEvent(e) {
      CreateBarren(s, e, connection);
      return;
    }
    if EndpointEvent(e) {
      EndpointLeavesSessions(s, e);
      EndpointLeavesPinOps(s, e);
      EndpointKeepsClosing(s, e);
      BarrenCarry(s, StepEndpoint(s, e), connection);
      return;
    }
    if TeardownEvent(e) {
      TeardownOwners(s, e);
      TeardownLeavesPinOps(s, e);
      BarrenCarry(s, StepTeardown(s, e), connection);
      return;
    }
    ActionLeavesSessions(s, e);
    ActionLeavesPinOps(s, e);
    ActionKeepsClosing(s, e);
    BarrenCarry(s, StepAction(s, e), connection);
  }

  lemma {:induction false} BarrenRun(left: seq<Event>, connection: ConnectionId, more: seq<Event>)
    requires Barren(StateAfter(left), connection) && Silent(more, connection)
    ensures Barren(StateAfter(left + more), connection)
    decreases |more|
  {
    if more == [] {
      assert left + more == left;
      return;
    }
    var init, last := more[..|more| - 1], more[|more| - 1];
    BarrenRun(left, connection, init);
    RunSplit(left, more);
    RunInv(left + init);
    BarrenStep(StateAfter(left + init), last, connection);
  }

  // ----- an open creation can bring a session

  /** The first events, and then the others. */
  lemma Then(left: seq<Event>, first: seq<Event>, rest: seq<Event>)
    ensures left + (first + rest) == left + first + rest
  {
  }

  lemma SilentBoth(first: seq<Event>, rest: seq<Event>, connection: ConnectionId)
    requires Silent(first, connection) && Silent(rest, connection)
    ensures Silent(first + rest, connection)
  {
  }

  ghost predicate GivesSession(left: seq<Event>, more: seq<Event>, connection: ConnectionId) {
    Silent(more, connection) && exists x :: OwnsSession(StateAfter(left + more), connection, x)
  }

  lemma Later(left: seq<Event>, first: seq<Event>, rest: seq<Event>, connection: ConnectionId)
    requires Silent(first, connection) && GivesSession(left + first, rest, connection)
    ensures GivesSession(left, first + rest, connection)
  {
    Then(left, first, rest);
    SilentBoth(first, rest, connection);
  }

  lemma ConfiguringGives(left: seq<Event>, connection: ConnectionId, o: OpId) returns (more: seq<Event>)
    requires var s := StateAfter(left); CreationIn(s, connection, o) && s.ops[o].Configuring? && !s.stopping
    ensures GivesSession(left, more, connection)
  {
    var s := StateAfter(left);
    var sid := Unused(s.core.records.Keys);
    more := [Configured(o, true, sid)];
    RunSnoc(left, Configured(o, true, sid));
    assert OwnsSession(StateAfter(left + more), connection, sid);
  }

  lemma OpeningGives(left: seq<Event>, connection: ConnectionId, o: OpId) returns (more: seq<Event>)
    requires var s := StateAfter(left); CreationIn(s, connection, o) && s.ops[o].Opening? && !s.stopping
    ensures GivesSession(left, more, connection)
  {
    var e := Opened(o, true, {}, 0);
    RunSnoc(left, e);
    var rest := ConfiguringGives(left + [e], connection, o);
    Later(left, [e], rest, connection);
    return [e] + rest;
  }

  /** Registering the client succeeds: the call has no pin. */
  lemma UnpinnedGives(left: seq<Event>, connection: ConnectionId, o: OpId) returns (more: seq<Event>)
    requires var s := StateAfter(left); CreationIn(s, connection, o) && s.ops[o].Picked? && !s.stopping
    requires var s := StateAfter(left); s.ops[o].callId.Some? ==> s.ops[o].callId.value !in s.core.mgr.pins
    ensures GivesSession(left, more, connection)
  {
    var e := RegisterPick(o, 0);
    RunSnoc(left, e);
    var rest := OpeningGives(left + [e], connection, o);
    Later(left, [e], rest, connection);
    return [e] + rest;
  }

  // ----- a pin on another backend can go first

  /** What is left until the pin of a call is gone. */
  function Weight(s: State, c: CallId): nat {
    if c in s.core.mgr.pins then s.core.mgr.pins[c].refs + 1 else 0
  }

  /** The pin of the call has come nearer to its end and the creation o waits as before. */
  ghost predicate Lighter(s: State, s': State, c: CallId, o: OpId) {
    Weight(s', c) < Weight(s, c) && s'.stopping == s.stopping && o in s.ops && o in s'.ops && s'.ops[o] == s.ops[o]
  }

  lemma SweptPin(s: State, c: CallId, o: OpId) returns (e: Event)
    requires c in s.core.mgr.pins && s.core.mgr.pins[c].refs == 0 && o in s.ops
    ensures e.SweepPins? && Lighter(s, Step(s, e), c, o)
  {
    e := SweepPins({}, s.core.mgr.pins[c].createdAt + CALL_BACKEND_TTL_MS + 1);
  }

  lemma OpeningLetsGo(s: State, c: CallId, o: OpId, p: OpId)
    requires PinOk(s, c) && o in s.ops && s.ops[o].Picked? && p in OpHolders(s.ops, c) && s.ops[p].Opening?
    ensures Lighter(s, Step(s, Opened(p, false, {}, 0)), c, o)
  {
  }

  lemma UnwindingLetsGo(s: State, c: CallId, o: OpId, p: OpId)
    requires PinOk(s, c) && o in s.ops && s.ops[o].Picked? && p in OpHolders(s.ops, c) && s.ops[p].Unwinding?
    ensures Lighter(s, Step(s, Unwound(p, {}, 0)), c, o)
  {
  }

  lemma SessionLetsGo(s: State, c: CallId, o: OpId, x: SessionId)
    requires PinOk(s, c) && s.core.live <= s.core.records.Keys && o in s.ops && x in LiveHolders(s.core, c)
    ensures Lighter(s, Step(s, SocketClosed(x, {}, 0)), c, o)
  {
    DropSessions(s.core, x, {}, 0);
  }

  lemma ConfiguringFails(s: State, c: CallId, o: OpId, p: OpId) returns (e: Event)
    requires o in s.ops && s.ops[o].Picked? && p in OpHolders(s.ops, c) && s.ops[p].Configuring?
    ensures e.Configured? && var s' := Step(s, e);
                          && s'.core == s.core && s'.stopping == s.stopping && o in s'.ops && s'.ops[o] == s.ops[o]
                          && p in OpHolders(s'.ops, c) && s'.ops[p].Unwinding?
  {
    e := Configured(p, false, Unused(s.core.records.Keys));
  }

  lemma HolderLetsGo(left: seq<Event>, connection: ConnectionId, c: CallId, o: OpId, p: OpId) returns (first: seq<Event>)
    requires var s := StateAfter(left); o in s.ops && s.ops[o].Picked? && p in OpHolders(s.ops, c)
    ensures Silent(first, connection) && Lighter(StateAfter(left), StateAfter(left + first), c, o)
  {
    var s := StateAfter(left);
    RunInv(left);
    assert PinOk(s, c);
    if s.ops[p].Opening? {
      OpeningLetsGo(s, c, o, p);
      RunSnoc(left, Opened(p, false, {}, 0));
      return [Opened(p, false, {}, 0)];
    }
    if s.ops[p].Unwinding? {
      UnwindingLetsGo(s, c, o, p);
      RunSnoc(left, Unwound(p, {}, 0));
      return [Unwound(p, {}, 0)];
    }
    var e := ConfiguringFails(s, c, o, p);
    first := UnwindsAfter(left, connection, c, o, p, e);
  }

  lemma UnwindsAfter(left: seq<Event>, connection: ConnectionId, c: CallId, o: OpId, p: OpId, e: Event) returns (first: seq<Event>)
    requires var s, s' := StateAfter(left), Step(StateAfter(left), e);
             && e.Configured? && s'.core == s.core && s'.stopping == s.stopping && o in s.ops && o in s'.ops && s'.ops[o] == s.ops[o]
             && s.ops[o].Picked? && p in OpHolders(s'.ops, c) && s'.ops[p].Unwinding?
    ensures Silent(first, connection) && Lighter(StateAfter(left), StateAfter(left + first), c, o)
  {
    var failed := left + [e];
    RunSnoc(left, e);
    RunInv(failed);
    assert PinOk(StateAfter(failed), c);
    UnwindingLetsGo(StateAfter(failed), c, o, p);
    RunSnoc(failed, Unwound(p, {}, 0));
    Then(left, [e], [Unwound(p, {}, 0)]);
    return [e] + [Unwound(p, {}, 0)];
  }

  lemma PinLightens(left: seq<Event>, connection: ConnectionId, c: CallId, o: OpId) returns (first: seq<Event>)
    requires var s := StateAfter(left); o in s.ops && s.ops[o].Picked? && c in s.core.mgr.pins
    ensures Silent(first, connection) && Lighter(StateAfter(left), StateAfter(left + first), c, o)
  {
    var s := StateAfter(left);
    RunInv(left);
    assert PinOk(s, c);
    if s.core.mgr.pins[c].refs == 0 {
      var e := SweptPin(s, c, o);
      RunSnoc(left, e);
      return [e];
    }
    if OpHolders(s.ops, c) != {} {
      first := HolderLetsGo(left, connection, c, o, Member(OpHolders(s.ops, c)));
      return;
    }
    var x := Member(LiveHolders(s.core, c));
    SessionLetsGo(s, c, o, x);
    RunSnoc(left, SocketClosed(x, {}, 0));
    return [SocketClosed(x, {}, 0)];
  }

  lemma {:induction false} PickedGives(left: seq<Event>, connection: ConnectionId, o: OpId, weight: nat) returns (more: seq<Event>)
    requires var s := StateAfter(left); CreationIn(s, connection, o) && s.ops[o].Picked? && !s.stopping
    requires var s := StateAfter(left); s.ops[o].callId.Some? ==> Weight(s, s.ops[o].callId.value) <= weight
    ensures GivesSession(left, more, connection)
    decreases weight
  {
    var s := StateAfter(left);
    if s.ops[o].callId.None? || s.ops[o].callId.value !in s.core.mgr.pins {
      more := UnpinnedGives(left, connection, o);
      return;
    }
    var first := PinLightens(left, connection, s.ops[o].callId.value, o);
    var rest := PickedGives(left + first, connection, o, weight - 1);
    Later(left, first, rest, connection);
    return first + rest;
  }

  /** Discovery finds a backend that takes the session: the pinned one if the call has a pin. */
  function Found(s: State, callId: Option<CallId>): BackendId {
    if callId.Some? && callId.value in s.core.mgr.pins then s.core.mgr.pins[callId.value].backend else 1
  }

  lemma DiscoveringPicks(s: State, o: OpId)
    requires o in s.ops && s.ops[o].Discovering?
    ensures var p, b := s.ops[o], Found(s, s.ops[o].callId);
            var s' := Step(s, Pick(o, Some([Backend(b, None)]), 0));
            o in s'.ops && s'.ops[o] == Picked(p.callId, p.owner, b) && s'.stopping == s.stopping
  {
    var bs := [Backend(Found(s, s.ops[o].callId), None)];
    assert bs[1..] == [];
    assert Accepting(bs) == bs;
  }

  lemma DiscoveringGives(left: seq<Event>, connection: ConnectionId, o: OpId) returns (more: seq<Event>)
    requires var s := StateAfter(left); CreationIn(s, connection, o) && s.ops[o].Discovering? && !s.stopping
    ensures GivesSession(left, more, connection)
  {
    var s := StateAfter(left);
    var e := Pick(o, Some([Backend(Found(s, s.ops[o].callId), None)]), 0);
    RunSnoc(left, e);
    DiscoveringPicks(s, o);
    var s', c := StateAfter(left + [e]), s.ops[o].callId;
    var rest := PickedGives(left + [e], connection, o, if c.Some? then Weight(s', c.value) else 0);
    Later(left, [e], rest, connection);
    return [e] + rest;
  }

  lemma CreationGives(left: seq<Event>, connection: ConnectionId, o: OpId) returns (more: seq<Event>)
    requires CreationIn(StateAfter(left), connection, o) && !StateAfter(left).stopping
    ensures GivesSession(left, more, connection)
  {
    var s := StateAfter(left);
    if s.ops[o].Configuring? {
      more := ConfiguringGives(left, connection, o);
      return;
    }
    if s.ops[o].Opening? {
      more := OpeningGives(left, connection, o);
      return;
    }
    if s.ops[o].Discovering? {
      more := DiscoveringGives(left, connection, o);
      return;
    }
    more := PickedGives(left, connection, o, if s.ops[o].callId.Some? then Weight(s, s.ops[o].callId.value) else 0);
  }

  // ----- exactly

  ghost predicate SessionsComeBack(left: seq<Event>, connection: ConnectionId) {
    exists more :: GivesSession(left, more, connection)
  }

  lemma LeftBarren(s: State, owner: ConnectionId, order: seq<SessionId>, active: set<CallId>, now: int)
    requires Inv(s) && OwnedOrder(s.core, owner, order)
    requires s.stopping || forall o :: !CreationIn(s, owner, o)
    ensures Barren(Step(s, OwnerLeft(owner, order, active, now)), owner)
  {
    var e := OwnerLeft(owner, order, active, now);
    OwnerLeftTakes(s, owner, order, active, now);
    TeardownLeavesPinOps(s, e);
    TeardownOwners(s, e);
    if s.stopping { return; }
    forall o
      ensures !CreationIn(Step(s, e), owner, o)
    {
      assert !CreationIn(s, owner, o);
    }
  }

  lemma LeftOpen(s: State, owner: ConnectionId, order: seq<SessionId>, active: set<CallId>, now: int, o: OpId)
    requires CreationIn(s, owner, o) && !s.stopping
    ensures var s' := Step(s, OwnerLeft(owner, order, active, now)); CreationIn(s', owner, o) && !s'.stopping
  {
    TeardownLeavesPinOps(s, OwnerLeft(owner, order, active, now));
  }

  /** After its owner has left, a session of that owner can appear, in some continuation without new requests of
      the owner, exactly when the gateway was not stopping and a creation of the owner was open at the
      disconnect, be its backend still to be discovered or its call pinned elsewhere by then. */
  lemma {:induction false} SessionsComeBackIff(
    events: seq<Event>, owner: ConnectionId, order: seq<SessionId>, active: set<CallId>, now: int)
    requires OwnedOrder(StateAfter(events).core, owner, order)
    ensures SessionsComeBack(events + [OwnerLeft(owner, order, active, now)], owner)
       <==> (!StateAfter(events).stopping && exists o :: CreationIn(StateAfter(events), owner, o))
  {
    var s, e := StateAfter(events), OwnerLeft(owner, order, active, now);
    RunInv(events);
    RunSnoc(events, e);
    if !s.stopping && exists o :: CreationIn(s, owner, o) {
      var o :| CreationIn(s, owner, o);
      LeftOpen(s, owner, order, active, now, o);
      var _ := CreationGives(events + [e], owner, o);
      return;
    }
    LeftBarren(s, owner, order, active, now);
    forall more | Silent(more, owner)
      ensures !GivesSession(events + [e], more, owner)
    {
      BarrenRun(events + [e], owner, more);
    }
  }
}
