/** In every interleaving the pin of a call counts the clients registered for it. */
module MediaPins {
  import opened Prelude
  import opened BackendPins
  import opened MediaCore
  import opened MediaSystem
  import opened MediaInvariants

  /** The holders of `c` are a part of what they were, with the same backends. */
  ghost predicate HoldersWithin(s: State, s': State, c: CallId) {
    && OpHolders(s'.ops, c) <= OpHolders(s.ops, c)
    && (forall o :: o in OpHolders(s'.ops, c) ==> s'.ops[o].backend == s.ops[o].backend)
    && LiveHolders(s'.core, c) <= LiveHolders(s.core, c)
    && (forall x :: x in LiveHolders(s'.core, c) ==> s'.core.records[x].backend == s.core.records[x].backend)
  }

  ghost predicate HoldersEqual(s: State, s': State, c: CallId) {
    HoldersWithin(s, s', c) && OpHolders(s'.ops, c) == OpHolders(s.ops, c) && LiveHolders(s'.core, c) == LiveHolders(s.core, c)
  }

  /** Nobody holds a pin with no references, so such a pin may come or go. */
  lemma PinCarry(s: State, s': State, c: CallId)
    requires PinOk(s, c) && HoldersEqual(s, s', c)
    requires var pins, pins' := s.core.mgr.pins, s'.core.mgr.pins;
             && (c in pins && pins[c].refs > 0 ==> c in pins')
             && (c in pins' ==> if c in pins then pins'[c].backend == pins[c].backend && pins'[c].refs == pins[c].refs
                   else pins'[c].refs == 0)
    ensures PinOk(s', c)
  {
  }

  lemma PinLost(s: State, s': State, c: CallId, b: BackendId, active: bool, now: int)
    requires PinOk(s, c) && HoldersWithin(s, s', c) && Refs(s', c) + 1 == Refs(s, c)
    requires c in s.core.mgr.pins && s.core.mgr.pins[c].backend == b
    requires s'.core.mgr.pins == Unregister(s.core.mgr.pins, c, Some(b), active, now)
    ensures PinOk(s', c)
  {
  }

  /** An operation that gives up its client gives up exactly its own reference. */
  lemma OpLetsGo(s: State, s': State, op: OpId, active: set<CallId>, now: int)
    requires PinsOk(s) && op in s.ops && (s.ops[op].Opening? || s.ops[op].Unwinding?)
    requires s' == Done(s, op).(core := s.core.(mgr := UnpinOp(s.core.mgr, s.ops[op].callId, s.ops[op].backend, active, now)))
    ensures PinsOk(s')
  {
    forall c
      ensures PinOk(s', c)
    {
      OpLetsGoOf(s, s', op, active, now, c);
    }
  }

  lemma OpLetsGoOf(s: State, s': State, op: OpId, active: set<CallId>, now: int, c: CallId)
    requires PinOk(s, c) && op in s.ops && (s.ops[op].Opening? || s.ops[op].Unwinding?)
    requires s' == Done(s, op).(core := s.core.(mgr := UnpinOp(s.core.mgr, s.ops[op].callId, s.ops[op].backend, active, now)))
    ensures PinOk(s', c)
  {
    OneHolderLess(s, s', op, c);
    if s.ops[op].callId == Some(c) {
      PinLost(s, s', c, s.ops[op].backend, c in active, now);
      return;
    }
    PinCarry(s, s', c);
  }

  lemma OneHolderLess(s: State, s': State, op: OpId, c: CallId)
    requires op in s.ops && (s.ops[op].Opening? || s.ops[op].Unwinding?)
    requires s'.ops == s.ops - {op} && s'.core.live == s.core.live && s'.core.records == s.core.records
    ensures HoldersWithin(s, s', c)
    ensures if s.ops[op].callId == Some(c) then op in OpHolders(s.ops, c) && Refs(s', c) + 1 == Refs(s, c) else HoldersEqual(s, s', c)
  {
    FinishedHolders(s.ops, op, c);
    assert LiveHolders(s'.core, c) == LiveHolders(s.core, c);
  }

  /** The new client is one holder more of its own call and none of another. */
  lemma RegisteredHolders(s: State, op: OpId, now: int, c: CallId)
    requires StepCreate(s, RegisterPick(op, now)) != s
    ensures var s' := StepCreate(s, RegisterPick(op, now));
            && s'.core.live == s.core.live && s'.core.records == s.core.records
            && LiveHolders(s'.core, c) == LiveHolders(s.core, c) && op !in OpHolders(s.ops, c)
            && OpHolders(s'.ops, c) == OpHolders(s.ops, c) + (if op in s'.ops && s'.ops[op].callId == Some(c) then {op} else {})
            && (op in s'.ops ==> s'.ops[op] == Opening(s.ops[op].callId, s.ops[op].owner, s.ops[op].backend))
            && (forall o :: o != op && o in s'.ops ==> o in s.ops && s'.ops[o] == s.ops[o])
  {
  }

  lemma PinGained(s: State, s': State, op: OpId, c: CallId, now: int)
    requires PinOk(s, c) && op in s'.ops && op !in OpHolders(s.ops, c) && OpHolders(s'.ops, c) == OpHolders(s.ops, c) + {op}
    requires forall o :: o in OpHolders(s.ops, c) ==> s'.ops[o] == s.ops[o]
    requires LiveHolders(s'.core, c) == LiveHolders(s.core, c) && s'.core.records == s.core.records
    requires HoldsPin(s'.ops[op], c) && Register(s.core.mgr.pins, c, s'.ops[op].backend, now) == Ok(s'.core.mgr.pins)
    ensures PinOk(s', c)
  {
    assert Refs(s', c) == Refs(s, c) + 1;
  }

  lemma PinRegistered(s: State, op: OpId, now: int, c: CallId)
    requires PinOk(s, c) && StepCreate(s, RegisterPick(op, now)) != s
    ensures PinOk(StepCreate(s, RegisterPick(op, now)), c)
  {
    RegisteredHolders(s, op, now, c);
    var s' := StepCreate(s, RegisterPick(op, now));
    if op in s'.ops && s'.ops[op].callId == Some(c) {
      PinGained(s, s', op, c, now);
      return;
    }
    PinCarry(s, s', c);
  }

  lemma PinsRegister(s: State, op: OpId, now: int)
    requires PinsOk(s)
    ensures PinsOk(StepCreate(s, RegisterPick(op, now)))
  {
    if StepCreate(s, RegisterPick(op, now)) == s { return; }
    forall c
      ensures PinOk(StepCreate(s, RegisterPick(op, now)), c)
    {
      PinRegistered(s, op, now, c);
    }
  }

  lemma PinsPublish(s: State, op: OpId, ok: bool, sid: SessionId)
    requires PinsOk(s) && s.core.live <= s.core.records.Keys
    ensures PinsOk(StepCreate(s, Configured(op, ok, sid)))
  {
    var s' := StepCreate(s, Configured(op, ok, sid));
    if s' != s {
      forall c
        ensures PinOk(s', c)
      {
        assert PinOk(s, c);
        if s'.core == s.core {
          assert OpHolders(s'.ops, c) == OpHolders(s.ops, c);
        } else {
          PublishMovesHolder(s, op, sid, c);
        }
      }
    }
  }

  lemma PublishHolders(core: Core, sid: SessionId, session: Session, c: CallId)
    requires sid !in core.records && core.live <= core.records.Keys
    ensures LiveHolders(Publish(core, sid, session), c) == LiveHolders(core, c) + if session.callId == Some(c) then {sid} else {}
    ensures sid !in LiveHolders(core, c)
  {
    var l := LiveHolders(Publish(core, sid, session), c);
    forall x
      ensures x in l <==> x in LiveHolders(core, c) || (session.callId == Some(c) && x == sid)
    {
    }
  }

  lemma FinishedHolders(ops: map<OpId, Op>, op: OpId, c: CallId)
    requires op in ops
    ensures OpHolders(ops - {op}, c) == OpHolders(ops, c) - {op}
    ensures op in OpHolders(ops, c) <==> HoldsPin(ops[op], c)
  {
  }

  lemma PublishMovesHolder(s: State, op: OpId, sid: SessionId, c: CallId)
    requires PinOk(s, c) && s.core.live <= s.core.records.Keys
    requires op in s.ops && s.ops[op].Configuring? && sid !in s.core.records
    ensures var p := s.ops[op];
            PinOk(Done(s, op).(core := Publish(s.core, sid, Session(p.callId, p.backend, p.owner, map[]))), c)
  {
    var p := s.ops[op];
    var session := Session(p.callId, p.backend, p.owner, map[]);
    var s' := Done(s, op).(core := Publish(s.core, sid, session));
    PublishHolders(s.core, sid, session, c);
    FinishedHolders(s.ops, op, c);
    assert Refs(s', c) == Refs(s, c);
    assert s'.core.mgr == s.core.mgr;
  }

  lemma PinsPick(s: State, e: Event)
    requires PinsOk(s) && (e.Admit? || e.Pick? || e.SweepPins? || (e.Opened? && e.ok))
    ensures PinsOk(StepCreate(s, e))
  {
    var s' := StepCreate(s, e);
    if s' == s { return; }
    if e.Pick? {
      PickHonoursPin(s.core.mgr, e.backends, None, s.ops[e.op].callId, e.now);
    }
    forall c
      ensures PinOk(s', c)
    {
      assert PinOk(s, c);
      assert OpHolders(s'.ops, c) == OpHolders(s.ops, c);
      assert LiveHolders(s'.core, c) == LiveHolders(s.core, c);
      PinCarry(s, s', c);
    }
  }

  lemma PinsCreate(s: State, e: Event)
    requires PinsOk(s) && s.core.live <= s.core.records.Keys && CreateEvent(e)
    ensures PinsOk(StepCreate(s, e))
  {
    match e
    case RegisterPick(op, now) => PinsRegister(s, op, now);
    case Configured(op, ok, sid) => PinsPublish(s, op, ok, sid);
    case Opened(op, ok, active, now) =>
      if ok {
        PinsPick(s, e);
      } else if op in s.ops && s.ops[op].Opening? {
        OpLetsGo(s, StepCreate(s, e), op, active, now);
      }
    case Unwound(op, active, now) =>
      if op in s.ops && s.ops[op].Unwinding? {
        OpLetsGo(s, StepCreate(s, e), op, active, now);
      }
    case _ => PinsPick(s, e);
  }

  /** The sessions are untouched, whatever happened to their endpoints. */
  predicate SameSessions(c: Core, c': Core) {
    && c'.live == c.live && c'.records.Keys == c.records.Keys
    && (forall x | x in c.records :: c'.records[x].callId == c.records[x].callId && c'.records[x].backend == c.records[x].backend
                                     && c'.records[x].owner == c.records[x].owner)
  }

  /** Operations of other kinds may come and go. */
  predicate SamePinOps(s: State, s': State) {
    && (forall o | o in s.ops && Creating(s.ops[o]) :: o in s'.ops && s'.ops[o] == s.ops[o])
    && (forall o | o in s'.ops && Creating(s'.ops[o]) :: o in s.ops && s.ops[o] == s'.ops[o])
  }

  lemma SamePinHolders(s: State, s': State, c: CallId)
    requires SamePinOps(s, s')
    ensures OpHolders(s'.ops, c) == OpHolders(s.ops, c)
    ensures forall o :: o in OpHolders(s.ops, c) ==> s'.ops[o] == s.ops[o]
  {
    forall o
      ensures o in OpHolders(s'.ops, c) <==> o in OpHolders(s.ops, c)
    {
      if o in s.ops && Creating(s.ops[o]) {
      } else if o in s'.ops && Creating(s'.ops[o]) {
      }
    }
  }

  lemma PinsUntouched(s: State, s': State)
    requires PinsOk(s) && SameSessions(s.core, s'.core) && s'.core.mgr == s.core.mgr && SamePinOps(s, s')
    ensures PinsOk(s')
  {
    forall c
      ensures PinOk(s', c)
    {
      assert PinOk(s, c);
      SamePinHolders(s, s', c);
      forall x
        ensures x in LiveHolders(s'.core, c) <==> x in LiveHolders(s.core, c)
      {
      }
      assert LiveHolders(s'.core, c) == LiveHolders(s.core, c);
    }
  }

  /** A teardown gives up the reference of its session once: a second one finds it gone. */
  lemma PinsDrop(s: State, s': State, sid: SessionId, active: set<CallId>, now: int)
    requires PinsOk(s) && s.core.live <= s.core.records.Keys && SamePinOps(s, s')
    requires s'.core == Drop(s.core, sid, active, now)
    ensures PinsOk(s')
  {
    if sid !in s.core.live {
      PinsUntouched(s, s');
    } else {
      DropSessions(s.core, sid, active, now);
      forall c
        ensures PinOk(s', c)
      {
        SamePinHolders(s, s', c);
        PinDropped(s, s', sid, active, now, c);
      }
    }
  }

  lemma DroppedHolders(core: Core, core': Core, sid: SessionId, c: CallId)
    requires core.live <= core.records.Keys && SameSessions(core.(live := core.live - {sid}), core')
    ensures LiveHolders(core', c) == LiveHolders(core, c) - {sid}
    ensures forall x :: x in LiveHolders(core', c) ==> core'.records[x].backend == core.records[x].backend
  {
    var l, l' := LiveHolders(core, c), LiveHolders(core', c);
    forall x
      ensures x in l' <==> x in l && x != sid
    {
    }
  }

  lemma PinDropped(s: State, s': State, sid: SessionId, active: set<CallId>, now: int, c: CallId)
    requires PinOk(s, c) && s.core.live <= s.core.records.Keys && sid in s.core.live
    requires OpHolders(s'.ops, c) == OpHolders(s.ops, c) && forall o :: o in OpHolders(s.ops, c) ==> s'.ops[o] == s.ops[o]
    requires SameSessions(s.core.(live := s.core.live - {sid}), s'.core)
    requires s'.core.mgr == Unpin(s.core.mgr, s.core.records[sid], active, now)
    ensures PinOk(s', c)
  {
    var session := s.core.records[sid];
    DroppedHolders(s.core, s'.core, sid, c);
    if session.callId == Some(c) {
      assert sid in LiveHolders(s.core, c);
      PinLost(s, s', c, session.backend, c in active, now);
    } else {
      PinCarry(s, s', c);
    }
  }

  lemma DropSessions(c: Core, sid: SessionId, active: set<CallId>, now: int)
    requires c.live <= c.records.Keys && sid in c.live
    ensures var c' := Drop(c, sid, active, now);
            SameSessions(c.(live := c.live - {sid}), c') && c'.mgr == Unpin(c.mgr, c.records[sid], active, now)
  {
  }

  lemma {:induction false} PinsDropAll(s: State, s': State, order: seq<SessionId>, active: set<CallId>, now: int)
    requires PinsOk(s) && s.core.live <= s.core.records.Keys
    requires s' == s.(core := DropAll(s.core, order, active, now))
    ensures PinsOk(s')
    decreases |order|
  {
    if order == [] {
      PinsUntouched(s, s');
    } else {
      var s1 := s.(core := Drop(s.core, order[0], active, now));
      PinsDrop(s, s1, order[0], active, now);
      DropKeepsLiveRecorded(s.core, order[0], active, now);
      PinsDropAll(s1, s', order[1..], active, now);
    }
  }

  lemma PinsTeardown(s: State, e: Event)
    requires PinsOk(s) && s.core.live <= s.core.records.Keys && TeardownEvent(e)
    ensures PinsOk(StepTeardown(s, e))
  {
    var s' := StepTeardown(s, e);
    if s' != s {
      if e.Destroyed? {
        PinsDrop(s, s', s.ops[e.op].sid, e.active, e.now);
      } else if e.SocketClosed? || e.ShutdownDestroyed? {
        PinsDrop(s, s', e.sid, e.active, e.now);
      } else if e.OwnerLeft? {
        PinsDropAll(s, s', e.order, e.active, e.now);
      } else {
        PinsUntouched(s, s');
      }
    }
  }

  lemma TeardownLeavesPinOps(s: State, e: Event)
    requires TeardownEvent(e)
    ensures SamePinOps(s, StepTeardown(s, e))
  {
    if StepTeardown(s, e) == s { return; }
    match e {
      case BeginDestroy(_, _) => return;
      case Destroyed(_, _, _) => return;
      case SocketClosed(_, _, _) => return;
      case OwnerLeft(_, _, _, _) => return;
      case Stop => return;
      case ShutdownDestroyed(_, _, _) => return;
    }
  }

  lemma RemoveLeavesSessions(c: Core, sid: SessionId, eid: EndpointId, captured: Option<Endpoint>)
    requires sid in c.records && c.live <= c.records.Keys
    ensures SameSessions(c, Remove(c, sid, eid, captured)) && Remove(c, sid, eid, captured).mgr == c.mgr
  {
    if captured.None? || !captured.value.Bridge? || captured.value.peerSession !in c.live { return; }
  }

  lemma EndpointLeavesSessions(s: State, e: Event)
    requires EndpointEvent(e)
    ensures var s' := StepEndpoint(s, e); SameSessions(s.core, s'.core) && s'.core.mgr == s.core.mgr
  {
    if StepEndpoint(s, e) == s { return; }
    match e {
      case Added(_, _) => return;
      case Bridged(_, _, _) => return;
      case Removed(op, ok) => RemoveLeavesSessions(s.core, s.ops[op].sid, s.ops[op].eid, s.ops[op].captured); return;
      case BeginStop(_, _) => return;
      case _ => return;
    }
  }

  lemma EndpointLeavesPinOps(s: State, e: Event)
    requires EndpointEvent(e)
    ensures SamePinOps(s, StepEndpoint(s, e))
  {
    if StepEndpoint(s, e) == s { return; }
  }

  lemma PinsEndpoint(s: State, e: Event)
    requires PinsOk(s) && EndpointEvent(e)
    ensures PinsOk(StepEndpoint(s, e))
  {
    EndpointLeavesSessions(s, e);
    EndpointLeavesPinOps(s, e);
    PinsUntouched(s, StepEndpoint(s, e));
  }

  lemma PlaybackLeavesSessions(s: State, e: Event)
    requires e.PlaybackReady?
    ensures var s' := StepAction(s, e); SameSessions(s.core, s'.core) && s'.core.mgr == s.core.mgr
  {
    if StepAction(s, e) == s || e.peid.None? { return; }
  }

  lemma ActionLeavesSessions(s: State, e: Event)
    requires ActionEvent(e)
    ensures var s' := StepAction(s, e); SameSessions(s.core, s'.core) && s'.core.mgr == s.core.mgr
  {
    match e {
      case BeginGather(op, sid, eid, sensitive, play, valid) => return;
      case Enabled(_, _) => return;
      case PlaybackReady(_, _) => PlaybackLeavesSessions(s, e); return;
      case Collected(_, _) => return;
      case Resume(_) => return;
      case Disabled(_, _) => return;
      case BeginLeave(_, _, _) => return;
      case EndLeave(_) => return;
      case Forward(_, _) => return;
    }
  }

  lemma ActionLeavesPinOps(s: State, e: Event)
    requires ActionEvent(e)
    ensures SamePinOps(s, StepAction(s, e))
  {
    if e.Forward? || StepAction(s, e) == s { return; }
    OnlyThisOp(s, e);
    OwnOpIsAction(s, e);
  }

  lemma OwnOpIsAction(s: State, e: Event)
    requires ActionEvent(e) && !e.Forward? && StepAction(s, e) != s
    ensures e.op in s.ops ==> !Creating(s.ops[e.op])
    ensures e.op in StepAction(s, e).ops ==> !Creating(StepAction(s, e).ops[e.op])
  {
    match e {
      case BeginGather(op, sid, eid, sensitive, play, valid) => return;
      case Enabled(_, _) => return;
      case PlaybackReady(_, _) => return;
      case Collected(_, _) => return;
      case Resume(_) => return;
      case Disabled(_, _) => return;
      case BeginLeave(_, _, _) => return;
      case EndLeave(_) => return;
      case _ => return;
    }
  }

  lemma PinsAction(s: State, e: Event)
    requires PinsOk(s) && ActionEvent(e)
    ensures PinsOk(StepAction(s, e))
  {
    ActionLeavesSessions(s, e);
    ActionLeavesPinOps(s, e);
    PinsUntouched(s, StepAction(s, e));
  }
}
