/** Bridges never cross rtpbridge backends: in every interleaving the two ends of a bridge, and the two sessions of a
    bridge request under way, are on one backend. */
module MediaBridges {
  import opened Prelude
  import opened BackendPins
  import opened MediaCore
  import opened MediaSystem
  import opened MediaInvariants
  import opened MediaPins
  import opened MediaTheorems

  /** Records stay, with the call, the backend and the owner of their session. */
  ghost predicate RecordsKept(c: Core, c': Core) {
    forall x :: x in c.records ==>
                  && x in c'.records && c'.records[x].callId == c.records[x].callId
                  && c'.records[x].backend == c.records[x].backend && c'.records[x].owner == c.records[x].owner
  }

  lemma DropKeepsRecords(c: Core, sid: SessionId, active: set<CallId>, now: int)
    requires c.live <= c.records.Keys
    ensures RecordsKept(c, Drop(c, sid, active, now))
  {
    if sid in c.live { DropSessions(c, sid, active, now); }
  }

  lemma {:induction false} DropAllKeepsRecords(c: Core, order: seq<SessionId>, active: set<CallId>, now: int)
    requires c.live <= c.records.Keys
    ensures RecordsKept(c, DropAll(c, order, active, now))
    decreases |order|
  {
    if order == [] { return; }
    DropKeepsLiveRecorded(c, order[0], active, now);
    DropKeepsRecords(c, order[0], active, now);
    DropAllKeepsRecords(Drop(c, order[0], active, now), order[1..], active, now);
  }

  lemma TeardownKeepsRecords(s: State, e: Event)
    requires TeardownEvent(e)
    ensures RecordsKept(s.core, StepTeardown(s, e).core)
  {
    if StepTeardown(s, e) == s { return; }
    match e {
      case BeginDestroy(_, _) => return;
      case Destroyed(op, active, now) => DropKeepsRecords(s.core, s.ops[op].sid, active, now); return;
      case SocketClosed(sid, active, now) => DropKeepsRecords(s.core, sid, active, now); return;
      case OwnerLeft(_, order, active, now) => DropAllKeepsRecords(s.core, order, active, now); return;
      case Stop => return;
      case ShutdownDestroyed(sid, active, now) => DropKeepsRecords(s.core, sid, active, now); return;
    }
  }

  lemma StepKeepsRecords(s: State, e: Event)
    ensures RecordsKept(s.core, Step(s, e).core)
  {
    if CreateEvent(e) {
      if !(e.Configured? && e.ok && !s.stopping) { CreateMovesMgrOnly(s, e); }
      return;
    }
    if EndpointEvent(e) {
      EndpointLeavesSessions(s, e);
      return;
    }
    if TeardownEvent(e) {
      TeardownKeepsRecords(s, e);
      return;
    }
    ActionLeavesSessions(s, e);
  }

  // ----- the invariant

  predicate SameBackend(c: Core, a: SessionId, b: SessionId) {
    a in c.records && b in c.records && c.records[a].backend == c.records[b].backend
  }

  ghost predicate OneBackend(s: State) {
    && (forall o :: o in s.ops && s.ops[o].Bridging? ==> SameBackend(s.core, s.ops[o].sid, s.ops[o].tid))
    && (forall e :: e in s.born && s.born[e].1.Bridge? ==> SameBackend(s.core, s.born[e].0, s.born[e].1.peerSession))
  }

  /** A bridge request or a bridge endpoint that is new was admitted, or comes from an admitted request. */
  ghost predicate NewBridgesOk(s: State, s': State, e: Event) {
    && (forall o :: o in s'.ops && s'.ops[o].Bridging? ==>
                      || (o in s.ops && s.ops[o] == s'.ops[o])
                      || (e.BeginBridge? && s'.ops[o] == Bridging(e.sid, e.tid) && BridgeRefusal(s.core, e.sid, e.tid).None?))
    && (forall x :: x in s'.born && s'.born[x].1.Bridge? ==>
                      || (x in s.born && s.born[x] == s'.born[x])
                      || (e.Bridged? && e.op in s.ops && s.ops[e.op].Bridging?
                          && var p := s.ops[e.op];
                          (s'.born[x].0 == p.sid && s'.born[x].1.peerSession == p.tid)
                          || (s'.born[x].0 == p.tid && s'.born[x].1.peerSession == p.sid)))
  }

  lemma EndpointNewBridges(s: State, e: Event)
    requires EndpointEvent(e)
    ensures NewBridgesOk(s, StepEndpoint(s, e), e)
  {
    if StepEndpoint(s, e) == s { return; }
    match e {
      case Bridged(_, _, _) => return;
      case Added(_, _) => return;
      case _ => return;
    }
  }

  lemma ActionNewBridges(s: State, e: Event)
    requires ActionEvent(e)
    ensures NewBridgesOk(s, StepAction(s, e), e)
  {
    if StepAction(s, e) == s || e.Forward? { return; }
    OnlyThisOp(s, e);
    match e {
      case BeginGather(_, _, _, _, _, _) => return;
      case Enabled(_, _) => return;
      case PlaybackReady(_, _) => return;
      case _ => return;
    }
  }

  lemma CreateNewBridges(s: State, e: Event)
    requires CreateEvent(e)
    ensures NewBridgesOk(s, StepCreate(s, e), e)
  {
    if StepCreate(s, e) == s || e.SweepPins? { return; }
    CreateOnlyOp(s, e);
  }

  lemma TeardownNewBridges(s: State, e: Event)
    requires TeardownEvent(e)
    ensures NewBridgesOk(s, StepTeardown(s, e), e)
  {
    if StepTeardown(s, e) == s { return; }
  }

  lemma StepNewBridges(s: State, e: Event)
    ensures NewBridgesOk(s, Step(s, e), e)
  {
    if CreateEvent(e) {
      CreateNewBridges(s, e);
      return;
    }
    if EndpointEvent(e) {
      EndpointNewBridges(s, e);
      return;
    }
    if TeardownEvent(e) {
      TeardownNewBridges(s, e);
      return;
    }
    ActionNewBridges(s, e);
  }

  lemma OneBackendStep(s: State, e: Event)
    requires OneBackend(s)
    ensures OneBackend(Step(s, e))
  {
    StepKeepsRecords(s, e);
    StepNewBridges(s, e);
  }

  lemma {:induction false} OneBackendRun(events: seq<Event>)
    ensures OneBackend(StateAfter(events))
    decreases |events|
  {
    if events == [] { return; }
    OneBackendRun(events[..|events| - 1]);
    OneBackendStep(StateAfter(events[..|events| - 1]), events[|events| - 1]);
  }

  /** In every run the two sessions of a bridge request that waits for rtpbridge are on one backend, and so are the
      sessions of the two ends of every live bridge. */
  lemma {:induction false} BridgesStayOnOneBackend(events: seq<Event>)
    ensures var s := StateAfter(events);
            && (forall o :: o in s.ops && s.ops[o].Bridging? ==> SameBackend(s.core, s.ops[o].sid, s.ops[o].tid))
            && (forall sid, eid :: Has(s.core, sid, eid) && s.core.records[sid].endpoints[eid].Bridge? ==>
                                     SameBackend(s.core, sid, s.core.records[sid].endpoints[eid].peerSession))
  {
    OneBackendRun(events);
    RunInv(events);
  }

  /** A bridge request goes out exactly when both sessions are live and distinct and their backends agree. */
  lemma BridgeStartsIff(events: seq<Event>, op: OpId, sid: SessionId, tid: SessionId)
    requires Fresh(StateAfter(events), op)
    ensures var s, s' := StateAfter(events), Step(StateAfter(events), BeginBridge(op, sid, tid));
            op in s'.ops <==> sid in s.core.live && tid in s.core.live && sid != tid && SameBackend(s.core, sid, tid)
  {
    RunInv(events);
  }

  /** A gather gets under way exactly when its endpoint is in the live session and no sensitive gather is; besides, a
      sensitive one needs the endpoint free at once, and so does one without a prompt, which also needs to be valid. */
  lemma GatherStartsIff(
    events: seq<Event>, op: OpId, sid: SessionId, eid: EndpointId, sensitive: bool, play: bool, valid: bool)
    requires Fresh(StateAfter(events), op)
    ensures var s, s' := StateAfter(events), Step(StateAfter(events), BeginGather(op, sid, eid, sensitive, play, valid));
            op in s'.ops <==> && sid in s.core.live && Has(s.core, sid, eid) && eid !in s.core.sensitive
                              && (if sensitive then eid !in s.core.claims else play || (valid && eid !in s.core.claims))
  {
    GatherStarts(StateAfter(events), op, sid, eid, sensitive, play, valid);
    if sid in StateAfter(events).core.live { IndexIsInverse(events, sid, eid); }
  }

  lemma GatherStarts(s: State, op: OpId, sid: SessionId, eid: EndpointId, sensitive: bool, play: bool, valid: bool)
    requires Fresh(s, op)
    ensures op in Step(s, BeginGather(op, sid, eid, sensitive, play, valid)).ops
       <==> && InSession(s.core, sid, eid) && eid !in s.core.sensitive
            && (if sensitive then eid !in s.core.claims else play || (valid && eid !in s.core.claims))
  {
  }

  /** A leave-message gets under way exactly when its endpoint is in the live session and free. */
  lemma LeaveStartsIff(events: seq<Event>, op: OpId, sid: SessionId, eid: EndpointId)
    requires Fresh(StateAfter(events), op)
    ensures var s, s' := StateAfter(events), Step(StateAfter(events), BeginLeave(op, sid, eid));
            op in s'.ops <==> sid in s.core.live && Has(s.core, sid, eid) && eid !in s.core.claims
  {
    LeaveStarts(StateAfter(events), op, sid, eid);
    if sid in StateAfter(events).core.live { IndexIsInverse(events, sid, eid); }
  }

  lemma LeaveStarts(s: State, op: OpId, sid: SessionId, eid: EndpointId)
    requires Fresh(s, op)
    ensures op in Step(s, BeginLeave(op, sid, eid)).ops <==> InSession(s.core, sid, eid) && eid !in s.core.claims
  {
  }

  /** A request for two live sessions on different backends starts nothing, in any state of any run. */
  lemma CrossBackendIsRefused(events: seq<Event>, op: OpId, sid: SessionId, tid: SessionId)
    requires var c := StateAfter(events).core; sid in c.records && tid in c.records && c.records[sid].backend != c.records[tid].backend
    ensures Step(StateAfter(events), BeginBridge(op, sid, tid)) == StateAfter(events)
  {
    OneBackendRun(events + [BeginBridge(op, sid, tid)]);
    RunSnoc(events, BeginBridge(op, sid, tid));
  }
}
