/** Where everything comes from: in every interleaving each session, endpoint, suspended operation and gather result is
    what somebody asked for, with the values that they gave. */
module MediaOrigins {
  import opened Prelude
  import opened BackendPins
  import opened MediaCore
  import opened MediaSystem
  import opened MediaInvariants
  import opened MediaPins
  import opened MediaTheorems
  import opened MediaBridges

  /** Discovery for the creation o listed the backend, and as one that takes new sessions. */
  ghost predicate Offered(past: set<Event>, o: OpId, backend: BackendId) {
    exists bs: seq<Backend>, now: int, b: Backend ::
      Pick(o, Some(bs), now) in past && b in bs && b.id == backend && b.acceptNew != Some(false)
  }

  /** The operation o was told to add an endpoint of this kind to this session. */
  ghost predicate AddAsked(past: set<Event>, o: OpId, sid: SessionId, kind: Kind) {
    BeginAdd(o, sid, kind) in past || (kind == File && exists leave :: BeginPlayback(o, leave) in past)
  }

  /** A suspended operation works on what its request named, and has got as far as the answers since then allow: digits
      are collected only for a valid request, after the prompt if there is one, and masked if they are sensitive. */
  ghost predicate OpFrom(past: set<Event>, o: OpId, op: Op) {
    match op
    case Discovering(callId, owner) => Admit(o, callId, owner) in past
    case Picked(callId, owner, backend) => Admit(o, callId, owner) in past && Offered(past, o, backend)
    case Opening(callId, owner, backend) => Admit(o, callId, owner) in past && Offered(past, o, backend)
    case Configuring(callId, owner, backend) => Admit(o, callId, owner) in past && Offered(past, o, backend)
    case Unwinding(callId, backend) => (exists owner :: Admit(o, callId, owner) in past) && Offered(past, o, backend)
    case Adding(sid, kind) => AddAsked(past, o, sid, kind)
    case Bridging(sid, tid) => BeginBridge(o, sid, tid) in past
    case Removing(_, eid, _) => BeginStop(o, eid) in past || BeginUnbridge(o, eid) in past || BeginDiscard(o, eid) in past
    case Destroying(sid) => BeginDestroy(o, sid) in past
    case Gathering(sid, eid, sensitive, play, valid, phase) =>
      && BeginGather(o, sid, eid, sensitive, play, valid) in past
      && (sensitive && !phase.Enabling? ==> Enabled(o, true) in past)
      && (phase.Playing? ==> play) && (phase.Disabling? ==> sensitive)
      && (phase.Collecting? ==> valid && (play ==> exists p :: PlaybackReady(o, Some(p)) in past))
    case Leaving(sid, eid) => BeginLeave(o, sid, eid) in past
  }

  ghost predicate SessionFrom(past: set<Event>, x: SessionId, session: Session) {
    exists o :: Admit(o, session.callId, session.owner) in past && Offered(past, o, session.backend) && Configured(o, true, x) in past
  }

  ghost predicate EndpointFrom(past: set<Event>, eid: EndpointId, sid: SessionId, ep: Endpoint) {
    match ep
    case Plain(kind) =>
      || (exists o :: Added(o, eid) in past && AddAsked(past, o, sid, kind))
      || (kind == File && exists o :: PlaybackReady(o, Some(eid)) in past)
    case Bridge(tid, teid) =>
      exists o ::
        || (BeginBridge(o, sid, tid) in past && Event.Bridged(o, eid, teid) in past)
        || (BeginBridge(o, tid, sid) in past && Event.Bridged(o, teid, eid) in past)
  }

  /** A result is the one that ended the gather, unless it was cancelled. */
  predicate OutcomeFrom(past: set<Event>, o: OpId, run: Run) {
    run.outcome.Some? ==> run.outcome.value == Cancelled || Collected(o, run.outcome.value) in past
  }

  ghost predicate OpsFrom(past: set<Event>, s: State) {
    forall o :: o in s.ops ==> OpFrom(past, o, s.ops[o])
  }

  ghost predicate SessionsFrom(past: set<Event>, c: Core) {
    forall x :: x in c.records ==> SessionFrom(past, x, c.records[x])
  }

  ghost predicate BirthsFrom(past: set<Event>, s: State) {
    forall x :: x in s.born ==> EndpointFrom(past, x, s.born[x].0, s.born[x].1)
  }

  ghost predicate OutcomesFrom(past: set<Event>, c: Core) {
    forall o :: o in c.runs ==> OutcomeFrom(past, o, c.runs[o])
  }

  ghost predicate Sourced(past: set<Event>, s: State) {
    OpsFrom(past, s) && SessionsFrom(past, s.core) && BirthsFrom(past, s) && OutcomesFrom(past, s.core)
  }

  // ----- operations

  lemma OpStays(past: set<Event>, e: Event, o: OpId, op: Op)
    requires OpFrom(past, o, op)
    ensures OpFrom(past + {e}, o, op)
  {
  }

  /** The operation that the step touches is in order; the others wait as they did. */
  lemma OpsCarryOn(past: set<Event>, s: State, s': State, e: Event, own: OpId)
    requires OpsFrom(past, s) && OnlyOp(s, s', own) && (own in s'.ops ==> OpFrom(past + {e}, own, s'.ops[own]))
    ensures OpsFrom(past + {e}, s')
  {
    forall o | o in s'.ops
      ensures OpFrom(past + {e}, o, s'.ops[o])
    {
      if o != own { OpStays(past, e, o, s.ops[o]); }
    }
  }

  lemma SameOpsCarryOn(past: set<Event>, s: State, s': State, e: Event)
    requires OpsFrom(past, s) && forall o :: o in s'.ops ==> o in s.ops && s'.ops[o] == s.ops[o]
    ensures OpsFrom(past + {e}, s')
  {
    forall o | o in s'.ops
      ensures OpFrom(past + {e}, o, s'.ops[o])
    {
      OpStays(past, e, o, s.ops[o]);
    }
  }

  lemma PickedFrom(past: set<Event>, s: State, o: OpId, backends: Option<seq<Backend>>, now: int)
    requires OpsFrom(past, s) && o in s.ops && s.ops[o].Discovering?
    requires BackendPins.Pick(s.core.mgr, backends, None, s.ops[o].callId, now).1.Ok?
    ensures Offered(past + {Pick(o, backends, now)}, o, BackendPins.Pick(s.core.mgr, backends, None, s.ops[o].callId, now).1.value.id)
  {
    PickHonoursPin(s.core.mgr, backends, None, s.ops[o].callId, now);
    assert Pick(o, Some(backends.value), now) in past + {Pick(o, backends, now)};
  }

  lemma CreateOwnOp(past: set<Event>, s: State, e: Event)
    requires OpsFrom(past, s) && CreateEvent(e) && !e.SweepPins?
    ensures var s' := StepCreate(s, e); e.op in s'.ops ==> OpFrom(past + {e}, e.op, s'.ops[e.op])
  {
    if e.op in s.ops { OpStays(past, e, e.op, s.ops[e.op]); }
    if StepCreate(s, e) == s { return; }
    if e.Pick? && e.op in StepCreate(s, e).ops { PickedFrom(past, s, e.op, e.backends, e.now); }
  }

  lemma CreateOps(past: set<Event>, s: State, e: Event)
    requires OpsFrom(past, s) && CreateEvent(e)
    ensures OpsFrom(past + {e}, StepCreate(s, e))
  {
    if e.SweepPins? {
      SameOpsCarryOn(past, s, StepCreate(s, e), e);
      return;
    }
    CreateOwnOp(past, s, e);
    CreateOnlyOp(s, e);
    OpsCarryOn(past, s, StepCreate(s, e), e, e.op);
  }

  lemma EndpointOps(past: set<Event>, s: State, e: Event)
    requires OpsFrom(past, s) && EndpointEvent(e)
    ensures OpsFrom(past + {e}, StepEndpoint(s, e))
  {
    var s' := StepEndpoint(s, e);
    if s' == s {
      SameOpsCarryOn(past, s, s', e);
      return;
    }
    OpsCarryOn(past, s, s', e, e.op);
  }

  lemma TeardownOps(past: set<Event>, s: State, e: Event)
    requires OpsFrom(past, s) && TeardownEvent(e)
    ensures OpsFrom(past + {e}, StepTeardown(s, e))
  {
    var s' := StepTeardown(s, e);
    if s' != s && e.BeginDestroy? {
      OpsCarryOn(past, s, s', e, e.op);
      return;
    }
    SameOpsCarryOn(past, s, s', e);
  }

  lemma CollectFrom(past: set<Event>, s: State, o: OpId)
    requires o in s.ops && s.ops[o].Gathering?
    requires var g := s.ops[o];
             && BeginGather(o, g.sid, g.eid, g.sensitive, g.play, g.valid) in past && (g.sensitive ==> Enabled(o, true) in past)
             && (g.play ==> exists p :: PlaybackReady(o, Some(p)) in past)
    ensures var s' := TryCollect(s, o); o in s'.ops ==> OpFrom(past, o, s'.ops[o])
  {
    if !s.ops[o].valid || s.ops[o].eid in s.core.claims { return; }
  }

  lemma BeginOwnOp(past: set<Event>, s: State, e: Event)
    requires OpsFrom(past, s) && e.BeginGather? && StepAction(s, e) != s
    ensures var s' := StepAction(s, e); e.op in s'.ops ==> OpFrom(past + {e}, e.op, s'.ops[e.op])
  {
    if e.sensitive || e.play { return; }
    CollectFrom(past + {e}, s.(ops := s.ops[e.op := Gathering(e.sid, e.eid, false, false, e.valid, Playing)]), e.op);
  }

  lemma EnabledOwnOp(past: set<Event>, s: State, e: Event)
    requires OpsFrom(past, s) && e.Enabled? && StepAction(s, e) != s
    ensures var s' := StepAction(s, e); e.op in s'.ops ==> OpFrom(past + {e}, e.op, s'.ops[e.op])
  {
    OpStays(past, e, e.op, s.ops[e.op]);
    if !e.ok || s.ops[e.op].play { return; }
    CollectFrom(past + {e}, s, e.op);
  }

  lemma PlaybackOwnOp(past: set<Event>, s: State, e: Event)
    requires OpsFrom(past, s) && e.PlaybackReady? && StepAction(s, e) != s
    ensures var s' := StepAction(s, e); e.op in s'.ops ==> OpFrom(past + {e}, e.op, s'.ops[e.op])
  {
    OpStays(past, e, e.op, s.ops[e.op]);
    if e.peid.None? { return; }
    assert PlaybackReady(e.op, Some(e.peid.value)) in past + {e};
    CollectFrom(past + {e}, AddTo(s, s.ops[e.op].sid, e.peid.value, Plain(File)), e.op);
  }

  lemma ActionOwnOp(past: set<Event>, s: State, e: Event)
    requires OpsFrom(past, s) && ActionEvent(e) && !e.Forward?
    ensures var s' := StepAction(s, e); e.op in s'.ops ==> OpFrom(past + {e}, e.op, s'.ops[e.op])
  {
    if e.op in s.ops { OpStays(past, e, e.op, s.ops[e.op]); }
    if StepAction(s, e) == s { return; }
    match e {
      case BeginGather(_, _, _, _, _, _) => BeginOwnOp(past, s, e); return;
      case Enabled(_, _) => EnabledOwnOp(past, s, e); return;
      case PlaybackReady(_, _) => PlaybackOwnOp(past, s, e); return;
      case _ => return;
    }
  }

  lemma ActionOps(past: set<Event>, s: State, e: Event)
    requires OpsFrom(past, s) && ActionEvent(e)
    ensures OpsFrom(past + {e}, StepAction(s, e))
  {
    if e.Forward? {
      SameOpsCarryOn(past, s, StepAction(s, e), e);
      return;
    }
    ActionOwnOp(past, s, e);
    OnlyThisOp(s, e);
    OpsCarryOn(past, s, StepAction(s, e), e, e.op);
  }

  lemma StepOps(past: set<Event>, s: State, e: Event)
    requires OpsFrom(past, s)
    ensures OpsFrom(past + {e}, Step(s, e))
  {
    if CreateEvent(e) {
      CreateOps(past, s, e);
    } else if EndpointEvent(e) {
      EndpointOps(past, s, e);
    } else if TeardownEvent(e) {
      TeardownOps(past, s, e);
    } else {
      ActionOps(past, s, e);
    }
  }

  // ----- sessions

  lemma SessionStays(past: set<Event>, e: Event, x: SessionId, a: Session, b: Session)
    requires SessionFrom(past, x, a) && b.callId == a.callId && b.owner == a.owner && b.backend == a.backend
    ensures SessionFrom(past + {e}, x, b)
  {
    var o :| Admit(o, a.callId, a.owner) in past && Offered(past, o, a.backend) && Configured(o, true, x) in past;
    assert Offered(past + {e}, o, b.backend);
  }

  lemma PublishedFrom(past: set<Event>, s: State, e: Event)
    requires OpsFrom(past, s) && e.Configured? && e.ok && !s.stopping && StepCreate(s, e) != s
    ensures e.sid in StepCreate(s, e).core.records && SessionFrom(past + {e}, e.sid, StepCreate(s, e).core.records[e.sid])
  {
    OpStays(past, e, e.op, s.ops[e.op]);
  }

  lemma StepNewRecords(s: State, e: Event, x: SessionId)
    requires x !in s.core.records && x in Step(s, e).core.records
    ensures e.Configured? && e.ok && !s.stopping && e.sid == x && StepCreate(s, e) != s
  {
    if CreateEvent(e) {
      if !(e.Configured? && e.ok && !s.stopping) { CreateMovesMgrOnly(s, e); }
      return;
    }
    if EndpointEvent(e) {
      EndpointLeavesSessions(s, e);
      return;
    }
    if TeardownEvent(e) {
      TeardownSameRecords(s, e);
      return;
    }
    ActionLeavesSessions(s, e);
  }

  lemma TeardownSameRecords(s: State, e: Event)
    requires TeardownEvent(e)
    ensures StepTeardown(s, e).core.records.Keys == s.core.records.Keys
  {
    if StepTeardown(s, e) == s { return; }
    if e.OwnerLeft? { DropAllLive(s.core, e.order, e.active, e.now); }
  }

  lemma StepSessions(past: set<Event>, s: State, e: Event)
    requires OpsFrom(past, s) && SessionsFrom(past, s.core)
    ensures SessionsFrom(past + {e}, Step(s, e).core)
  {
    StepKeepsRecords(s, e);
    var c' := Step(s, e).core;
    forall x | x in c'.records
      ensures SessionFrom(past + {e}, x, c'.records[x])
    {
      if x in s.core.records {
        SessionStays(past, e, x, s.core.records[x], c'.records[x]);
      } else {
        StepNewRecords(s, e, x);
        PublishedFrom(past, s, e);
      }
    }
  }

  // ----- endpoints

  lemma EndpointStays(past: set<Event>, e: Event, eid: EndpointId, sid: SessionId, ep: Endpoint)
    requires EndpointFrom(past, eid, sid, ep)
    ensures EndpointFrom(past + {e}, eid, sid, ep)
  {
    match ep {
      case Plain(kind) =>
        if o :| Added(o, eid) in past && AddAsked(past, o, sid, kind) {
          assert Added(o, eid) in past + {e} && AddAsked(past + {e}, o, sid, kind);
          return;
        }
      case Bridge(_, _) => return;
    }
  }

  /** Endpoints are born by the three answers that bring them. */
  ghost predicate BornBy(s: State, s': State, e: Event, x: EndpointId)
    requires x in s'.born
  {
    || (x in s.born && s'.born[x] == s.born[x])
    || (e.Added? && x == e.eid && e.op in s.ops && s.ops[e.op].Adding? && s'.born[x] == (s.ops[e.op].sid, Plain(s.ops[e.op].kind)))
    || (e.PlaybackReady? && e.peid == Some(x) && s'.born[x].1 == Plain(File))
    || (e.Bridged? && e.op in s.ops && s.ops[e.op].Bridging?
        && var (sid, tid) := (s.ops[e.op].sid, s.ops[e.op].tid);
        (x == e.eid && s'.born[x] == (sid, Bridge(tid, e.teid))) || (x == e.teid && s'.born[x] == (tid, Bridge(sid, e.eid))))
  }

  lemma ActionBirths(s: State, e: Event, x: EndpointId)
    requires ActionEvent(e) && x in StepAction(s, e).born
    ensures BornBy(s, StepAction(s, e), e, x)
  {
    match e {
      case BeginGather(_, _, _, _, _, _) => return;
      case Enabled(_, _) => return;
      case PlaybackReady(_, _) => return;
      case _ => return;
    }
  }

  lemma EndpointBirths(s: State, e: Event, x: EndpointId)
    requires EndpointEvent(e) && x in StepEndpoint(s, e).born
    ensures BornBy(s, StepEndpoint(s, e), e, x)
  {
    if StepEndpoint(s, e) == s { return; }
    match e {
      case Added(_, _) => return;
      case Bridged(_, _, _) => return;
      case _ => return;
    }
  }

  lemma CreateBirths(s: State, e: Event)
    requires CreateEvent(e)
    ensures StepCreate(s, e).born == s.born
  {
  }

  lemma TeardownBirths(s: State, e: Event)
    requires TeardownEvent(e)
    ensures StepTeardown(s, e).born == s.born
  {
  }

  lemma StepBirth(s: State, e: Event, x: EndpointId)
    requires x in Step(s, e).born
    ensures BornBy(s, Step(s, e), e, x)
  {
    if CreateEvent(e) {
      CreateBirths(s, e);
    } else if EndpointEvent(e) {
      EndpointBirths(s, e, x);
    } else if TeardownEvent(e) {
      TeardownBirths(s, e);
    } else {
      ActionBirths(s, e, x);
    }
  }

  lemma BirthFrom(past: set<Event>, s: State, s': State, e: Event, x: EndpointId)
    requires OpsFrom(past, s) && BirthsFrom(past, s) && x in s'.born && BornBy(s, s', e, x)
    ensures EndpointFrom(past + {e}, x, s'.born[x].0, s'.born[x].1)
  {
    if x in s.born && s'.born[x] == s.born[x] {
      EndpointStays(past, e, x, s.born[x].0, s.born[x].1);
      return;
    }
    if e.Added? {
      assert AddAsked(past + {e}, e.op, s.ops[e.op].sid, s.ops[e.op].kind);
      return;
    }
    if e.PlaybackReady? {
      assert PlaybackReady(e.op, Some(x)) in past + {e};
      return;
    }
    var (sid, tid) := (s.ops[e.op].sid, s.ops[e.op].tid);
    assert BeginBridge(e.op, sid, tid) in past + {e} && Event.Bridged(e.op, e.eid, e.teid) in past + {e};
  }

  lemma StepBirths(past: set<Event>, s: State, e: Event)
    requires OpsFrom(past, s) && BirthsFrom(past, s)
    ensures BirthsFrom(past + {e}, Step(s, e))
  {
    forall x | x in Step(s, e).born
      ensures EndpointFrom(past + {e}, x, Step(s, e).born[x].0, Step(s, e).born[x].1)
    {
      StepBirth(s, e, x);
      BirthFrom(past, s, Step(s, e), e, x);
    }
  }

  // ----- results

  /** A run has the result it had, or a cancellation, or the one that the event brings. */
  ghost predicate OutcomesMove(c: Core, c': Core, e: Event) {
    forall o :: o in c'.runs ==>
                  || c'.runs[o].outcome.None? || c'.runs[o].outcome == Some(Cancelled)
                  || (o in c.runs && c'.runs[o].outcome == c.runs[o].outcome)
                  || (e.Collected? && e.op == o && c'.runs[o].outcome == Some(e.reason))
  }

  lemma {:induction false} DropAllOutcomes(c: Core, order: seq<SessionId>, active: set<CallId>, now: int, e: Event)
    requires c.live <= c.records.Keys
    ensures OutcomesMove(c, DropAll(c, order, active, now), e)
    decreases |order|
  {
    if order == [] { return; }
    DropKeepsLiveRecorded(c, order[0], active, now);
    DropAllOutcomes(Drop(c, order[0], active, now), order[1..], active, now, e);
  }

  lemma TeardownOutcomes(s: State, e: Event)
    requires TeardownEvent(e)
    ensures OutcomesMove(s.core, StepTeardown(s, e).core, e)
  {
    if StepTeardown(s, e) == s { return; }
    if e.OwnerLeft? { DropAllOutcomes(s.core, e.order, e.active, e.now, e); }
  }

  lemma ActionOutcomes(s: State, e: Event)
    requires ActionEvent(e)
    ensures OutcomesMove(s.core, StepAction(s, e).core, e)
  {
    if StepAction(s, e) == s { return; }
    match e {
      case BeginGather(_, _, _, _, _, _) => return;
      case Enabled(_, _) => return;
      case PlaybackReady(_, _) => return;
      case _ => return;
    }
  }

  lemma CreateOutcomes(s: State, e: Event)
    requires CreateEvent(e)
    ensures OutcomesMove(s.core, StepCreate(s, e).core, e)
  {
    CreateGrows(s, e, None);
  }

  lemma EndpointOutcomes(s: State, e: Event)
    requires EndpointEvent(e)
    ensures OutcomesMove(s.core, StepEndpoint(s, e).core, e)
  {
    if StepEndpoint(s, e) == s { return; }
    match e {
      case Bridged(_, _, _) => return;
      case Removed(_, _) => return;
      case BeginStop(_, _) => return;
      case _ => return;
    }
  }

  lemma StepOutcomes(s: State, e: Event)
    ensures OutcomesMove(s.core, Step(s, e).core, e)
  {
    if CreateEvent(e) {
      CreateOutcomes(s, e);
    } else if EndpointEvent(e) {
      EndpointOutcomes(s, e);
    } else if TeardownEvent(e) {
      TeardownOutcomes(s, e);
    } else {
      ActionOutcomes(s, e);
    }
  }

  // ----- every run

  lemma SourcedStep(past: set<Event>, s: State, e: Event)
    requires Sourced(past, s)
    ensures Sourced(past + {e}, Step(s, e))
  {
    StepOps(past, s, e);
    StepSessions(past, s, e);
    StepBirths(past, s, e);
    StepOutcomes(s, e);
  }

  ghost function Past(events: seq<Event>): set<Event> {
    set e | e in events
  }

  lemma {:induction false} SourcedRun(events: seq<Event>)
    ensures Sourced(Past(events), StateAfter(events))
    decreases |events|
  {
    if events == [] { return; }
    var init, last := events[..|events| - 1], events[|events| - 1];
    SourcedRun(init);
    SourcedStep(Past(init), StateAfter(init), last);
    assert Past(events) == Past(init) + {last};
  }

  /** Every session there ever was comes from one creation: its call and its owner are those that the request named,
      its backend is one that discovery offered to that creation, and rtpbridge has confirmed it. */
  lemma SessionsAreAsRequested(events: seq<Event>, x: SessionId)
    requires x in StateAfter(events).core.records
    ensures var session := StateAfter(events).core.records[x];
            exists o ::
              && Admit(o, session.callId, session.owner) in Past(events) && Configured(o, true, x) in Past(events)
              && Offered(Past(events), o, session.backend)
  {
    SourcedRun(events);
    assert SessionFrom(Past(events), x, StateAfter(events).core.records[x]);
  }

  /** Every endpoint is of the kind that was asked for in its session, a prompt, or an end of a bridge between the two
      sessions that were asked for. */
  lemma EndpointsAreAsRequested(events: seq<Event>, sid: SessionId, eid: EndpointId)
    requires Has(StateAfter(events).core, sid, eid)
    ensures EndpointFrom(Past(events), eid, sid, StateAfter(events).core.records[sid].endpoints[eid])
  {
    SourcedRun(events);
    RunInv(events);
    assert EndpointFrom(Past(events), eid, StateAfter(events).born[eid].0, StateAfter(events).born[eid].1);
  }

  /** While digits are collected, the request was a valid one for this endpoint, its prompt has started if it has one,
      and rtpbridge has confirmed sensitive mode if it is sensitive. */
  lemma CollectsAsRequested(events: seq<Event>, o: OpId)
    requires InPhase(StateAfter(events), o, Collecting)
    ensures var g := StateAfter(events).ops[o];
            && BeginGather(o, g.sid, g.eid, g.sensitive, g.play, true) in Past(events)
            && (g.sensitive ==> Enabled(o, true) in Past(events))
            && (g.play ==> exists p :: PlaybackReady(o, Some(p)) in Past(events))
  {
    SourcedRun(events);
    assert OpFrom(Past(events), o, StateAfter(events).ops[o]);
  }

  /** A gather has the result that ended it, or was cancelled. */
  lemma ResultsAreAsReported(events: seq<Event>, o: OpId)
    requires o in StateAfter(events).core.runs && StateAfter(events).core.runs[o].outcome.Some?
    ensures var reason := StateAfter(events).core.runs[o].outcome.value;
            reason == Cancelled || Collected(o, reason) in Past(events)
  {
    SourcedRun(events);
  }

  /** What ends an open gather is its result, which releases the endpoint; later ends change nothing. */
  lemma EndingResolves(events: seq<Event>, o: OpId, reason: Reason)
    requires InPhase(StateAfter(events), o, Collecting)
    ensures var s, s' := StateAfter(events), Step(StateAfter(events), Collected(o, reason));
            && o in s.core.runs && o in s'.core.runs && s'.core.runs[o].released
            && s'.core.runs[o].outcome == (if s.core.runs[o].outcome.None? then Some(reason) else s.core.runs[o].outcome)
            && (forall e :: e in s'.core.claims ==> s'.core.claims[e] != o)
  {
    RunInv(events);
    var s := StateAfter(events);
    assert OpOk(s, o, s.ops[o]);
    EndingOf(s, o, reason);
  }

  lemma EndingOf(s: State, o: OpId, reason: Reason)
    requires InPhase(s, o, Collecting) && o in s.core.runs && (s.core.runs[o].outcome.Some? ==> s.core.runs[o].released)
    requires forall e :: e in s.core.claims && s.core.claims[e] == o ==> s.core.runs[o].endpoint == e && !s.core.runs[o].released
    ensures var s' := Step(s, Collected(o, reason));
            && o in s'.core.runs && s'.core.runs[o].released
            && s'.core.runs[o].outcome == (if s.core.runs[o].outcome.None? then Some(reason) else s.core.runs[o].outcome)
            && (forall e :: e in s'.core.claims ==> s'.core.claims[e] != o)
  {
    assert Step(s, Collected(o, reason)) == s.(core := Finish(s.core, o, reason));
  }
}
