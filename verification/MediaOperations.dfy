/** The asynchronous methods of the media session service (src/media-session-service.ts): the service object together
    with the calls of it that are suspended at an await. Each method here is one synchronous stretch of the source,
    built from the helpers of the service. It takes the step of MediaSystem that its contract names, and begins and
    finishes the operations that `track` would. */
module MediaOperations {
  import opened Prelude
  import opened BackendPins
  import opened MediaCore
  import opened MediaSessionService
  import opened Tracking
  import opened MediaTracking
  import GatewayLifecycle
  import M = MediaSystem
  import I = MediaInvariants
  import MT = MediaTheorems

  // ----- what holds between two operations

  /** The open operations are the session creations under way. */
  ghost predicate Counted(open: set<GatewayLifecycle.Token>, s: M.State) {
    && GatewayLifecycle.PassingWork !in open
    && forall op :: GatewayLifecycle.SessionWork(op) in open <==> op in s.ops && M.Creating(s.ops[op])
  }

  ghost predicate Sound(life: GatewayLifecycle.Lifecycle, s: M.State) {
    GatewayLifecycle.Inv(life) && Counted(life.open, s) && s.stopping == life.isStopping
  }

  lemma MarkCounted(life: GatewayLifecycle.Lifecycle, s: M.State, s': M.State, marks: seq<Mark>)
    requires Counted(life.open, s) && MediaMarked(s, s', marks) && |marks| == 1
    ensures marks[0].token in life.open <==> marks[0].Ends?
  {
    var w := marks[0].token;
    assert Moved(marks, w, MediaBusy(s, w), MediaBusy(s', w));
    assert MediaBusy(s, w) || MediaBusy(s', w);
    assert w == GatewayLifecycle.SessionWork(w.op);
  }

  lemma CountedFollows(life: GatewayLifecycle.Lifecycle, s: M.State, s': M.State, marks: seq<Mark>, open': set<GatewayLifecycle.Token>)
    requires Counted(life.open, s) && MediaMarked(s, s', marks) && forall w :: Moved(marks, w, w in life.open, w in open')
    ensures Counted(open', s')
  {
    forall op
      ensures GatewayLifecycle.SessionWork(op) in open' <==> op in s'.ops && M.Creating(s'.ops[op])
    {
      var w := GatewayLifecycle.SessionWork(op);
      assert Moved(marks, w, w in life.open, w in open');
      assert Moved(marks, w, MediaBusy(s, w), MediaBusy(s', w));
    }
    assert Moved(marks, GatewayLifecycle.PassingWork, GatewayLifecycle.PassingWork in life.open, GatewayLifecycle.PassingWork in open');
  }

  lemma StepKeeps(life: GatewayLifecycle.Lifecycle, s: M.State, e: M.Event)
    requires I.Inv(s) && Sound(life, s) && !e.Stop?
    ensures Sound(Track(life, MediaMarks(s, e)), M.Step(s, e))
  {
    var marks := MediaMarks(s, e);
    MediaMarksRight(s, e);
    MediaStopping(s, e);
    if |marks| == 1 {
      MarkCounted(life, s, M.Step(s, e), marks);
      if marks[0].Begins? { OnlyAdmitsBegin(s, e); }
    }
    TrackMoves(life, marks);
    CountedFollows(life, s, M.Step(s, e), marks, Track(life, marks).open);
  }

  // ----- the run

  /** s is the state after the run. */
  ghost predicate Reached(events: seq<M.Event>, s: M.State) {
    s == M.StateAfter(events)
  }

  /** The run can go on with e. */
  lemma GoesOn(events: seq<M.Event>, life: GatewayLifecycle.Lifecycle, s: M.State, e: M.Event)
    requires Reached(events, s) && Sound(life, s) && !e.Stop?
    ensures Reached(events + [e], M.Step(s, e)) && Sound(Track(life, MediaMarks(s, e)), M.Step(s, e))
  {
    MT.RunInv(events);
    MT.RunSnoc(events, e);
    StepKeeps(life, s, e);
  }

  lemma StopGoesOn(events: seq<M.Event>, s: M.State)
    requires Reached(events, s) && !s.stopping
    ensures M.Step(s, M.Stop) == s.(stopping := true, closing := s.core.live) && Reached(events + [M.Stop], M.Step(s, M.Stop))
  {
    MT.RunInv(events);
    MT.RunSnoc(events, M.Stop);
  }

  // ----- what some of the steps do, for the methods that take them

  lemma RemovedStep(s: M.State, op: OpId, ok: bool)
    requires op in s.ops && s.ops[op].Removing? && s.ops[op].sid in s.core.records && s.core.live <= s.core.records.Keys
    ensures var p := s.ops[op];
            M.Step(s, M.Removed(op, ok))
            == M.Done(s, op).(core := if !ok && p.sid in s.core.live && Has(s.core, p.sid, p.eid) then s.core
            else Remove(s.core, p.sid, p.eid, p.captured))
  {
  }

  lemma GatherStep(s: M.State, e: M.Event)
    ensures e.BeginGather? && e.sensitive && M.Fresh(s, e.op) && M.InSession(s.core, e.sid, e.eid)
            && e.eid !in s.core.sensitive && e.eid !in s.core.claims ==>
              M.Step(s, e) == s.(core := s.core.(sensitive := s.core.sensitive + {e.eid}),
              ops := s.ops[e.op := M.Gathering(e.sid, e.eid, true, e.play, e.valid, M.Enabling)])
    ensures e.Enabled? && M.InPhase(s, e.op, M.Enabling) ==>
              M.Step(s, e) == if !e.ok then M.Done(s, e.op).(core := s.core.(sensitive := s.core.sensitive - {s.ops[e.op].eid}))
              else if s.ops[e.op].play then s.(ops := s.ops[e.op := s.ops[e.op].(phase := M.Playing)])
              else M.TryCollect(s, e.op)
    ensures e.Collected? && M.InPhase(s, e.op, M.Collecting) && e.op in s.core.runs ==>
              M.Step(s, e) == s.(core := Finish(s.core, e.op, e.reason))
  {
  }

  lemma LeaveStep(s: M.State, e: M.Event)
    ensures e.BeginLeave? && M.Fresh(s, e.op) && M.InSession(s.core, e.sid, e.eid) && e.eid !in s.core.claims ==>
              M.Step(s, e) == s.(core := Claim(s.core, e.op, e.eid, LeaveMessage), ops := s.ops[e.op := M.Leaving(e.sid, e.eid)])
    ensures e.EndLeave? && e.op in s.ops && s.ops[e.op].Leaving? && e.op in s.core.runs ==>
              M.Step(s, e) == M.Done(s, e.op).(core := Release(s.core, e.op))
  {
  }

  // ----- the object

  class MediaOperations {
    const service: MediaSessionService
    const lifecycle: GatewayLifecycle.GatewayLifecycle
    /** The suspended calls with what they captured, what a shutdown still waits for, and the events sent. */
    var ops: map<OpId, M.Op>
    var closing: set<SessionId>
    var published: seq<(ConnectionId, BridgeEvent)>
    /** The run of the step system so far, and the state that it has led to. */
    ghost var events: seq<M.Event>
    ghost var state: M.State

    /** The tables are those of the state. */
    ghost predicate Tabled()
      reads this, service, service.known.Values, service.mediaServers
    {
      && service.Valid() && service.Model() == state.core
      && ops == state.ops && closing == state.closing && published == state.published
    }

    /** Between any two stretches the tables are those after a run, so what holds in every run holds of them. */
    ghost predicate Valid()
      reads this, service, service.known.Values, service.mediaServers, lifecycle
    {
      Tabled() && Reached(events, state) && Sound(lifecycle.Model(), state)
    }

    constructor (service: MediaSessionService, lifecycle: GatewayLifecycle.GatewayLifecycle)
      requires service.Valid() && service.Model() == EMPTY
      requires lifecycle.Valid() && !lifecycle.isStopping && Counted(lifecycle.unfinished, M.INIT)
      ensures Valid() && this.service == service && this.lifecycle == lifecycle && state == M.INIT
    {
      this.service, this.lifecycle := service, lifecycle;
      ops, closing, published, state, events := map[], {}, [], M.INIT, [];
      new;
    }

    /** The tables are those of s, which the run has reached with e. */
    ghost method Record(e: M.Event, s: M.State)
      requires Reached(events + [e], s) && Sound(lifecycle.Model(), s)
      requires service.Valid() && service.Model() == s.core && ops == s.ops && closing == s.closing && published == s.published
      modifies this`state, this`events
      ensures Valid() && state == s
    {
      state, events := s, events + [e];
    }

    /** A call suspends, or goes on to its next await. */
    method Suspend(op: OpId, frame: M.Op)
      requires service.Valid()
      modifies this`ops
      ensures service.Valid() && service.Model() == old(service.Model()) && ops == old(ops)[op := frame]
    {
      ops := ops[op := frame];
    }

    method Settle(sessionId: SessionId)
      requires service.Valid()
      modifies this`closing
      ensures service.Valid() && service.Model() == old(service.Model()) && closing == old(closing) - {sessionId}
    {
      closing := closing - {sessionId};
    }

    method Send(event: (ConnectionId, BridgeEvent))
      requires service.Valid()
      modifies this`published
      ensures service.Valid() && service.Model() == old(service.Model()) && published == old(published) + [event]
    {
      published := published + [event];
    }

    /** A call returns or throws. */
    method Leave(op: OpId)
      requires service.Valid()
      modifies this`ops
      ensures service.Valid() && service.Model() == old(service.Model()) && ops == old(ops) - {op}
    {
      ops := ops - {op};
    }

    // ----- session creation

    /** The creation is admitted, and its backends are going to be discovered; a stopping gateway admits none. */
    method CreateSession(op: OpId, callId: Option<CallId>, owner: Option<ConnectionId>) returns (admitted: bool)
      requires Valid() && op !in ops && op !in service.actionRuns
      modifies this`ops, this`state, this`events, lifecycle`pendingOperations, lifecycle`unfinished
      ensures Valid() && (admitted <==> !lifecycle.isStopping)
      ensures state == if admitted then M.Step(old(state), M.Admit(op, callId, owner)) else old(state)
    {
      if lifecycle.isStopping { return false; }
      GoesOn(events, lifecycle.Model(), state, M.Admit(op, callId, owner));
      BeginCreation(op, M.Discovering(callId, owner));
      Record(M.Admit(op, callId, owner), M.Step(state, M.Admit(op, callId, owner)));
      return true;
    }

    /** Discovery has answered: the rest of pickBackend, whether or not the gateway drains or stops by now. */
    method BackendsResolved(op: OpId, backends: Option<seq<Backend>>, now: int) returns (picked: bool)
      requires Valid() && op in ops && ops[op].Discovering?
      modifies this`ops, this`state, this`events, service.mediaServers, lifecycle`pendingOperations, lifecycle`unfinished
      ensures Valid() && state == M.Step(old(state), M.Pick(op, backends, now)) && (picked <==> op in ops)
    {
      var p := ops[op];
      GoesOn(events, lifecycle.Model(), state, M.Pick(op, backends, now));
      picked := PickFor(op, p, backends, now);
      Record(M.Pick(op, backends, now), M.Step(state, M.Pick(op, backends, now)));
    }

    method PickFor(op: OpId, p: M.Op, backends: Option<seq<Backend>>, now: int) returns (picked: bool)
      requires service.Valid() && lifecycle.Valid() && p.Discovering?
      modifies this`ops, service.mediaServers, lifecycle`pendingOperations, lifecycle`unfinished
      ensures var (m, r) := Pick(old(service.Model()).mgr, backends, None, p.callId, now);
              && service.Valid() && service.Model() == old(service.Model()).(mgr := m) && (picked <==> r.Ok?)
              && ops == (if r.Err? then old(ops) - {op} else old(ops)[op := M.Picked(p.callId, p.owner, r.value.id)])
              && lifecycle.Model() == (if r.Ok? then old(lifecycle.Model())
                                       else Track(old(lifecycle.Model()), [Ends(GatewayLifecycle.SessionWork(op))]))
    {
      var r := service.PickBackend(backends, p.callId, now);
      if r.Err? {
        LeaveCreation(op);
        return false;
      }
      Suspend(op, M.Picked(p.callId, p.owner, r.value.id));
      return true;
    }

    method BeginCreation(op: OpId, frame: M.Op)
      requires service.Valid() && lifecycle.Valid() && GatewayLifecycle.SessionWork(op) !in lifecycle.unfinished
      modifies this`ops, lifecycle`pendingOperations, lifecycle`unfinished
      ensures service.Valid() && service.Model() == old(service.Model()) && ops == old(ops)[op := frame]
      ensures lifecycle.Model() == Track(old(lifecycle.Model()), [Begins(GatewayLifecycle.SessionWork(op))])
    {
      BeginTracked(lifecycle, GatewayLifecycle.SessionWork(op));
      ops := ops[op := frame];
    }

    method LeaveCreation(op: OpId)
      requires service.Valid() && lifecycle.Valid()
      modifies this`ops, lifecycle`pendingOperations, lifecycle`unfinished
      ensures service.Valid() && service.Model() == old(service.Model()) && ops == old(ops) - {op}
      ensures lifecycle.Model() == Track(old(lifecycle.Model()), [Ends(GatewayLifecycle.SessionWork(op))])
    {
      FinishTracked(lifecycle, GatewayLifecycle.SessionWork(op));
      ops := ops - {op};
    }

    /** The registration of the client; by now the call may be pinned elsewhere. */
    method RegisterClient(op: OpId, now: int) returns (registered: bool)
      requires Valid() && op in ops && ops[op].Picked?
      modifies this`ops, this`state, this`events, service.mediaServers`callToBackend, lifecycle`pendingOperations, lifecycle`unfinished
      ensures Valid() && state == M.Step(old(state), M.RegisterPick(op, now)) && (registered <==> op in ops)
    {
      var p := ops[op];
      if p.callId.None? {
        GoesOn(events, lifecycle.Model(), state, M.RegisterPick(op, now));
        Suspend(op, M.Opening(p.callId, p.owner, p.backend));
        Record(M.RegisterPick(op, now), M.Step(state, M.RegisterPick(op, now)));
        return true;
      }
      GoesOn(events, lifecycle.Model(), state, M.RegisterPick(op, now));
      registered := RegisterFor(op, p, now);
      Record(M.RegisterPick(op, now), M.Step(state, M.RegisterPick(op, now)));
    }

    method RegisterFor(op: OpId, p: M.Op, now: int) returns (registered: bool)
      requires service.Valid() && lifecycle.Valid() && p.Picked? && p.callId.Some?
      modifies this`ops, service.mediaServers`callToBackend, lifecycle`pendingOperations, lifecycle`unfinished
      ensures var m := old(service.Model()).mgr;
              var pins := Register(m.pins, p.callId.value, p.backend, now);
              && service.Valid() && (registered <==> pins.Ok?)
              && service.Model() == old(service.Model()).(mgr := if pins.Ok? then m.(pins := pins.value) else m)
              && ops == (if pins.Ok? then old(ops)[op := M.Opening(p.callId, p.owner, p.backend)] else old(ops) - {op})
              && lifecycle.Model() == (if pins.Ok? then old(lifecycle.Model())
                                       else Track(old(lifecycle.Model()), [Ends(GatewayLifecycle.SessionWork(op))]))
    {
      registered := service.RegisterClient(p.callId.value, p.backend, now);
      if !registered {
        LeaveCreation(op);
        return false;
      }
      Suspend(op, M.Opening(p.callId, p.owner, p.backend));
      return true;
    }

    method ClientOpened(op: OpId, ok: bool, active: set<CallId>, now: int)
      requires Valid() && op in ops && ops[op].Opening?
      modifies this`ops, this`state, this`events, service.mediaServers`callToBackend, lifecycle`pendingOperations, lifecycle`unfinished
      ensures Valid() && state == M.Step(old(state), M.Opened(op, ok, active, now))
    {
      var p := ops[op];
      GoesOn(events, lifecycle.Model(), state, M.Opened(op, ok, active, now));
      if ok {
        Suspend(op, M.Configuring(p.callId, p.owner, p.backend));
        Record(M.Opened(op, ok, active, now), M.Step(state, M.Opened(op, ok, active, now)));
        return;
      }
      LeaveCreation(op);
      service.UnregisterClient(p.callId, p.backend, active, now);
      Record(M.Opened(op, ok, active, now), M.Step(state, M.Opened(op, ok, active, now)));
    }

    /** session.create and what follows it have answered; a stopping gateway takes no session. */
    method SessionConfigured(op: OpId, ok: bool, sessionId: SessionId)
      requires Valid() && op in ops && ops[op].Configuring? && sessionId !in service.known
      modifies this`ops, this`state, this`events, service`sessions, service`known, lifecycle`pendingOperations, lifecycle`unfinished
      ensures Valid() && state == M.Step(old(state), M.Configured(op, ok, sessionId))
    {
      var p := ops[op];
      GoesOn(events, lifecycle.Model(), state, M.Configured(op, ok, sessionId));
      if !ok || lifecycle.isStopping {
        Suspend(op, M.Unwinding(p.callId, p.backend));
        Record(M.Configured(op, ok, sessionId), M.Step(state, M.Configured(op, ok, sessionId)));
        return;
      }
      LeaveCreation(op);
      service.PublishSession(sessionId, p.callId, p.backend, p.owner);
      Record(M.Configured(op, ok, sessionId), M.Step(state, M.Configured(op, ok, sessionId)));
    }

    method SessionUnwound(op: OpId, active: set<CallId>, now: int)
      requires Valid() && op in ops && ops[op].Unwinding?
      modifies this`ops, this`state, this`events, service.mediaServers`callToBackend, lifecycle`pendingOperations, lifecycle`unfinished
      ensures Valid() && state == M.Step(old(state), M.Unwound(op, active, now))
    {
      var p := ops[op];
      GoesOn(events, lifecycle.Model(), state, M.Unwound(op, active, now));
      LeaveCreation(op);
      service.UnregisterClient(p.callId, p.backend, active, now);
      Record(M.Unwound(op, active, now), M.Step(state, M.Unwound(op, active, now)));
    }

    /** The timer of the manager. */
    method SweepPins(active: set<CallId>, now: int)
      requires Valid()
      modifies this`state, this`events, service.mediaServers`callToBackend
      ensures Valid() && state == M.Step(old(state), M.SweepPins(active, now))
    {
      GoesOn(events, lifecycle.Model(), state, M.SweepPins(active, now));
      service.SweepPins(active, now);
      Record(M.SweepPins(active, now), M.Step(state, M.SweepPins(active, now)));
    }

    // ----- endpoints

    lemma Captures(op: OpId)
      requires Valid() && op in ops
      ensures I.OpOk(state, op, ops[op]) && service.known.Keys == state.core.records.Keys
      ensures ops[op].Removing? ==> ops[op].sid in service.known
    {
      MT.RunInv(events);
    }

    method BeginAddEndpoint(op: OpId, sessionId: SessionId, kind: Kind) returns (found: bool)
      requires Valid() && op !in ops && op !in service.actionRuns
      modifies this`ops, this`state, this`events
      ensures Valid() && (found <==> sessionId in service.sessions)
      ensures state == if found then M.Step(old(state), M.BeginAdd(op, sessionId, kind)) else old(state)
    {
      if sessionId !in service.sessions { return false; }
      GoesOn(events, lifecycle.Model(), state, M.BeginAdd(op, sessionId, kind));
      Suspend(op, M.Adding(sessionId, kind));
      Record(M.BeginAdd(op, sessionId, kind), M.Step(state, M.BeginAdd(op, sessionId, kind)));
      return true;
    }

    /** playToCompletion for a leave-message: it plays on the session that was captured, which may be gone by now. */
    method BeginPlayback(op: OpId, leave: OpId)
      requires Valid() && op !in ops && op !in service.actionRuns && leave in ops && ops[leave].Leaving?
      modifies this`ops, this`state, this`events
      ensures Valid() && state == M.Step(old(state), M.BeginPlayback(op, leave))
    {
      GoesOn(events, lifecycle.Model(), state, M.BeginPlayback(op, leave));
      Suspend(op, M.Adding(ops[leave].sid, File));
      Record(M.BeginPlayback(op, leave), M.Step(state, M.BeginPlayback(op, leave)));
    }

    /** The endpoint goes to the captured record, whether or not its session is still there. */
    method EndpointAdded(op: OpId, endpointId: EndpointId)
      requires Valid() && op in ops && ops[op].Adding? && endpointId !in state.born
      modifies this`ops, this`state, this`events, service`endpointToSession, service.known.Values
      ensures Valid() && state == M.Step(old(state), M.Added(op, endpointId))
    {
      var p := ops[op];
      Captures(op);
      GoesOn(events, lifecycle.Model(), state, M.Added(op, endpointId));
      Leave(op);
      service.AddEndpoint(service.known[p.sid], endpointId, Plain(p.kind));
      Record(M.Added(op, endpointId), M.Step(state, M.Added(op, endpointId)));
    }

    method BeginBridge(op: OpId, sessionId: SessionId, targetId: SessionId) returns (refusal: Option<M.BridgeError>)
      requires Valid() && op !in ops && op !in service.actionRuns
      modifies this`ops, this`state, this`events
      ensures Valid() && refusal == M.BridgeRefusal(old(service.Model()), sessionId, targetId)
      ensures state == if refusal.None? then M.Step(old(state), M.BeginBridge(op, sessionId, targetId)) else old(state)
    {
      refusal := service.BridgeRequest(sessionId, targetId);
      if refusal.Some? { return; }
      GoesOn(events, lifecycle.Model(), state, M.BeginBridge(op, sessionId, targetId));
      Suspend(op, M.Bridging(sessionId, targetId));
      Record(M.BeginBridge(op, sessionId, targetId), M.Step(state, M.BeginBridge(op, sessionId, targetId)));
    }

    lemma AfterBridge(op: OpId, endpointId: EndpointId, targetEndpointId: EndpointId) returns (t: M.State)
      requires Valid() && op in ops && ops[op].Bridging?
      requires endpointId !in state.born && targetEndpointId !in state.born && endpointId != targetEndpointId
      ensures ops[op].sid in service.known && ops[op].tid in service.known && ops[op].sid != ops[op].tid
      ensures t == M.Step(state, M.Bridged(op, endpointId, targetEndpointId)) && Sound(lifecycle.Model(), t)
      ensures Reached(events + [M.Bridged(op, endpointId, targetEndpointId)], t)
      ensures t.ops == ops - {op} && t.closing == closing && t.published == published
      ensures var p, c := ops[op], service.Model();
              t.core == if p.sid in c.live && p.tid in c.live
              then Add(Add(c, p.sid, endpointId, Bridge(p.tid, targetEndpointId)), p.tid, targetEndpointId, Bridge(p.sid, endpointId))
              else c
    {
      var e := M.Bridged(op, endpointId, targetEndpointId);
      t := M.Step(state, e);
      Captures(op);
      GoesOn(events, lifecycle.Model(), state, e);
    }

    method Bridged(op: OpId, endpointId: EndpointId, targetEndpointId: EndpointId) returns (bridged: bool)
      requires Valid() && op in ops && ops[op].Bridging?
      requires endpointId !in state.born && targetEndpointId !in state.born && endpointId != targetEndpointId
      modifies this`ops, this`state, this`events, service`endpointToSession, service.known.Values
      ensures Valid() && state == M.Step(old(state), M.Bridged(op, endpointId, targetEndpointId))
      ensures bridged <==> old(ops)[op].sid in service.sessions && old(ops)[op].tid in service.sessions
    {
      var p := ops[op];
      ghost var t := AfterBridge(op, endpointId, targetEndpointId);
      bridged := service.BridgeResume(service.known[p.sid], service.known[p.tid], endpointId, targetEndpointId);
      Leave(op);
      Record(M.Bridged(op, endpointId, targetEndpointId), t);
    }

    method RpcFailed(op: OpId)
      requires Valid() && op in ops && (ops[op].Adding? || ops[op].Bridging?)
      modifies this`ops, this`state, this`events
      ensures Valid() && state == M.Step(old(state), M.RpcFailed(op))
    {
      GoesOn(events, lifecycle.Model(), state, M.RpcFailed(op));
      Leave(op);
      Record(M.RpcFailed(op), M.Step(state, M.RpcFailed(op)));
    }

    /** The request to remove an endpoint: its action is cancelled before the RPC. */
    method BeginStop(op: OpId, endpointId: EndpointId) returns (found: bool)
      requires Valid() && op !in ops && op !in service.actionRuns
      modifies this`ops, this`state, this`events, service`activeEndpointActions, service`actionRuns
      ensures Valid() && (found <==> Tracked(old(service.Model()), endpointId))
      ensures state == if found then M.Step(old(state), M.BeginStop(op, endpointId)) else old(state)
    {
      var session := service.SessionForEndpoint(endpointId);
      if session.None? { return false; }
      var captured := service.Capture(session.value, endpointId);
      StopTracked(op, endpointId, session.value, captured);
      return true;
    }

    method StopTracked(op: OpId, endpointId: EndpointId, sessionId: SessionId, captured: Option<Endpoint>)
      requires Valid() && op !in ops && op !in service.actionRuns
      requires Tracked(service.Model(), endpointId) && service.endpointToSession[endpointId] == sessionId
      requires captured == M.Captured(service.Model(), sessionId, endpointId)
      modifies this`ops, this`state, this`events, service`activeEndpointActions, service`actionRuns
      ensures Valid() && state == M.Step(old(state), M.BeginStop(op, endpointId))
    {
      GoesOn(events, lifecycle.Model(), state, M.BeginStop(op, endpointId));
      service.CancelEndpointAction(endpointId);
      Suspend(op, M.Removing(sessionId, endpointId, captured));
      Record(M.BeginStop(op, endpointId), M.Step(state, M.BeginStop(op, endpointId)));
    }

    /** Only a bridge endpoint can be unbridged. */
    method BeginUnbridge(op: OpId, endpointId: EndpointId) returns (found: bool)
      requires Valid() && op !in ops && op !in service.actionRuns
      modifies this`ops, this`state, this`events
      ensures Valid()
      ensures state == if found then M.Step(old(state), M.BeginUnbridge(op, endpointId)) else old(state)
      ensures found <==> Tracked(old(service.Model()), endpointId)
                         && var captured := M.Captured(old(service.Model()), old(service.endpointToSession)[endpointId], endpointId);
                         captured.Some? && captured.value.Bridge?
    {
      var session := service.SessionForEndpoint(endpointId);
      if session.None? { return false; }
      var captured := service.Capture(session.value, endpointId);
      if captured.None? || !captured.value.Bridge? { return false; }
      UnbridgeTracked(op, endpointId, session.value, captured);
      return true;
    }

    method UnbridgeTracked(op: OpId, endpointId: EndpointId, sessionId: SessionId, captured: Option<Endpoint>)
      requires Valid() && op !in ops && op !in service.actionRuns
      requires Tracked(service.Model(), endpointId) && service.endpointToSession[endpointId] == sessionId
      requires captured == M.Captured(service.Model(), sessionId, endpointId) && captured.Some? && captured.value.Bridge?
      modifies this`ops, this`state, this`events
      ensures Valid() && state == M.Step(old(state), M.BeginUnbridge(op, endpointId))
    {
      GoesOn(events, lifecycle.Model(), state, M.BeginUnbridge(op, endpointId));
      Suspend(op, M.Removing(sessionId, endpointId, captured));
      Record(M.BeginUnbridge(op, endpointId), M.Step(state, M.BeginUnbridge(op, endpointId)));
    }

    /** The end of a playback that an operation started itself, on the record that it captured. */
    method BeginDiscard(op: OpId, session: MediaSessionRecord, endpointId: EndpointId)
      requires Valid() && op !in ops && op !in service.actionRuns && service.Knows(session)
      requires var born := state.born;
               endpointId in born && born[endpointId].0 == session.sessionId && !born[endpointId].1.Bridge?
      modifies this`ops, this`state, this`events
      ensures Valid() && state == M.Step(old(state), M.BeginDiscard(op, endpointId))
    {
      var captured := service.Capture(session.sessionId, endpointId);
      GoesOn(events, lifecycle.Model(), state, M.BeginDiscard(op, endpointId));
      Suspend(op, M.Removing(session.sessionId, endpointId, captured));
      Record(M.BeginDiscard(op, endpointId), M.Step(state, M.BeginDiscard(op, endpointId)));
    }

    /** The remove RPC has answered; the endpoint stays only if the RPC failed and it is still there. */
    method EndpointRemoved(op: OpId, ok: bool) returns (removed: bool)
      requires Valid() && op in ops && ops[op].Removing?
      modifies this`ops, this`state, this`events, service`endpointToSession, service`activeEndpointActions
      modifies service`sensitiveGatherEndpointIds, service.known.Values
      ensures Valid() && state == M.Step(old(state), M.Removed(op, ok))
    {
      var p := ops[op];
      Captures(op);
      RemovedStep(state, op, ok);
      GoesOn(events, lifecycle.Model(), state, M.Removed(op, ok));
      Leave(op);
      removed := service.RemoveTrackedResume(service.known[p.sid], p.eid, p.captured, ok);
      Record(M.Removed(op, ok), M.Step(state, M.Removed(op, ok)));
    }

    // ----- destruction

    method BeginDestroy(op: OpId, sessionId: SessionId) returns (found: bool)
      requires Valid() && op !in ops && op !in service.actionRuns
      modifies this`ops, this`state, this`events
      ensures Valid() && (found <==> sessionId in service.sessions)
      ensures state == if found then M.Step(old(state), M.BeginDestroy(op, sessionId)) else old(state)
    {
      if sessionId !in service.sessions { return false; }
      GoesOn(events, lifecycle.Model(), state, M.BeginDestroy(op, sessionId));
      Suspend(op, M.Destroying(sessionId));
      Record(M.BeginDestroy(op, sessionId), M.Step(state, M.BeginDestroy(op, sessionId)));
      return true;
    }

    /** The finally block of destroySession. */
    method Destroyed(op: OpId, active: set<CallId>, now: int)
      requires Valid() && op in ops && ops[op].Destroying?
      modifies this`ops, this`state, this`events, service`sessions, service`endpointToSession, service`sensitiveGatherEndpointIds
      modifies service`activeEndpointActions, service`actionRuns, service.known.Values, service.mediaServers
      ensures Valid() && state == M.Step(old(state), M.Destroyed(op, active, now))
    {
      var p := ops[op];
      GoesOn(events, lifecycle.Model(), state, M.Destroyed(op, active, now));
      Leave(op);
      service.DropSession(p.sid, active, now);
      Record(M.Destroyed(op, active, now), M.Step(state, M.Destroyed(op, active, now)));
    }

    /** The close handler of the client of a session. */
    method OnClientClosed(sessionId: SessionId, active: set<CallId>, now: int)
      requires Valid()
      modifies this`state, this`events, service`sessions, service`endpointToSession, service`sensitiveGatherEndpointIds
      modifies service`activeEndpointActions, service`actionRuns, service.known.Values, service.mediaServers
      ensures Valid() && state == M.Step(old(state), M.SocketClosed(sessionId, active, now))
    {
      GoesOn(events, lifecycle.Model(), state, M.SocketClosed(sessionId, active, now));
      service.DropSession(sessionId, active, now);
      Record(M.SocketClosed(sessionId, active, now), M.Step(state, M.SocketClosed(sessionId, active, now)));
    }

    /** The synchronous part of destroySessionsForOwner. */
    method DestroySessionsForOwner(owner: ConnectionId, active: set<CallId>, now: int) returns (ghost order: seq<SessionId>)
      requires Valid()
      modifies this`state, this`events, service`sessions, service`endpointToSession, service`sensitiveGatherEndpointIds
      modifies service`activeEndpointActions, service`actionRuns, service.known.Values, service.mediaServers
      ensures Valid() && OwnedOrder(old(service.Model()), owner, order)
      ensures state == M.Step(old(state), M.OwnerLeft(owner, order, active, now))
    {
      order := service.DestroySessionsForOwner(owner, active, now);
      GoesOn(events, lifecycle.Model(), state, M.OwnerLeft(owner, order, active, now));
      Record(M.OwnerLeft(owner, order, active, now), M.Step(state, M.OwnerLeft(owner, order, active, now)));
    }

    method ListSessions()
      requires service.Valid()
      modifies this`closing
      ensures service.Valid() && service.Model() == old(service.Model()) && closing == service.Model().live
    {
      closing := service.sessions.Keys;
    }

    /** The stop hook up to its await; the lifecycle calls it as soon as it is stopping. Every session is going to be
        destroyed. */
    method Shutdown()
      requires Tabled() && Reached(events, state) && !state.stopping
      requires lifecycle.Valid() && lifecycle.isStopping && Counted(lifecycle.unfinished, state)
      modifies this`closing, this`state, this`events
      ensures Valid() && state == M.Step(old(state), M.Stop)
    {
      StopGoesOn(events, state);
      ListSessions();
      Record(M.Stop, M.Step(state, M.Stop));
    }

    method ShutdownDestroyed(sessionId: SessionId, active: set<CallId>, now: int)
      requires Valid() && sessionId in closing
      modifies this`closing, this`state, this`events, service`sessions, service`endpointToSession, service`sensitiveGatherEndpointIds
      modifies service`activeEndpointActions, service`actionRuns, service.known.Values, service.mediaServers
      ensures Valid() && state == M.Step(old(state), M.ShutdownDestroyed(sessionId, active, now))
    {
      GoesOn(events, lifecycle.Model(), state, M.ShutdownDestroyed(sessionId, active, now));
      Settle(sessionId);
      service.DropSession(sessionId, active, now);
      Record(M.ShutdownDestroyed(sessionId, active, now), M.Step(state, M.ShutdownDestroyed(sessionId, active, now)));
    }

    // ----- gathers

    /** What follows the gather itself: sensitive mode is switched off again. */
    method LeaveGather(op: OpId)
      requires service.Valid() && op in ops && ops[op].Gathering?
      modifies this`ops
      ensures service.Valid() && service.Model() == old(service.Model())
      ensures ops == if old(ops)[op].sensitive then old(ops)[op := old(ops)[op].(phase := M.Disabling)] else old(ops) - {op}
    {
      if ops[op].sensitive {
        Suspend(op, ops[op].(phase := M.Disabling));
      } else {
        Leave(op);
      }
    }

    /** collectDtmf up to its first event; s is the state from which it starts. */
    method TryCollect(op: OpId, ghost s: M.State)
      requires service.Valid() && op in ops && ops[op].Gathering? && op !in service.actionRuns
      requires s.core == service.Model() && s.ops == ops
      modifies this`ops, service`activeEndpointActions, service`actionRuns
      ensures service.Valid() && service.Model() == M.TryCollect(s, op).core && ops == M.TryCollect(s, op).ops
    {
      if !ops[op].valid {
        LeaveGather(op);
        return;
      }
      var claimed := service.ClaimEndpointAction(ops[op].eid, op, ActionKind.Gather);
      if !claimed {
        LeaveGather(op);
        return;
      }
      Suspend(op, ops[op].(phase := M.Collecting));
    }

    method BeginGather(op: OpId, sessionId: SessionId, endpointId: EndpointId, sensitive: bool, play: bool, valid: bool)
      returns (started: bool)
      requires Valid() && op !in ops && op !in service.actionRuns
      modifies this`ops, this`state, this`events
      modifies service`activeEndpointActions, service`actionRuns, service`sensitiveGatherEndpointIds
      ensures Valid()
      ensures started <==> var c := old(service.Model());
                           && M.InSession(c, sessionId, endpointId) && endpointId !in c.sensitive
                           && (sensitive ==> endpointId !in c.claims)
      ensures state == if started then M.Step(old(state), M.BeginGather(op, sessionId, endpointId, sensitive, play, valid)) else old(state)
    {
      started := service.RequireEndpointInSession(sessionId, endpointId);
      if !started { return; }
      started := service.AssertDtmfGatherAvailable(endpointId, sensitive);
      if !started { return; }
      if sensitive {
        StartSensitive(op, sessionId, endpointId, play, valid);
      } else {
        StartGather(op, sessionId, endpointId, play, valid);
      }
    }

    /** The endpoint is masked before rtpbridge is asked. */
    method StartSensitive(op: OpId, sessionId: SessionId, endpointId: EndpointId, play: bool, valid: bool)
      requires Valid() && op !in ops && op !in service.actionRuns
      requires var c := service.Model(); M.InSession(c, sessionId, endpointId) && endpointId !in c.sensitive && endpointId !in c.claims
      modifies this`ops, this`state, this`events, service`sensitiveGatherEndpointIds
      ensures Valid() && state == M.Step(old(state), M.BeginGather(op, sessionId, endpointId, true, play, valid))
      ensures endpointId in service.sensitiveGatherEndpointIds
    {
      ghost var e := M.BeginGather(op, sessionId, endpointId, true, play, valid);
      GatherStep(state, e);
      GoesOn(events, lifecycle.Model(), state, e);
      service.BeginSensitive(endpointId);
      Suspend(op, M.Gathering(sessionId, endpointId, true, play, valid, M.Enabling));
      Record(e, M.Step(state, e));
    }

    lemma AfterGather(op: OpId, g: M.Op) returns (t: M.State)
      requires Valid() && op !in ops && op !in service.actionRuns
      requires g.Gathering? && !g.sensitive && g.phase.Playing?
      requires M.InSession(service.Model(), g.sid, g.eid) && g.eid !in service.Model().sensitive
      ensures t == M.Step(state, M.BeginGather(op, g.sid, g.eid, false, g.play, g.valid)) && Sound(lifecycle.Model(), t)
      ensures Reached(events + [M.BeginGather(op, g.sid, g.eid, false, g.play, g.valid)], t)
      ensures t.closing == closing && t.published == published
      ensures var s1 := state.(ops := state.ops[op := g]);
              var s' := if g.play then s1 else M.TryCollect(s1, op); t.core == s'.core && t.ops == s'.ops
    {
      var e := M.BeginGather(op, g.sid, g.eid, false, g.play, g.valid);
      t := M.Step(state, e);
      GoesOn(events, lifecycle.Model(), state, e);
    }

    /** Without a prompt the digits are collected at once. */
    method StartGather(op: OpId, sessionId: SessionId, endpointId: EndpointId, play: bool, valid: bool)
      requires Valid() && op !in ops && op !in service.actionRuns
      requires M.InSession(service.Model(), sessionId, endpointId) && endpointId !in service.Model().sensitive
      modifies this`ops, this`state, this`events, service`activeEndpointActions, service`actionRuns
      ensures Valid() && state == M.Step(old(state), M.BeginGather(op, sessionId, endpointId, false, play, valid))
    {
      var g := M.Gathering(sessionId, endpointId, false, play, valid, M.Playing);
      ghost var t := AfterGather(op, g);
      CollectUnlessPlayed(op, g, state.(ops := state.ops[op := g]), t);
      Record(M.BeginGather(op, sessionId, endpointId, false, play, valid), t);
    }

    method CollectUnlessPlayed(op: OpId, g: M.Op, ghost s: M.State, ghost t: M.State)
      requires service.Valid() && g.Gathering? && op !in service.actionRuns
      requires s.core == service.Model() && s.ops == ops[op := g]
      requires var s' := if g.play then s else M.TryCollect(s, op); t.core == s'.core && t.ops == s'.ops
      modifies this`ops, service`activeEndpointActions, service`actionRuns
      ensures service.Valid() && service.Model() == t.core && ops == t.ops
    {
      Suspend(op, g);
      if !g.play { TryCollect(op, s); }
    }

    /** rtpbridge has answered whether sensitive mode is on. */
    method SensitiveEnabled(op: OpId, ok: bool)
      requires Valid() && op in ops && ops[op].Gathering? && ops[op].phase.Enabling?
      modifies this`ops, this`state, this`events, service`activeEndpointActions, service`actionRuns, service`sensitiveGatherEndpointIds
      ensures Valid() && state == M.Step(old(state), M.Enabled(op, ok))
    {
      Captures(op);
      ghost var s := state;
      GatherStep(state, M.Enabled(op, ok));
      GoesOn(events, lifecycle.Model(), state, M.Enabled(op, ok));
      var g := ops[op];
      if !ok {
        Leave(op);
        service.EndSensitive(g.eid);
        Record(M.Enabled(op, ok), M.Step(state, M.Enabled(op, ok)));
        return;
      }
      if g.play {
        Suspend(op, g.(phase := M.Playing));
        Record(M.Enabled(op, ok), M.Step(state, M.Enabled(op, ok)));
        return;
      }
      TryCollect(op, s);
      Record(M.Enabled(op, ok), M.Step(state, M.Enabled(op, ok)));
    }

    lemma AfterPlayback(op: OpId, playback: EndpointId) returns (t: M.State)
      requires Valid() && op in ops && ops[op].Gathering? && ops[op].phase.Playing? && playback !in state.born
      ensures op !in service.actionRuns && ops[op].sid in service.known
      ensures t == M.Step(state, M.PlaybackReady(op, Some(playback))) && Sound(lifecycle.Model(), t)
      ensures Reached(events + [M.PlaybackReady(op, Some(playback))], t) && t.closing == closing && t.published == published
      ensures var s' := M.TryCollect(M.AddTo(state, ops[op].sid, playback, Plain(File)), op); t.core == s'.core && t.ops == s'.ops
    {
      var e := M.PlaybackReady(op, Some(playback));
      t := M.Step(state, e);
      Captures(op);
      GoesOn(events, lifecycle.Model(), state, e);
    }

    /** The prompt has started. */
    method PlaybackStarted(op: OpId, playback: EndpointId)
      requires Valid() && op in ops && ops[op].Gathering? && ops[op].phase.Playing? && playback !in state.born
      modifies this`ops, this`state, this`events
      modifies service`endpointToSession, service`activeEndpointActions, service`actionRuns, service.known.Values
      ensures Valid() && state == M.Step(old(state), M.PlaybackReady(op, Some(playback)))
    {
      ghost var t := AfterPlayback(op, playback);
      PlayAndCollect(op, playback, state, t);
      Record(M.PlaybackReady(op, Some(playback)), t);
    }

    /** The prompt could not be played. */
    method PlaybackFailed(op: OpId)
      requires Valid() && op in ops && ops[op].Gathering? && ops[op].phase.Playing?
      modifies this`ops, this`state, this`events
      ensures Valid() && state == M.Step(old(state), M.PlaybackReady(op, None))
    {
      ghost var e := M.PlaybackReady(op, None);
      Captures(op);
      GoesOn(events, lifecycle.Model(), state, e);
      LeaveGather(op);
      Record(e, M.Step(state, e));
    }

    /** From s to t: the endpoint of the prompt is added, and the digits are collected. */
    method PlayAndCollect(op: OpId, playback: EndpointId, ghost s: M.State, ghost t: M.State)
      requires service.Valid() && op in ops && ops[op].Gathering? && op !in service.actionRuns && ops[op].sid in service.known
      requires s.core == service.Model() && s.ops == ops
      requires var s' := M.TryCollect(M.AddTo(s, s.ops[op].sid, playback, Plain(File)), op); t.core == s'.core && t.ops == s'.ops
      modifies this`ops, service`endpointToSession, service`activeEndpointActions, service`actionRuns, service.known.Values
      ensures service.Valid() && service.Model() == t.core && ops == t.ops
    {
      service.AddEndpoint(service.known[ops[op].sid], playback, Plain(File));
      TryCollect(op, M.AddTo(s, ops[op].sid, playback, Plain(File)));
    }

    method GatherEnded(op: OpId, reason: Reason)
      requires Valid() && op in ops && ops[op].Gathering? && ops[op].phase.Collecting?
      modifies this`state, this`events, service`activeEndpointActions, service`actionRuns
      ensures Valid() && state == M.Step(old(state), M.Collected(op, reason))
    {
      Captures(op);
      GatherStep(state, M.Collected(op, reason));
      GoesOn(events, lifecycle.Model(), state, M.Collected(op, reason));
      service.FinishRun(op, reason);
      Record(M.Collected(op, reason), M.Step(state, M.Collected(op, reason)));
    }

    /** The caller of a resolved gather goes on. */
    method GatherReturned(op: OpId)
      requires Valid() && op in ops && ops[op].Gathering? && ops[op].phase.Collecting?
      requires op in service.actionRuns && service.actionRuns[op].outcome.Some?
      modifies this`ops, this`state, this`events
      ensures Valid() && state == M.Step(old(state), M.Resume(op))
    {
      GoesOn(events, lifecycle.Model(), state, M.Resume(op));
      LeaveGather(op);
      Record(M.Resume(op), M.Step(state, M.Resume(op)));
    }

    /** rtpbridge has answered whether sensitive mode is off; if not, the endpoint stays masked. */
    method SensitiveDisabled(op: OpId, ok: bool)
      requires Valid() && op in ops && ops[op].Gathering? && ops[op].phase.Disabling?
      modifies this`ops, this`state, this`events, service`sensitiveGatherEndpointIds
      ensures Valid() && state == M.Step(old(state), M.Disabled(op, ok))
    {
      var g := ops[op];
      GoesOn(events, lifecycle.Model(), state, M.Disabled(op, ok));
      Leave(op);
      if ok {
        service.EndSensitive(g.eid);
      }
      Record(M.Disabled(op, ok), M.Step(state, M.Disabled(op, ok)));
    }

    // ----- leave-message and events

    method BeginLeave(op: OpId, sessionId: SessionId, endpointId: EndpointId) returns (started: bool)
      requires Valid() && op !in ops && op !in service.actionRuns
      modifies this`ops, this`state, this`events, service`activeEndpointActions, service`actionRuns
      ensures Valid()
      ensures started <==> M.InSession(old(service.Model()), sessionId, endpointId) && endpointId !in old(service.activeEndpointActions)
      ensures state == if started then M.Step(old(state), M.BeginLeave(op, sessionId, endpointId)) else old(state)
    {
      started := service.RequireEndpointInSession(sessionId, endpointId);
      if !started || endpointId in service.activeEndpointActions { return false; }
      StartLeave(op, sessionId, endpointId);
    }

    method StartLeave(op: OpId, sessionId: SessionId, endpointId: EndpointId)
      requires Valid() && op !in ops && op !in service.actionRuns
      requires M.InSession(service.Model(), sessionId, endpointId) && endpointId !in service.activeEndpointActions
      modifies this`ops, this`state, this`events, service`activeEndpointActions, service`actionRuns
      ensures Valid() && state == M.Step(old(state), M.BeginLeave(op, sessionId, endpointId))
    {
      ghost var e := M.BeginLeave(op, sessionId, endpointId);
      LeaveStep(state, e);
      GoesOn(events, lifecycle.Model(), state, e);
      var _ := service.ClaimEndpointAction(endpointId, op, LeaveMessage);
      Suspend(op, M.Leaving(sessionId, endpointId));
      Record(e, M.Step(state, e));
    }

    method EndLeave(op: OpId)
      requires Valid() && op in ops && ops[op].Leaving?
      modifies this`ops, this`state, this`events, service`activeEndpointActions, service`actionRuns
      ensures Valid() && state == M.Step(old(state), M.EndLeave(op))
    {
      Captures(op);
      LeaveStep(state, M.EndLeave(op));
      GoesOn(events, lifecycle.Model(), state, M.EndLeave(op));
      Leave(op);
      service.ReleaseAction(op);
      Record(M.EndLeave(op), M.Step(state, M.EndLeave(op)));
    }

    /** An event of rtpbridge on the client of a session. */
    method OnRtpbridgeEvent(session: MediaSessionRecord, event: BridgeEvent)
      requires Valid() && service.Knows(session)
      modifies this`published, this`state, this`events
      ensures Valid() && state == M.Step(old(state), M.Forward(session.sessionId, event))
    {
      GoesOn(events, lifecycle.Model(), state, M.Forward(session.sessionId, event));
      var sent := service.PublishRtpbridgeEvent(session, event);
      if sent.Some? { Send(sent.value); }
      Record(M.Forward(session.sessionId, event), M.Step(state, M.Forward(session.sessionId, event)));
    }
  }
}
