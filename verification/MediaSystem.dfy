/** Every interleaving of the media operations. An asynchronous method is split at its awaits; the
    code between two awaits is one step. The environment chooses the order of steps, whether an RPC
    succeeds, and when sockets close, owners leave or the gateway stops. An event that cannot
    happen in a state leaves it unchanged. */
module MediaSystem {
  import opened Prelude
  import opened BackendPins
  import opened MediaCore

  datatype Phase = Enabling | Playing | Collecting | Disabling

  /** A suspended operation with the values it captured. */
  datatype Op =
    | Discovering(callId: Option<CallId>, owner: Option<ConnectionId>)
    | Picked(callId: Option<CallId>, owner: Option<ConnectionId>, backend: BackendId)
    | Opening(callId: Option<CallId>, owner: Option<ConnectionId>, backend: BackendId)
    | Configuring(callId: Option<CallId>, owner: Option<ConnectionId>, backend: BackendId)
    | Unwinding(callId: Option<CallId>, backend: BackendId)
    | Adding(sid: SessionId, kind: Kind)
    | Bridging(sid: SessionId, tid: SessionId)
    | Removing(sid: SessionId, eid: EndpointId, captured: Option<Endpoint>)
    | Destroying(sid: SessionId)
    | Gathering(sid: SessionId, eid: EndpointId, sensitive: bool, play: bool, valid: bool, phase: Phase)
    | Leaving(sid: SessionId, eid: EndpointId)

  /** A session creation under way. */
  predicate Creating(op: Op) {
    op.Discovering? || op.Picked? || op.Opening? || op.Configuring? || op.Unwinding?
  }

  /** `born` remembers where every endpoint was first added, `stuck` the endpoints whose sensitive
      mode could not be confirmed off, `closing` the sessions a shutdown still has to destroy. */
  datatype State = State(core: Core, ops: map<OpId, Op>, born: map<EndpointId, (SessionId, Endpoint)>,
                         stuck: set<EndpointId>, stopping: bool, closing: set<SessionId>,
                         published: seq<(ConnectionId, BridgeEvent)>)

  const INIT := State(EMPTY, map[], map[], {}, false, {}, [])

  datatype Event =
      // session creation
    | Admit(op: OpId, callId: Option<CallId>, owner: Option<ConnectionId>)
    | Pick(op: OpId, backends: Option<seq<Backend>>, now: int)
    | RegisterPick(op: OpId, now: int)
    | Opened(op: OpId, ok: bool, active: set<CallId>, now: int)
    | Configured(op: OpId, ok: bool, sid: SessionId)
    | Unwound(op: OpId, active: set<CallId>, now: int)
    | SweepPins(active: set<CallId>, now: int)
      // endpoints
    | BeginAdd(op: OpId, sid: SessionId, kind: Kind)
    | BeginPlayback(op: OpId, leave: OpId)
    | Added(op: OpId, eid: EndpointId)
    | BeginBridge(op: OpId, sid: SessionId, tid: SessionId)
    | Bridged(op: OpId, eid: EndpointId, teid: EndpointId)
    | RpcFailed(op: OpId)
    | BeginStop(op: OpId, eid: EndpointId)
    | BeginUnbridge(op: OpId, eid: EndpointId)
    | BeginDiscard(op: OpId, eid: EndpointId)
    | Removed(op: OpId, ok: bool)
      // teardown
    | BeginDestroy(op: OpId, sid: SessionId)
    | Destroyed(op: OpId, active: set<CallId>, now: int)
    | SocketClosed(sid: SessionId, active: set<CallId>, now: int)
    | OwnerLeft(connection: ConnectionId, order: seq<SessionId>, active: set<CallId>, now: int)
    | Stop
    | ShutdownDestroyed(sid: SessionId, active: set<CallId>, now: int)
      // endpoint actions
    | BeginGather(op: OpId, sid: SessionId, eid: EndpointId, sensitive: bool, play: bool, valid: bool)
    | Enabled(op: OpId, ok: bool)
    | PlaybackReady(op: OpId, peid: Option<EndpointId>)
    | Collected(op: OpId, reason: Reason)
    | Resume(op: OpId)
    | Disabled(op: OpId, ok: bool)
    | BeginLeave(op: OpId, sid: SessionId, eid: EndpointId)
    | EndLeave(op: OpId)
    | Forward(sid: SessionId, ev: BridgeEvent)

  predicate CreateEvent(e: Event) {
    e.Admit? || e.Pick? || e.RegisterPick? || e.Opened? || e.Configured? || e.Unwound? || e.SweepPins?
  }

  predicate EndpointEvent(e: Event) {
    || e.BeginAdd? || e.BeginPlayback? || e.Added? || e.BeginBridge? || e.Bridged? || e.RpcFailed?
    || e.BeginStop? || e.BeginUnbridge? || e.BeginDiscard? || e.Removed?
  }

  predicate TeardownEvent(e: Event) {
    e.BeginDestroy? || e.Destroyed? || e.SocketClosed? || e.OwnerLeft? || e.Stop? || e.ShutdownDestroyed?
  }

  predicate ActionEvent(e: Event) {
    !CreateEvent(e) && !EndpointEvent(e) && !TeardownEvent(e)
  }

  predicate Fresh(s: State, op: OpId) {
    op !in s.ops && op !in s.core.runs
  }

  function Done(s: State, op: OpId): State {
    s.(ops := s.ops - {op})
  }

  // ----- session creation

  function UnpinOp(m: Manager, callId: Option<CallId>, backend: BackendId, active: set<CallId>, now: int): Manager {
    if callId.None? then m
    else m.(pins := Unregister(m.pins, callId.value, Some(backend), callId.value in active, now))
  }

  function StepCreate(s: State, e: Event): State
    requires CreateEvent(e)
  {
    var m := s.core.mgr;
    match e
    case Admit(op, callId, owner) => // the backends are still to be discovered, which may take a look at DNS
      if !Fresh(s, op) || s.stopping then s else s.(ops := s.ops[op := Discovering(callId, owner)])
    case Pick(op, backends, now) =>
      if op !in s.ops || !s.ops[op].Discovering? then s
      else
        var p := s.ops[op];
        var (m', r) := BackendPins.Pick(m, backends, None, p.callId, now);
        if r.Err? then Done(s, op).(core := s.core.(mgr := m'))
        else s.(core := s.core.(mgr := m'), ops := s.ops[op := Picked(p.callId, p.owner, r.value.id)])
    case RegisterPick(op, now) =>
      if op !in s.ops || !s.ops[op].Picked? then s
      else
        var p := s.ops[op];
        var next := Opening(p.callId, p.owner, p.backend);
        if p.callId.None? then s.(ops := s.ops[op := next])
        else
          var pins := Register(m.pins, p.callId.value, p.backend, now);
          if pins.Err? then Done(s, op)
          else s.(core := s.core.(mgr := m.(pins := pins.value)), ops := s.ops[op := next])
    case Opened(op, ok, active, now) =>
      if op !in s.ops || !s.ops[op].Opening? then s
      else
        var p := s.ops[op];
        if ok then s.(ops := s.ops[op := Configuring(p.callId, p.owner, p.backend)])
        else Done(s, op).(core := s.core.(mgr := UnpinOp(m, p.callId, p.backend, active, now)))
    case Configured(op, ok, sid) =>
      if op !in s.ops || !s.ops[op].Configuring? || sid in s.core.records then s
      else
        var p := s.ops[op];
        if !ok || s.stopping then s.(ops := s.ops[op := Unwinding(p.callId, p.backend)])
        else Done(s, op).(core := Publish(s.core, sid, Session(p.callId, p.backend, p.owner, map[])))
    case Unwound(op, active, now) =>
      if op !in s.ops || !s.ops[op].Unwinding? then s
      else Done(s, op).(core := s.core.(mgr := UnpinOp(m, s.ops[op].callId, s.ops[op].backend, active, now)))
    case SweepPins(active, now) =>
      s.(core := s.core.(mgr := m.(pins := Sweep(m.pins, active, now))))
  }

  // ----- endpoints

  function AddTo(s: State, sid: SessionId, eid: EndpointId, ep: Endpoint): State
    requires sid in s.core.records
  {
    s.(core := Add(s.core, sid, eid, ep), born := s.born[eid := (sid, ep)])
  }

  function Captured(c: Core, sid: SessionId, eid: EndpointId): Option<Endpoint> {
    if Has(c, sid, eid) then Some(c.records[sid].endpoints[eid]) else None
  }

  function StepEndpoint(s: State, e: Event): State
    requires EndpointEvent(e)
  {
    var c := s.core;
    match e
    case BeginAdd(op, sid, kind) =>
      if !Fresh(s, op) || sid !in c.live then s else s.(ops := s.ops[op := Adding(sid, kind)])
    case BeginPlayback(op, leave) => // a leave-message plays on the session that it captured, without another look
      if !Fresh(s, op) || leave !in s.ops || !s.ops[leave].Leaving? then s
      else s.(ops := s.ops[op := Adding(s.ops[leave].sid, File)])
    case Added(op, eid) =>
      if op !in s.ops || !s.ops[op].Adding? || s.ops[op].sid !in c.records || eid in s.born then s
      else AddTo(Done(s, op), s.ops[op].sid, eid, Plain(s.ops[op].kind))
    case BeginBridge(op, sid, tid) =>
      if !Fresh(s, op) || BridgeRefusal(c, sid, tid).Some? then s else s.(ops := s.ops[op := Bridging(sid, tid)])
    case Bridged(op, eid, teid) =>
      if op !in s.ops || !s.ops[op].Bridging? || eid in s.born || teid in s.born || eid == teid then s
      else
        var (sid, tid) := (s.ops[op].sid, s.ops[op].tid);
        if !(sid in c.live && sid in c.records && tid in c.live && tid in c.records) then Done(s, op)
        else AddTo(AddTo(Done(s, op), sid, eid, Bridge(tid, teid)), tid, teid, Bridge(sid, eid))
    case RpcFailed(op) =>
      if op in s.ops && (s.ops[op].Adding? || s.ops[op].Bridging?) then Done(s, op) else s
    case BeginStop(op, eid) =>
      if !Fresh(s, op) || !Tracked(c, eid) then s
      else s.(core := CancelAll(c, {eid}), ops := s.ops[op := Removing(c.index[eid], eid, Captured(c, c.index[eid], eid))])
    case BeginUnbridge(op, eid) =>
      if !Fresh(s, op) || !Tracked(c, eid) then s
      else
        var captured := Captured(c, c.index[eid], eid);
        if captured.Some? && captured.value.Bridge? then s.(ops := s.ops[op := Removing(c.index[eid], eid, captured)]) else s
    case BeginDiscard(op, eid) => // the end of a playback that an operation started itself
      if !Fresh(s, op) || eid !in s.born || s.born[eid].1.Bridge? then s
      else s.(ops := s.ops[op := Removing(s.born[eid].0, eid, Captured(c, s.born[eid].0, eid))])
    case Removed(op, ok) =>
      if op !in s.ops || !s.ops[op].Removing? || s.ops[op].sid !in c.records || !(c.live <= c.records.Keys) then s
      else
        var p := s.ops[op];
        if !ok && p.sid in c.live && Has(c, p.sid, p.eid) then Done(s, op)
        else Done(s, op).(core := Remove(c, p.sid, p.eid, p.captured))
  }

  datatype BridgeError = NoSession | SelfBridge | OtherBackend

  function BridgeRefusal(c: Core, sid: SessionId, tid: SessionId): Option<BridgeError> {
    if !(sid in c.live && sid in c.records && tid in c.live && tid in c.records) then Some(NoSession)
    else if sid == tid then Some(SelfBridge)
    else if c.records[sid].backend != c.records[tid].backend then Some(OtherBackend)
    else None
  }

  // ----- teardown

  function StepTeardown(s: State, e: Event): State
    requires TeardownEvent(e)
  {
    var c := s.core;
    if !(c.live <= c.records.Keys) then s
    else
      match e
      case BeginDestroy(op, sid) =>
        if !Fresh(s, op) || sid !in c.live then s else s.(ops := s.ops[op := Destroying(sid)])
      case Destroyed(op, active, now) =>
        if op !in s.ops || !s.ops[op].Destroying? then s
        else Done(s, op).(core := Drop(c, s.ops[op].sid, active, now))
      case SocketClosed(sid, active, now) =>
        s.(core := Drop(c, sid, active, now))
      case OwnerLeft(owner, order, active, now) =>
        if !OwnedOrder(c, owner, order) then s else s.(core := DropAll(c, order, active, now))
      case Stop =>
        if s.stopping then s else s.(stopping := true, closing := c.live)
      case ShutdownDestroyed(sid, active, now) =>
        if sid !in s.closing then s else s.(core := Drop(c, sid, active, now), closing := s.closing - {sid})
  }

  // ----- endpoint actions

  predicate InSession(c: Core, sid: SessionId, eid: EndpointId) {
    sid in c.live && eid in c.index && c.index[eid] == sid && Has(c, sid, eid)
  }

  /** What follows the gather itself: sensitive mode is switched off again. */
  function After(s: State, op: OpId): State
    requires op in s.ops && s.ops[op].Gathering?
  {
    if s.ops[op].sensitive then s.(ops := s.ops[op := s.ops[op].(phase := Disabling)]) else Done(s, op)
  }

  function TryCollect(s: State, op: OpId): State
    requires op in s.ops && s.ops[op].Gathering?
  {
    if !s.ops[op].valid || s.ops[op].eid in s.core.claims then After(s, op)
    else s.(core := Claim(s.core, op, s.ops[op].eid, Gather), ops := s.ops[op := s.ops[op].(phase := Collecting)])
  }

  predicate InPhase(s: State, op: OpId, phase: Phase) {
    op in s.ops && s.ops[op].Gathering? && s.ops[op].phase == phase
  }

  function StepAction(s: State, e: Event): State
    requires ActionEvent(e)
  {
    var c := s.core;
    match e
    case BeginGather(op, sid, eid, sensitive, play, valid) =>
      if !Fresh(s, op) || !InSession(c, sid, eid) || eid in c.sensitive || (sensitive && eid in c.claims) then s
      else
        var g := Gathering(sid, eid, sensitive, play, valid, if sensitive then Enabling else Playing);
        var s1 := s.(ops := s.ops[op := g]);
        if sensitive then s1.(core := c.(sensitive := c.sensitive + {eid}))
        else if play then s1
        else TryCollect(s1, op)
    case Enabled(op, ok) =>
      if !InPhase(s, op, Enabling) then s
      else if !ok then Done(s, op).(core := c.(sensitive := c.sensitive - {s.ops[op].eid}))
      else if s.ops[op].play then s.(ops := s.ops[op := s.ops[op].(phase := Playing)])
      else TryCollect(s, op)
    case PlaybackReady(op, peid) =>
      if !InPhase(s, op, Playing) || s.ops[op].sid !in c.records || (peid.Some? && peid.value in s.born) then s
      else if peid.None? then After(s, op)
      else TryCollect(AddTo(s, s.ops[op].sid, peid.value, Plain(File)), op)
    case Collected(op, reason) =>
      if !InPhase(s, op, Collecting) || op !in c.runs then s else s.(core := Finish(c, op, reason))
    case Resume(op) =>
      if !InPhase(s, op, Collecting) || op !in c.runs || c.runs[op].outcome.None? then s else After(s, op)
    case Disabled(op, ok) =>
      if !InPhase(s, op, Disabling) then s
      else if ok then Done(s, op).(core := c.(sensitive := c.sensitive - {s.ops[op].eid}))
      else Done(s, op).(stuck := s.stuck + {s.ops[op].eid})
    case BeginLeave(op, sid, eid) =>
      if !Fresh(s, op) || !InSession(c, sid, eid) || eid in c.claims then s
      else s.(core := Claim(c, op, eid, LeaveMessage), ops := s.ops[op := Leaving(sid, eid)])
    case EndLeave(op) =>
      if op !in s.ops || !s.ops[op].Leaving? || op !in c.runs then s else Done(s, op).(core := Release(c, op))
    case Forward(sid, ev) =>
      if sid !in c.records || c.records[sid].owner.None? then s
      else s.(published := s.published + [(c.records[sid].owner.value, Redact(ev, c.sensitive))])
  }

  function Step(s: State, e: Event): State {
    if CreateEvent(e) then StepCreate(s, e)
    else if EndpointEvent(e) then StepEndpoint(s, e)
    else if TeardownEvent(e) then StepTeardown(s, e)
    else StepAction(s, e)
  }

  /** The state after a run. */
  function StateAfter(events: seq<Event>): State {
    if events == [] then INIT else Step(StateAfter(events[..|events| - 1]), events[|events| - 1])
  }
}
