/** The tables of the media session service and what each synchronous helper does to them
    (src/media-session-service.ts). Session records outlive their removal from the live
    table: a suspended operation may still hold and change one. */
module MediaCore {
  import opened Prelude
  import opened BackendPins

  datatype Kind = Webrtc | Rtp | File | Tone

  datatype Endpoint = Plain(kind: Kind) | Bridge(peerSession: SessionId, peerEndpoint: EndpointId)

  datatype Session = Session(callId: Option<CallId>, backend: BackendId, owner: Option<ConnectionId>,
                             endpoints: map<EndpointId, Endpoint>)

  datatype ActionKind = Gather | LeaveMessage

  /** One claimed endpoint action with the closure state of the call that made it: a gather has an
      outcome once resolved, a leave-message may have been told to abort. */
  datatype Run = Run(endpoint: EndpointId, kind: ActionKind, released: bool, outcome: Option<Reason>, aborted: bool)

  datatype Core = Core(records: map<SessionId, Session>, live: set<SessionId>, index: map<EndpointId, SessionId>,
                       claims: map<EndpointId, OpId>, runs: map<OpId, Run>, sensitive: set<EndpointId>, mgr: Manager)

  const EMPTY := Core(map[], {}, map[], map[], map[], {}, Manager(map[], 0))

  predicate Has(c: Core, s: SessionId, e: EndpointId) {
    s in c.records && e in c.records[s].endpoints
  }

  /** The endpoint is found through the index in a live session. */
  predicate Tracked(c: Core, e: EndpointId) {
    e in c.index && c.index[e] in c.live
  }

  // ----- endpoints

  function Publish(c: Core, sid: SessionId, session: Session): Core {
    c.(records := c.records[sid := session], live := c.live + {sid})
  }

  function Add(c: Core, sid: SessionId, eid: EndpointId, ep: Endpoint): Core
    requires sid in c.records
  {
    c.(records := c.records[sid := c.records[sid].(endpoints := c.records[sid].endpoints[eid := ep])],
    index := c.index[eid := sid])
  }

  function RemoveSnapshot(c: Core, sid: SessionId, eid: EndpointId): Core
    requires sid in c.records
  {
    c.(records := c.records[sid := c.records[sid].(endpoints := c.records[sid].endpoints - {eid})],
    index := c.index - {eid}, claims := c.claims - {eid}, sensitive := c.sensitive - {eid})
  }

  function RemovePaired(c: Core, ep: Endpoint): Core
    requires c.live <= c.records.Keys
  {
    if ep.Bridge? && ep.peerSession in c.live then RemoveSnapshot(c, ep.peerSession, ep.peerEndpoint) else c
  }

  /** The part of removeTrackedEndpoint after the RPC; `captured` was read before it. */
  function Remove(c: Core, sid: SessionId, eid: EndpointId, captured: Option<Endpoint>): Core
    requires sid in c.records && c.live <= c.records.Keys
  {
    var c1 := RemoveSnapshot(c, sid, eid);
    if captured.Some? then RemovePaired(c1, captured.value) else c1
  }

  // ----- endpoint actions

  function Claim(c: Core, r: OpId, eid: EndpointId, kind: ActionKind): Core {
    c.(claims := c.claims[eid := r], runs := c.runs[r := Run(eid, kind, false, None, false)])
  }

  function Release(c: Core, r: OpId): Core
    requires r in c.runs
  {
    var run := c.runs[r];
    if run.released then c
    else c.(runs := c.runs[r := run.(released := true)],
         claims := if run.endpoint in c.claims && c.claims[run.endpoint] == r then c.claims - {run.endpoint} else c.claims)
  }

  function Finish(c: Core, r: OpId, reason: Reason): Core
    requires r in c.runs
  {
    if c.runs[r].outcome.Some? then c
    else Release(c.(runs := c.runs[r := c.runs[r].(outcome := Some(reason))]), r)
  }

  function CancelledRun(run: Run): Run {
    if run.kind.Gather? then run.(outcome := Some(Cancelled), released := true) else run.(aborted := true)
  }

  predicate HoldsClaim(c: Core, r: OpId) {
    r in c.runs && c.runs[r].endpoint in c.claims && c.claims[c.runs[r].endpoint] == r
  }

  predicate GatherClaim(c: Core, e: EndpointId) {
    e in c.claims && c.claims[e] in c.runs && c.runs[c.claims[e]].kind.Gather?
  }

  /** Cancelling the actions of a set of endpoints resolves their gathers, which thereby release
      their claims, and aborts their leave-message runs, which keep theirs for now. */
  function CancelAll(c: Core, own: set<EndpointId>): Core {
    c.(runs := map r | r in c.runs :: if HoldsClaim(c, r) && c.runs[r].endpoint in own then CancelledRun(c.runs[r]) else c.runs[r],
                                      claims := map e | e in c.claims && !(e in own && GatherClaim(c, e)) :: c.claims[e])
  }

  // ----- teardown

  function PeersIn(own: map<EndpointId, Endpoint>, live: set<SessionId>, s: SessionId): set<EndpointId> {
    set e | e in own && own[e].Bridge? && own[e].peerSession == s && s in live :: own[e].peerEndpoint
  }

  function AllPeers(own: map<EndpointId, Endpoint>, live: set<SessionId>): set<EndpointId> {
    set e | e in own && own[e].Bridge? && own[e].peerSession in live :: own[e].peerEndpoint
  }

  function DropPeers(c: Core, own: map<EndpointId, Endpoint>): Core {
    var gone := AllPeers(own, c.live);
    c.(records := map s | s in c.records :: c.records[s].(endpoints := c.records[s].endpoints - PeersIn(own, c.live, s)),
                                            index := c.index - gone, claims := c.claims - gone, sensitive := c.sensitive - gone)
  }

  function Unpin(mgr: Manager, session: Session, active: set<CallId>, now: int): Manager {
    if session.callId.None? then mgr
    else mgr.(pins := Unregister(mgr.pins, session.callId.value, Some(session.backend), session.callId.value in active, now))
  }

  /** `active` holds the call ids for which isCallActive answers true. */
  function Drop(c: Core, sid: SessionId, active: set<CallId>, now: int): Core
    requires c.live <= c.records.Keys
  {
    if sid !in c.live then c
    else
      var own := c.records[sid].endpoints;
      var c1 := DropPeers(CancelAll(c, own.Keys), own);
      c1.(live := c1.live - {sid}, index := c1.index - own.Keys, sensitive := c1.sensitive - own.Keys,
      mgr := Unpin(c1.mgr, c.records[sid], active, now))
  }

  lemma DropKeepsLiveRecorded(c: Core, sid: SessionId, active: set<CallId>, now: int)
    requires c.live <= c.records.Keys
    ensures var c' := Drop(c, sid, active, now);
            c'.live <= c'.records.Keys && c'.live == c.live - {sid} && c'.records.Keys == c.records.Keys
  {
  }

  function DropAll(c: Core, order: seq<SessionId>, active: set<CallId>, now: int): (r: Core)
    requires c.live <= c.records.Keys
    ensures r.records.Keys == c.records.Keys && r.live <= c.live
    ensures forall s :: s in c.live ==> (s in r.live <==> s !in order)
    decreases |order|
  {
    if order == [] then c
    else
      DropKeepsLiveRecorded(c, order[0], active, now);
      DropAll(Drop(c, order[0], active, now), order[1..], active, now)
  }

  /** `order` lists, once each, the live sessions of a control connection. */
  predicate OwnedOrder(c: Core, owner: ConnectionId, order: seq<SessionId>) {
    && (forall i, j :: 0 <= i < j < |order| ==> order[i] != order[j])
    && (forall s | s in order :: s in c.live && s in c.records && c.records[s].owner == Some(owner))
    && (forall s | s in c.live && s in c.records && c.records[s].owner == Some(owner) :: s in order)
  }

  // ----- sensitive DTMF

  /** An rtpbridge event on its way to the owner; `endpoint` is absent when the event carries none. */
  datatype BridgeEvent = Dtmf(endpoint: Option<EndpointId>, digit: string, flagged: bool) | Other(name: string)

  function Redact(ev: BridgeEvent, sensitive: set<EndpointId>): BridgeEvent {
    if ev.Dtmf? && (ev.flagged || (ev.endpoint.Some? && ev.endpoint.value in sensitive))
    then ev.(digit := "~", flagged := true) else ev
  }
}
