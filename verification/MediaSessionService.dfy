/** The media session service in its own form (src/media-session-service.ts): session records and
    tables updated in place. The methods are the synchronous helpers of the source, proved to do to the tables
    exactly what the functions of MediaCore say; the asynchronous ones are in MediaOperations. */
module MediaSessionService {
  import opened Prelude
  import opened BackendPins
  import opened MediaCore
  import M = MediaSystem

  // ----- loops, one element at a time

  ghost predicate ClaimsWf(c: Core) {
    forall e :: e in c.claims ==>
                  var r := c.claims[e];
                  r in c.runs && c.runs[r].endpoint == e && !c.runs[r].released && c.runs[r].outcome.None?
  }

  lemma CancelOneMore(c: Core, done: set<EndpointId>, e: EndpointId)
    requires ClaimsWf(c) && e !in done
    ensures CancelAll(CancelAll(c, done), {e}) == CancelAll(c, done + {e})
  {
    var c1 := CancelAll(c, done);
    assert forall x :: x in c1.claims ==> GatherClaim(c1, x) == GatherClaim(c, x);
    assert forall r :: r in c.runs && c.runs[r].endpoint !in done ==> HoldsClaim(c1, r) == HoldsClaim(c, r);
    assert CancelAll(c1, {e}).runs == CancelAll(c, done + {e}).runs;
    assert CancelAll(c1, {e}).claims == CancelAll(c, done + {e}).claims;
  }

  lemma CancelOne(c: Core, e: EndpointId)
    requires ClaimsWf(c)
    ensures var c' := CancelAll(c, {e});
            if e in c.claims then
              var r := c.claims[e];
              && c'.runs == c.runs[r := CancelledRun(c.runs[r])]
              && c'.claims == if c.runs[r].kind.Gather? then c.claims - {e} else c.claims
            else c' == c
  {
    var c' := CancelAll(c, {e});
    if e in c.claims {
      var r := c.claims[e];
      assert forall x :: HoldsClaim(c, x) && c.runs[x].endpoint == e ==> x == r;
      assert c'.runs == c.runs[r := CancelledRun(c.runs[r])];
    } else {
      assert c'.runs == c.runs && c'.claims == c.claims;
    }
  }

  lemma CancelNone(c: Core)
    ensures CancelAll(c, {}) == c
  {
    assert CancelAll(c, {}).runs == c.runs && CancelAll(c, {}).claims == c.claims;
  }

  lemma CancelKeepsWf(c: Core, own: set<EndpointId>)
    requires ClaimsWf(c)
    ensures ClaimsWf(CancelAll(c, own))
  {
  }

  function Part(own: map<EndpointId, Endpoint>, done: set<EndpointId>): map<EndpointId, Endpoint> {
    map e | e in own && e in done :: own[e]
  }

  lemma PeersOneMore(own: map<EndpointId, Endpoint>, done: set<EndpointId>, e: EndpointId, live: set<SessionId>, s: SessionId)
    requires e in own
    ensures PeersIn(Part(own, done + {e}), live, s)
         == PeersIn(Part(own, done), live, s) + if own[e].Bridge? && own[e].peerSession == s && s in live then {own[e].peerEndpoint} else {}
  {
    var more := Part(own, done + {e});
    forall p | p in PeersIn(Part(own, done), live, s)
      ensures p in PeersIn(more, live, s)
    {
      var x :| x in Part(own, done) && own[x].Bridge? && own[x].peerSession == s && own[x].peerEndpoint == p;
      assert x in more;
    }
    assert e in more;
  }

  lemma AllPeersOneMore(own: map<EndpointId, Endpoint>, done: set<EndpointId>, e: EndpointId, live: set<SessionId>)
    requires e in own
    ensures AllPeers(Part(own, done + {e}), live)
         == AllPeers(Part(own, done), live) + if own[e].Bridge? && own[e].peerSession in live then {own[e].peerEndpoint} else {}
  {
    var more := Part(own, done + {e});
    forall p | p in AllPeers(Part(own, done), live)
      ensures p in AllPeers(more, live)
    {
      var x :| x in Part(own, done) && own[x].Bridge? && own[x].peerSession in live && own[x].peerEndpoint == p;
      assert x in more;
    }
    assert e in more;
  }

  lemma RecordOneMore(c: Core, own: map<EndpointId, Endpoint>, done: set<EndpointId>, e: EndpointId, s: SessionId)
    requires c.live <= c.records.Keys && e in own && s in c.records
    ensures var c1 := DropPeers(c, Part(own, done));
            && c1.live <= c1.records.Keys && s in RemovePaired(c1, own[e]).records
            && RemovePaired(c1, own[e]).records[s] == DropPeers(c, Part(own, done + {e})).records[s]
  {
    var r2 := RemovePaired(DropPeers(c, Part(own, done)), own[e]).records[s];
    var r3 := DropPeers(c, Part(own, done + {e})).records[s];
    PeersOneMore(own, done, e, c.live, s);
    assert r2.endpoints == r3.endpoints;
  }

  lemma DropPeerOneMore(c: Core, own: map<EndpointId, Endpoint>, done: set<EndpointId>, e: EndpointId)
    requires c.live <= c.records.Keys && e in own && e !in done
    ensures var c1 := DropPeers(c, Part(own, done));
            c1.live <= c1.records.Keys && RemovePaired(c1, own[e]) == DropPeers(c, Part(own, done + {e}))
  {
    var c2 := RemovePaired(DropPeers(c, Part(own, done)), own[e]);
    var c3 := DropPeers(c, Part(own, done + {e}));
    RecordsOneMore(c, own, done, e);
    AllPeersOneMore(own, done, e, c.live);
    assert c2.index == c3.index;
    assert c2.claims == c3.claims;
  }

  lemma RecordsOneMore(c: Core, own: map<EndpointId, Endpoint>, done: set<EndpointId>, e: EndpointId)
    requires c.live <= c.records.Keys && e in own
    ensures var c1 := DropPeers(c, Part(own, done));
            c1.live <= c1.records.Keys && RemovePaired(c1, own[e]).records == DropPeers(c, Part(own, done + {e})).records
  {
    forall s | s in c.records
      ensures s in RemovePaired(DropPeers(c, Part(own, done)), own[e]).records
      ensures RemovePaired(DropPeers(c, Part(own, done)), own[e]).records[s] == DropPeers(c, Part(own, done + {e})).records[s]
    {
      RecordOneMore(c, own, done, e, s);
    }
  }

  lemma DropPeersNone(c: Core, own: map<EndpointId, Endpoint>)
    ensures DropPeers(c, Part(own, {})) == c
  {
    var c' := DropPeers(c, Part(own, {}));
    forall s | s in c.records
      ensures c'.records[s] == c.records[s]
    {
      assert PeersIn(Part(own, {}), c.live, s) == {};
      assert c'.records[s].endpoints == c.records[s].endpoints;
    }
    assert c'.records == c.records && c'.index == c.index && c'.claims == c.claims;
  }

  /** `order` lists, once each, the members of `all` that are not left. */
  ghost predicate Taken(all: set<SessionId>, left: set<SessionId>, order: seq<SessionId>) {
    && left <= all
    && (forall id :: id in order <==> id in all && id !in left)
    && (forall i, j :: 0 <= i < j < |order| ==> order[i] != order[j])
  }

  lemma TakeOne(all: set<SessionId>, left: set<SessionId>, order: seq<SessionId>, id: SessionId)
    requires Taken(all, left, order) && id in left
    ensures Taken(all, left - {id}, order + [id])
  {
  }

  lemma TakenAll(c: Core, owner: ConnectionId, all: set<SessionId>, order: seq<SessionId>)
    requires Taken(all, {}, order)
    requires forall id :: id in all <==> id in c.live && id in c.records && c.records[id].owner == Some(owner)
    ensures OwnedOrder(c, owner, order)
  {
  }

  /** A resolved run has released its claim; in which order does not matter. */
  lemma FinishReleases(c: Core, r: OpId, reason: Reason)
    requires r in c.runs && c.runs[r].outcome.None?
    ensures var c1 := Release(c, r);
            r in c1.runs && c1.runs[r].released && Finish(c, r, reason) == c1.(runs := c1.runs[r := c1.runs[r].(outcome := Some(reason))])
  {
  }

  lemma PartAll(own: map<EndpointId, Endpoint>, done: set<EndpointId>)
    requires forall e :: e in own ==> e in done
    ensures Part(own, done) == own
  {
    assert forall e :: e in own <==> e in Part(own, done);
    assert Part(own, done).Keys == own.Keys;
  }

  // ----- the objects

  class MediaSessionRecord {
    const sessionId: SessionId
    const callId: Option<CallId>
    const backendId: BackendId
    const ownerConnectionId: Option<ConnectionId>
    var endpoints: map<EndpointId, Endpoint>

    constructor (sessionId: SessionId, callId: Option<CallId>, backendId: BackendId, owner: Option<ConnectionId>)
      ensures this.sessionId == sessionId && Model() == Session(callId, backendId, owner, map[])
    {
      this.sessionId, this.callId, this.backendId, this.ownerConnectionId := sessionId, callId, backendId, owner;
      endpoints := map[];
    }

    ghost function Model(): Session
      reads this
    {
      Session(callId, backendId, ownerConnectionId, endpoints)
    }
  }

  class MediaSessionService {
    const mediaServers: MediaServerManager
    var sessions: map<SessionId, MediaSessionRecord>
    var endpointToSession: map<EndpointId, SessionId>
    var activeEndpointActions: map<EndpointId, OpId>
    var actionRuns: map<OpId, Run>
    var sensitiveGatherEndpointIds: set<EndpointId>
    /** Every record ever published; suspended operations hold on to those that are no longer live. */
    var known: map<SessionId, MediaSessionRecord>

    /** The tables are well formed, which is all that the helpers rely on. */
    ghost predicate Valid()
      reads this, known.Values, mediaServers
      ensures Valid() ==> Model().live <= Model().records.Keys
    {
      && (forall id :: id in known ==> known[id].sessionId == id)
      && (forall id :: id in sessions ==> id in known && known[id] == sessions[id])
      && (forall id, e :: id in known && e in known[id].endpoints && known[id].endpoints[e].Bridge? ==>
                            known[id].endpoints[e].peerSession != id)
      && ClaimsWf(Tables())
    }

    /** The tables apart from the records. */
    ghost function Tables(): Core
      reads this
    {
      Core(map[], sessions.Keys, endpointToSession, activeEndpointActions, actionRuns, sensitiveGatherEndpointIds, Manager(map[], 0))
    }

    ghost function Model(): Core
      reads this, known.Values, mediaServers
    {
      Core(map id | id in known :: known[id].Model(), sessions.Keys, endpointToSession, activeEndpointActions, actionRuns,
           sensitiveGatherEndpointIds, mediaServers.Model())
    }

    ghost predicate Knows(session: MediaSessionRecord)
      reads this
    {
      session.sessionId in known && known[session.sessionId] == session
    }

    constructor (mediaServers: MediaServerManager)
      ensures Valid() && this.mediaServers == mediaServers
      ensures Model() == EMPTY.(mgr := mediaServers.Model())
    {
      this.mediaServers := mediaServers;
      sessions, endpointToSession, activeEndpointActions, actionRuns := map[], map[], map[], map[];
      sensitiveGatherEndpointIds := {};
      known := map[];
    }

    /** The end of a session creation whose RPCs all succeeded; rtpbridge session ids are new. */
    method PublishSession(sessionId: SessionId, callId: Option<CallId>, backendId: BackendId, owner: Option<ConnectionId>)
      requires Valid() && sessionId !in known
      modifies this`sessions, this`known
      ensures Valid() && Model() == Publish(old(Model()), sessionId, Session(callId, backendId, owner, map[]))
      ensures known == old(known)[sessionId := sessions[sessionId]] && fresh(sessions[sessionId])
    {
      var record := new MediaSessionRecord(sessionId, callId, backendId, owner);
      sessions := sessions[sessionId := record];
      known := known[sessionId := record];
      assert Model().records == old(Model()).records[sessionId := Session(callId, backendId, owner, map[])];
    }

    method AddEndpoint(session: MediaSessionRecord, endpointId: EndpointId, ep: Endpoint)
      requires Valid() && Knows(session) && (ep.Bridge? ==> ep.peerSession != session.sessionId)
      modifies this`endpointToSession, session`endpoints
      ensures Valid() && Model() == Add(old(Model()), session.sessionId, endpointId, ep)
      ensures session.endpoints == old(session.endpoints)[endpointId := ep]
      ensures endpointToSession == old(endpointToSession)[endpointId := session.sessionId]
    {
      session.endpoints := session.endpoints[endpointId := ep];
      endpointToSession := endpointToSession[endpointId := session.sessionId];
      ghost var spec := Add(old(Model()), session.sessionId, endpointId, ep).records;
      forall id | id in known
        ensures Model().records[id] == spec[id]
      {
      }
      assert Model().records == spec;
    }

    /** bridge up to its RPC. */
    method BridgeRequest(sessionId: SessionId, targetId: SessionId) returns (refusal: Option<M.BridgeError>)
      requires Valid()
      ensures refusal == M.BridgeRefusal(Model(), sessionId, targetId)
      ensures refusal == Some(M.NoSession) <==> sessionId !in sessions || targetId !in sessions
      ensures refusal == Some(M.SelfBridge) <==> sessionId in sessions && targetId in sessions && sessionId == targetId
      ensures refusal.None? <==> sessionId in sessions && targetId in sessions && sessionId != targetId
                                 && sessions[sessionId].backendId == sessions[targetId].backendId
    {
      if sessionId !in sessions || targetId !in sessions { return Some(M.NoSession); }
      if sessionId == targetId { return Some(M.SelfBridge); }
      if sessions[sessionId].backendId != sessions[targetId].backendId { return Some(M.OtherBackend); }
      return None;
    }

    /** The continuation of bridge after its RPC: both sessions are looked up again. */
    method BridgeResume(session: MediaSessionRecord, target: MediaSessionRecord, endpointId: EndpointId, targetEndpointId: EndpointId)
      returns (bridged: bool)
      requires Valid() && Knows(session) && Knows(target) && session != target
      modifies this`endpointToSession, session`endpoints, target`endpoints
      ensures Valid()
      ensures bridged <==> session.sessionId in old(Model()).live && target.sessionId in old(Model()).live
      ensures Model() == if !bridged then old(Model())
                         else Add(Add(old(Model()), session.sessionId, endpointId, Bridge(target.sessionId, targetEndpointId)),
                                  target.sessionId, targetEndpointId, Bridge(session.sessionId, endpointId))
    {
      bridged := session.sessionId in sessions && sessions[session.sessionId] == session
                 && target.sessionId in sessions && sessions[target.sessionId] == target;
      if bridged {
        AddEndpoint(session, endpointId, Bridge(target.sessionId, targetEndpointId));
        AddEndpoint(target, targetEndpointId, Bridge(session.sessionId, endpointId));
      }
    }

    method RemoveEndpointSnapshot(session: MediaSessionRecord, endpointId: EndpointId)
      requires Valid() && Knows(session)
      modifies this`endpointToSession, this`activeEndpointActions, this`sensitiveGatherEndpointIds, session`endpoints
      ensures Valid() && Model() == RemoveSnapshot(old(Model()), session.sessionId, endpointId)
    {
      session.endpoints := session.endpoints - {endpointId};
      endpointToSession := endpointToSession - {endpointId};
      activeEndpointActions := activeEndpointActions - {endpointId};
      sensitiveGatherEndpointIds := sensitiveGatherEndpointIds - {endpointId};
      ghost var spec := RemoveSnapshot(old(Model()), session.sessionId, endpointId).records;
      forall id | id in known
        ensures Model().records[id] == spec[id]
      {
      }
      assert Model().records == spec;
    }

    method RemovePairedBridgeEndpoint(ep: Endpoint)
      requires Valid()
      modifies this`endpointToSession, this`activeEndpointActions, this`sensitiveGatherEndpointIds, known.Values
      ensures Valid() && Model() == RemovePaired(old(Model()), ep)
      ensures forall id :: id in known && !(ep.Bridge? && ep.peerSession == id) ==> known[id].endpoints == old(known[id].endpoints)
    {
      if ep.Bridge? && ep.peerSession in sessions {
        RemoveEndpointSnapshot(sessions[ep.peerSession], ep.peerEndpoint);
      }
    }

    /** The continuation of removeTrackedEndpoint; `captured` is what the record held before the RPC. */
    method RemoveTrackedResume(session: MediaSessionRecord, endpointId: EndpointId, captured: Option<Endpoint>, ok: bool)
      returns (removed: bool)
      requires Valid() && Knows(session)
      modifies this`endpointToSession, this`activeEndpointActions, this`sensitiveGatherEndpointIds, known.Values
      ensures Valid()
      ensures removed <==> ok || session.sessionId !in old(Model()).live || endpointId !in old(session.endpoints)
      ensures Model() == if removed then Remove(old(Model()), session.sessionId, endpointId, captured) else old(Model())
    {
      if !ok && session.sessionId in sessions && sessions[session.sessionId] == session && endpointId in session.endpoints {
        return false;
      }
      RemoveEndpointSnapshot(session, endpointId);
      if captured.Some? {
        RemovePairedBridgeEndpoint(captured.value);
      }
      return true;
    }

    // ----- endpoint actions

    method ClaimEndpointAction(endpointId: EndpointId, run: OpId, kind: ActionKind) returns (claimed: bool)
      requires Valid() && run !in actionRuns
      modifies this`activeEndpointActions, this`actionRuns
      ensures Valid() && (claimed <==> endpointId !in old(activeEndpointActions))
      ensures Model() == if claimed then Claim(old(Model()), run, endpointId, kind) else old(Model())
    {
      if endpointId in activeEndpointActions { return false; }
      actionRuns := actionRuns[run := Run(endpointId, kind, false, None, false)];
      activeEndpointActions := activeEndpointActions[endpointId := run];
      return true;
    }

    method ReleaseAction(run: OpId)
      requires Valid() && run in actionRuns
      modifies this`activeEndpointActions, this`actionRuns
      ensures Valid() && Model() == Release(old(Model()), run)
    {
      var r := actionRuns[run];
      if r.released { return; }
      actionRuns := actionRuns[run := r.(released := true)];
      if r.endpoint in activeEndpointActions && activeEndpointActions[r.endpoint] == run {
        activeEndpointActions := activeEndpointActions - {r.endpoint};
      }
    }

    method CancelEndpointAction(endpointId: EndpointId)
      requires Valid()
      modifies this`activeEndpointActions, this`actionRuns
      ensures Valid() && Model() == CancelAll(old(Model()), {endpointId})
    {
      CancelKeepsWf(Tables(), {endpointId});
      CancelOne(Tables(), endpointId);
      CancelOne(Model(), endpointId);
      if endpointId in activeEndpointActions {
        var run := activeEndpointActions[endpointId];
        var r := actionRuns[run];
        if r.kind.Gather? {
          actionRuns := actionRuns[run := r.(outcome := Some(Cancelled), released := true)];
          activeEndpointActions := activeEndpointActions - {endpointId};
        } else {
          actionRuns := actionRuns[run := r.(aborted := true)];
        }
      }
      assert Tables() == CancelAll(old(Tables()), {endpointId});
    }

    method CancelSessionActions(session: MediaSessionRecord)
      requires Valid()
      modifies this`activeEndpointActions, this`actionRuns
      ensures Valid() && Model() == CancelAll(old(Model()), session.endpoints.Keys)
    {
      ghost var c := Model();
      ghost var done: set<EndpointId> := {};
      var todo := session.endpoints.Keys;
      CancelNone(c);
      while todo != {}
        invariant Valid() && done !! todo && done + todo == session.endpoints.Keys
        invariant Model() == CancelAll(c, done)
        decreases |todo|
      {
        var endpointId := AnyOf(todo);
        CancelOneMore(c, done, endpointId);
        todo, done := todo - {endpointId}, done + {endpointId};
        CancelEndpointAction(endpointId);
      }
      assert done == session.endpoints.Keys;
    }

    // ----- teardown

    /** The peer of one endpoint, after the peers of `done`. */
    method DropPairOf(session: MediaSessionRecord, endpointId: EndpointId, ghost c: Core, ghost done: set<EndpointId>)
      requires Valid() && Knows(session) && endpointId in session.endpoints && endpointId !in done
      requires c.live <= c.records.Keys && Model() == DropPeers(c, Part(session.endpoints, done))
      modifies this`endpointToSession, this`activeEndpointActions, this`sensitiveGatherEndpointIds, known.Values
      ensures Valid() && session.endpoints == old(session.endpoints)
      ensures Model() == DropPeers(c, Part(old(session.endpoints), done + {endpointId}))
    {
      DropPeerOneMore(c, session.endpoints, done, endpointId);
      RemovePairedBridgeEndpoint(session.endpoints[endpointId]);
    }

    method DropPairedBridgeEndpoints(session: MediaSessionRecord)
      requires Valid() && Knows(session)
      modifies this`endpointToSession, this`activeEndpointActions, this`sensitiveGatherEndpointIds, known.Values
      ensures Valid() && Model() == DropPeers(old(Model()), old(session.endpoints)) && session.endpoints == old(session.endpoints)
    {
      ghost var c := Model();
      ghost var done: set<EndpointId> := {};
      var todo := session.endpoints.Keys;
      DropPeersNone(c, session.endpoints);
      while todo != {}
        invariant Valid() && session.endpoints == old(session.endpoints) && Model() == DropPeers(c, Part(session.endpoints, done))
        invariant todo <= session.endpoints.Keys && done !! todo
        invariant forall e :: e in session.endpoints ==> e in done || e in todo
        decreases |todo|
      {
        var endpointId := AnyOf(todo);
        DropPairOf(session, endpointId, c, done);
        todo, done := todo - {endpointId}, done + {endpointId};
      }
      PartAll(session.endpoints, done);
    }

    method ForgetEndpoints(gone: set<EndpointId>)
      modifies this`endpointToSession, this`sensitiveGatherEndpointIds
      ensures endpointToSession == old(endpointToSession) - gone
      ensures sensitiveGatherEndpointIds == old(sensitiveGatherEndpointIds) - gone
    {
      var todo := gone;
      while todo != {}
        invariant todo <= gone
        invariant endpointToSession == old(endpointToSession) - (gone - todo)
        invariant sensitiveGatherEndpointIds == old(sensitiveGatherEndpointIds) - (gone - todo)
        decreases |todo|
      {
        var endpointId := AnyOf(todo);
        endpointToSession := endpointToSession - {endpointId};
        sensitiveGatherEndpointIds := sensitiveGatherEndpointIds - {endpointId};
        todo := todo - {endpointId};
      }
    }

    method ForgetSession(session: MediaSessionRecord)
      requires Valid() && Knows(session)
      modifies this`sessions, this`endpointToSession, this`sensitiveGatherEndpointIds
      ensures Valid()
      ensures var c, own := old(Model()), session.endpoints.Keys;
              Model() == c.(live := c.live - {session.sessionId}, index := c.index - own, sensitive := c.sensitive - own)
    {
      sessions := sessions - {session.sessionId};
      ForgetEndpoints(session.endpoints.Keys);
    }

    method DropSession(sessionId: SessionId, active: set<CallId>, now: int)
      requires Valid()
      modifies this`sessions, this`endpointToSession, this`sensitiveGatherEndpointIds, this`activeEndpointActions, this`actionRuns
      modifies known.Values, mediaServers
      ensures Valid() && Model() == Drop(old(Model()), sessionId, active, now)
    {
      if sessionId !in sessions { return; }
      var session := sessions[sessionId];
      assert Model().records[sessionId] == session.Model();
      CancelSessionActions(session);
      DropPairedBridgeEndpoints(session);
      ForgetSession(session);
      if session.callId.Some? {
        Unregister(session, active, now);
      }
    }

    method Unregister(session: MediaSessionRecord, active: set<CallId>, now: int)
      requires Valid() && session.callId.Some?
      modifies mediaServers`callToBackend
      ensures Valid() && Model() == old(Model()).(mgr := Unpin(old(Model()).mgr, session.Model(), active, now))
    {
      mediaServers.UnregisterCall(session.callId.value, Some(session.backendId), session.callId.value in active, now);
    }

    /** The synchronous part of destroySessionsForOwner; `order` is the order of the teardowns. */
    method DestroySessionsForOwner(owner: ConnectionId, active: set<CallId>, now: int) returns (ghost order: seq<SessionId>)
      requires Valid()
      modifies this`sessions, this`endpointToSession, this`sensitiveGatherEndpointIds, this`activeEndpointActions, this`actionRuns
      modifies known.Values, mediaServers
      ensures Valid()
      ensures OwnedOrder(old(Model()), owner, order)
      ensures Model() == DropAll(old(Model()), order, active, now)
    {
      var owned := Owned(owner);
      ghost var c := Model();
      order := DropEach(owned, active, now);
      TakenAll(c, owner, owned, order);
    }

    method DropEach(owned: set<SessionId>, active: set<CallId>, now: int) returns (ghost order: seq<SessionId>)
      requires Valid()
      modifies this`sessions, this`endpointToSession, this`sensitiveGatherEndpointIds, this`activeEndpointActions, this`actionRuns
      modifies known.Values, mediaServers
      ensures Valid() && Taken(owned, {}, order) && Model() == DropAll(old(Model()), order, active, now)
    {
      ghost var c := Model();
      var todo := owned;
      order := [];
      while todo != {}
        invariant Valid() && Taken(owned, todo, order) && Model() == DropAll(c, order, active, now)
        decreases |todo|
      {
        var sessionId := AnyOf(todo);
        TakeOne(owned, todo, order, sessionId);
        DropNext(c, order, sessionId, active, now);
        todo := todo - {sessionId};
        order := order + [sessionId];
      }
    }

    method DropNext(ghost c: Core, ghost order: seq<SessionId>, sessionId: SessionId, active: set<CallId>, now: int)
      requires Valid() && c.live <= c.records.Keys && Model() == DropAll(c, order, active, now)
      modifies this`sessions, this`endpointToSession, this`sensitiveGatherEndpointIds, this`activeEndpointActions, this`actionRuns
      modifies known.Values, mediaServers
      ensures Valid() && Model() == DropAll(c, order + [sessionId], active, now)
    {
      DropAllSnoc(c, order, sessionId, active, now);
      DropSession(sessionId, active, now);
    }

    function Owned(owner: ConnectionId): (r: set<SessionId>)
      requires Valid()
      reads this, known.Values, mediaServers
      ensures forall id :: id in r <==> id in Model().live && id in Model().records && Model().records[id].owner == Some(owner)
    {
      set id | id in sessions && sessions[id].ownerConnectionId == Some(owner)
    }

    // ----- sensitive DTMF

    method RequireEndpointInSession(sessionId: SessionId, endpointId: EndpointId) returns (found: bool)
      requires Valid()
      ensures found <==> M.InSession(Model(), sessionId, endpointId)
    {
      if sessionId !in sessions { return false; }
      return endpointId in endpointToSession && endpointToSession[endpointId] == sessionId
             && endpointId in sessions[sessionId].endpoints;
    }

    /** Whether a gather may start: no sensitive one is under way, and a sensitive one finds no action at all. */
    method AssertDtmfGatherAvailable(endpointId: EndpointId, sensitive: bool) returns (available: bool)
      ensures available <==> endpointId !in sensitiveGatherEndpointIds && (sensitive ==> endpointId !in activeEndpointActions)
    {
      if endpointId in sensitiveGatherEndpointIds || (sensitive && endpointId in activeEndpointActions) { return false; }
      return true;
    }

    /** withSensitiveDtmf up to its first await: events are masked before rtpbridge is asked. */
    method BeginSensitive(endpointId: EndpointId)
      requires Valid()
      modifies this`sensitiveGatherEndpointIds
      ensures Valid() && Model() == old(Model()).(sensitive := old(Model()).sensitive + {endpointId})
    {
      sensitiveGatherEndpointIds := sensitiveGatherEndpointIds + {endpointId};
    }

    /** Enabling failed, or disabling was confirmed; after a failed disable nothing is done. */
    method EndSensitive(endpointId: EndpointId)
      requires Valid()
      modifies this`sensitiveGatherEndpointIds
      ensures Valid() && Model() == old(Model()).(sensitive := old(Model()).sensitive - {endpointId})
    {
      sensitiveGatherEndpointIds := sensitiveGatherEndpointIds - {endpointId};
    }

    // ----- the manager as the service calls it

    method PickBackend(backends: Option<seq<Backend>>, callId: Option<CallId>, now: int) returns (r: Result<Backend, PickError>)
      requires Valid()
      modifies mediaServers
      ensures Valid()
      ensures var pick := Pick(old(Model()).mgr, backends, None, callId, now);
              r == pick.1 && Model() == old(Model()).(mgr := pick.0)
    {
      r := mediaServers.PickBackend(backends, None, callId, now);
    }

    method RegisterClient(callId: CallId, backend: BackendId, now: int) returns (registered: bool)
      requires Valid()
      modifies mediaServers`callToBackend
      ensures var pins := Register(old(Model()).mgr.pins, callId, backend, now);
              && Valid() && (registered <==> pins.Ok?)
              && Model() == if pins.Ok? then old(Model()).(mgr := old(Model()).mgr.(pins := pins.value)) else old(Model())
    {
      var r := mediaServers.RegisterCall(callId, backend, now);
      return r.Ok?;
    }

    method SweepPins(active: set<CallId>, now: int)
      requires Valid()
      modifies mediaServers`callToBackend
      ensures Valid() && Model() == old(Model()).(mgr := old(Model()).mgr.(pins := Sweep(old(Model()).mgr.pins, active, now)))
    {
      mediaServers.SweepStaleEntries(active, now);
    }

    /** The client of a creation that failed gives its reference back. */
    method UnregisterClient(callId: Option<CallId>, backend: BackendId, active: set<CallId>, now: int)
      requires Valid()
      modifies mediaServers`callToBackend
      ensures Valid() && Model() == old(Model()).(mgr := M.UnpinOp(old(Model()).mgr, callId, backend, active, now))
    {
      if callId.Some? {
        mediaServers.UnregisterCall(callId.value, Some(backend), callId.value in active, now);
      }
    }

    /** requireSessionForEndpoint. */
    method SessionForEndpoint(endpointId: EndpointId) returns (session: Option<SessionId>)
      requires Valid()
      ensures session == if Tracked(Model(), endpointId) then Some(endpointToSession[endpointId]) else None
    {
      if endpointId !in endpointToSession || endpointToSession[endpointId] !in sessions { return None; }
      return Some(endpointToSession[endpointId]);
    }

    method Capture(sessionId: SessionId, endpointId: EndpointId) returns (captured: Option<Endpoint>)
      requires Valid() && sessionId in known
      ensures captured == M.Captured(Model(), sessionId, endpointId)
    {
      var endpoints := known[sessionId].endpoints;
      return if endpointId in endpoints then Some(endpoints[endpointId]) else None;
    }

    /** The closure of a gather: resolved once, and with that its claim is released. */
    method FinishRun(run: OpId, reason: Reason)
      requires Valid() && run in actionRuns
      modifies this`activeEndpointActions, this`actionRuns
      ensures Valid() && Model() == Finish(old(Model()), run, reason)
    {
      if actionRuns[run].outcome.Some? { return; }
      FinishReleases(Model(), run, reason);
      ReleaseAction(run);
      SetOutcome(run, reason);
    }

    method SetOutcome(run: OpId, reason: Reason)
      requires Valid() && run in actionRuns && actionRuns[run].released
      modifies this`actionRuns
      ensures var c := old(Model());
              Valid() && Model() == c.(runs := c.runs[run := c.runs[run].(outcome := Some(reason))])
    {
      actionRuns := actionRuns[run := actionRuns[run].(outcome := Some(reason))];
    }

    method PublishRtpbridgeEvent(session: MediaSessionRecord, event: BridgeEvent) returns (sent: Option<(ConnectionId, BridgeEvent)>)
      requires Valid() && Knows(session)
      ensures var owner := Model().records[session.sessionId].owner;
              sent == if owner.None? then None else Some((owner.value, Redact(event, Model().sensitive)))
      ensures sent.Some? <==> session.ownerConnectionId.Some?
      ensures sent.Some? ==>
                && Some(sent.value.0) == session.ownerConnectionId
                && sent.value.1 == if event.Dtmf? && (event.flagged || (event.endpoint.Some? && event.endpoint.value in sensitiveGatherEndpointIds))
                                   then Dtmf(event.endpoint, "~", true) else event
    {
      if session.ownerConnectionId.None? { return None; }
      var publishable := Redact(event, sensitiveGatherEndpointIds);
      return Some((session.ownerConnectionId.value, publishable));
    }
  }

  lemma {:induction false} DropAllSnoc(c: Core, order: seq<SessionId>, sid: SessionId, active: set<CallId>, now: int)
    requires c.live <= c.records.Keys
    ensures var c' := DropAll(c, order, active, now);
            c'.live <= c'.records.Keys && DropAll(c, order + [sid], active, now) == Drop(c', sid, active, now)
    decreases |order|
  {
    if order == [] {
      assert [sid][1..] == [];
    } else {
      DropKeepsLiveRecorded(c, order[0], active, now);
      assert (order + [sid])[1..] == order[1..] + [sid];
      DropAllSnoc(Drop(c, order[0], active, now), order[1..], sid, active, now);
    }
  }
}
