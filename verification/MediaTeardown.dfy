/** What the loss of a session does to the gathers and leave-message runs under way: exactly which are told. */
module MediaTeardown {
  import opened Prelude
  import opened BackendPins
  import opened MediaCore
  import opened MediaTables
  import opened MediaSystem
  import opened MediaInvariants
  import opened MediaTheorems

  /** The sessions that a teardown step drops, in the order in which it does. */
  function Dropped(s: State, e: Event): seq<SessionId>
    requires TeardownEvent(e)
  {
    match e
    case Destroyed(op, _, _) => if op in s.ops && s.ops[op].Destroying? then [s.ops[op].sid] else []
    case SocketClosed(sid, _, _) => [sid]
    case OwnerLeft(owner, order, _, _) => if OwnedOrder(s.core, owner, order) then order else []
    case ShutdownDestroyed(sid, _, _) => if sid in s.closing then [sid] else []
    case _ => []
  }

  /** `a` is in the list, and `b` is not before it. */
  ghost predicate Before(order: seq<SessionId>, a: SessionId, b: Option<SessionId>) {
    exists i :: 0 <= i < |order| && order[i] == a && (b.Some? ==> b.value !in order[..i])
  }

  lemma BeforeFirst(order: seq<SessionId>, a: SessionId, b: Option<SessionId>)
    requires order != []
    ensures Before(order, a, b) <==> order[0] == a || (b != Some(order[0]) && Before(order[1..], a, b))
  {
    if Before(order, a, b) {
      var i :| 0 <= i < |order| && order[i] == a && (b.Some? ==> b.value !in order[..i]);
      if i > 0 {
        assert order[0] in order[..i] && order[1..][i - 1] == a && order[1..][..i - 1] == order[..i][1..];
      }
    }
    if order[0] == a {
      assert order[..0] == [];
    } else if b != Some(order[0]) && Before(order[1..], a, b) {
      var i :| 0 <= i < |order[1..]| && order[1..][i] == a && (b.Some? ==> b.value !in order[1..][..i]);
      assert order[i + 1] == a && order[..i + 1] == [order[0]] + order[1..][..i];
    }
  }

  /** The session of a tracked endpoint, and the one at the other end of its bridge. */
  function HomeOf(c: Core, e: EndpointId): SessionId
    requires Tracked(c, e)
  {
    c.index[e]
  }

  function PeerOf(c: Core, e: EndpointId): Option<SessionId>
    requires Tracked(c, e) && Has(c, c.index[e], e)
  {
    var ep := c.records[c.index[e]].endpoints[e];
    if ep.Bridge? then Some(ep.peerSession) else None
  }

  // ----- one session

  lemma PeersOfDropped(c: Core, born: Births, x: SessionId, e: EndpointId)
    requires IndexOk(c, born) && PairsOk(c, born) && x in c.live && Tracked(c, e)
    ensures e in c.records[x].endpoints <==> c.index[e] == x
    ensures Has(c, c.index[e], e) && (e in AllPeers(c.records[x].endpoints, c.live) <==> PeerOf(c, e) == Some(x))
  {
    var own := c.records[x].endpoints;
    var sid := c.index[e];
    assert Has(c, sid, e);
    assert e in own <==> Has(c, x, e);
    if PeerOf(c, e) == Some(x) {
      var p := c.records[sid].endpoints[e].peerEndpoint;
      assert Has(c, x, p) && born[p] == (x, own[p]);
      assert own[p] == Bridge(sid, e);
      assert e in AllPeers(own, c.live);
    }
    if e in AllPeers(own, c.live) {
      var p :| p in own && own[p].Bridge? && own[p].peerSession in c.live && own[p].peerEndpoint == e;
      assert Has(c, x, p);
      assert born[p] == (x, own[p]) && born[e] == (own[p].peerSession, Bridge(x, p));
    }
  }

  /** One teardown: what stays of an endpoint. */
  lemma DropKeepsOthers(c: Core, born: Births, x: SessionId, active: set<CallId>, now: int, e: EndpointId)
    requires TablesOk(c, born) && x in c.live && Tracked(c, e)
    ensures var c' := Drop(c, x, active, now);
            && Has(c, c.index[e], e)
            && (Tracked(c', e) <==> c.index[e] != x && PeerOf(c, e) != Some(x))
            && (Tracked(c', e) ==> c'.index[e] == c.index[e] && Has(c', c'.index[e], e) && PeerOf(c', e) == PeerOf(c, e))
  {
    var c' := Drop(c, x, active, now);
    DropEffect(c, born, x, active, now);
    PeersOfDropped(c, born, x, e);
    if Tracked(c', e) {
      assert c'.index[e] == c.index[e];
      DropKeepsIndex(c, born, x, active, now);
    }
  }

  /** One teardown: what becomes of a run. */
  lemma DropRun(c: Core, born: Births, x: SessionId, active: set<CallId>, now: int, r: OpId)
    requires TablesOk(c, born) && x in c.live && r in c.runs
    ensures var run, c' := c.runs[r], Drop(c, x, active, now);
            && r in c'.runs
            && c'.runs[r] == if !run.released && Tracked(c, run.endpoint) && c.index[run.endpoint] == x then CancelledRun(run) else run
  {
    var run, own := c.runs[r], c.records[x].endpoints;
    assert Drop(c, x, active, now).runs == CancelAll(c, own.Keys).runs;
    if run.endpoint in own {
      assert Has(c, x, run.endpoint);
      assert Tracked(c, run.endpoint) && c.index[run.endpoint] == x;
      assert HoldsClaim(c, r) <==> !run.released;
    }
    if Tracked(c, run.endpoint) && c.index[run.endpoint] == x {
      assert Has(c, x, run.endpoint);
    }
  }

  lemma DropUntracks(c: Core, born: Births, x: SessionId, active: set<CallId>, now: int, e: EndpointId)
    requires TablesOk(c, born) && !Tracked(c, e)
    ensures !Tracked(Drop(c, x, active, now), e)
  {
    if x in c.live { DropEffect(c, born, x, active, now); }
  }

  // ----- a list of sessions

  /** A run on an endpoint that nobody tracks is left alone by any number of teardowns. */
  lemma {:induction false} UntrackedRunStays(c: Core, born: Births, order: seq<SessionId>, active: set<CallId>, now: int, r: OpId)
    requires TablesOk(c, born) && r in c.runs && !Tracked(c, c.runs[r].endpoint)
    ensures var c' := DropAll(c, order, active, now); r in c'.runs && c'.runs[r] == c.runs[r] && !Tracked(c', c.runs[r].endpoint)
    decreases |order|
  {
    if order == [] { return; }
    var c1 := Drop(c, order[0], active, now);
    if order[0] in c.live { DropRun(c, born, order[0], active, now, r); }
    DropUntracks(c, born, order[0], active, now, c.runs[r].endpoint);
    DropKeepsTables(c, born, order[0], active, now);
    UntrackedRunStays(c1, born, order[1..], active, now, r);
  }

  /** The run is told: its own session is dropped, and the session of its bridge peer not before that. */
  ghost predicate Told(c: Core, order: seq<SessionId>, run: Run) {
    !run.released && Tracked(c, run.endpoint) && Has(c, c.index[run.endpoint], run.endpoint)
    && Before(order, HomeOf(c, run.endpoint), PeerOf(c, run.endpoint))
  }

  /** The endpoint goes although nobody is told: the session of its bridge peer is dropped first. */
  ghost predicate LosesPeer(c: Core, order: seq<SessionId>, e: EndpointId) {
    Tracked(c, e) && Has(c, c.index[e], e) && PeerOf(c, e).Some? && Before(order, PeerOf(c, e).value, Some(HomeOf(c, e)))
  }

  lemma TrackedHas(c: Core, born: Births, e: EndpointId)
    requires IndexOk(c, born) && PairsOk(c, born) && Tracked(c, e)
    ensures Has(c, c.index[e], e) && PeerOf(c, e) != Some(c.index[e]) && (PeerOf(c, e).Some? ==> PeerOf(c, e).value in c.live)
  {
    assert Has(c, c.index[e], e);
    assert born[e] == (c.index[e], c.records[c.index[e]].endpoints[e]);
  }

  /** The run and its endpoint after the teardowns. */
  ghost predicate Outcome(c: Core, c': Core, order: seq<SessionId>, r: OpId)
    requires r in c.runs
  {
    var run := c.runs[r];
    && r in c'.runs && c'.runs[r] == (if Told(c, order, run) then CancelledRun(run) else run)
    && (Tracked(c, run.endpoint) && !run.released ==>
          (!Tracked(c', run.endpoint) <==> Told(c, order, run) || LosesPeer(c, order, run.endpoint)))
  }

  /** The first teardown touches neither the endpoint of the run nor its peer. */
  lemma OutcomeLater(c: Core, c1: Core, c': Core, order: seq<SessionId>, r: OpId)
    requires order != [] && r in c.runs && r in c1.runs && c1.runs[r] == c.runs[r] && Outcome(c1, c', order[1..], r)
    requires var e := c.runs[r].endpoint;
             && Tracked(c, e) && Tracked(c1, e) && Has(c, c.index[e], e) && Has(c1, c1.index[e], e)
             && c1.index[e] == c.index[e] && PeerOf(c1, e) == PeerOf(c, e)
             && c.index[e] != order[0] && PeerOf(c, e) != Some(order[0])
    ensures Outcome(c, c', order, r)
  {
    var e := c.runs[r].endpoint;
    BeforeFirst(order, c.index[e], PeerOf(c, e));
    if PeerOf(c, e).Some? { BeforeFirst(order, PeerOf(c, e).value, Some(c.index[e])); }
  }

  /** It does touch one of them: that decides. */
  lemma OutcomeNow(c: Core, c': Core, order: seq<SessionId>, r: OpId)
    requires order != [] && r in c.runs && r in c'.runs
    requires var e := c.runs[r].endpoint;
             && Tracked(c, e) && Has(c, c.index[e], e) && !Tracked(c', e) && PeerOf(c, e) != Some(c.index[e])
             && (c.index[e] == order[0] || PeerOf(c, e) == Some(order[0]))
    requires var run := c.runs[r];
             c'.runs[r] == if !run.released && c.index[run.endpoint] == order[0] then CancelledRun(run) else run
    ensures Outcome(c, c', order, r)
  {
    var e := c.runs[r].endpoint;
    BeforeFirst(order, c.index[e], PeerOf(c, e));
    if PeerOf(c, e).Some? { BeforeFirst(order, PeerOf(c, e).value, Some(c.index[e])); }
  }

  lemma OutcomeSkip(c: Core, c': Core, order: seq<SessionId>, r: OpId)
    requires order != [] && r in c.runs && order[0] !in c.live && Outcome(c, c', order[1..], r)
    requires var e := c.runs[r].endpoint;
             Tracked(c, e) && Has(c, c.index[e], e) && (PeerOf(c, e).Some? ==> PeerOf(c, e).value in c.live)
    ensures Outcome(c, c', order, r)
  {
    var e := c.runs[r].endpoint;
    BeforeFirst(order, c.index[e], PeerOf(c, e));
    if PeerOf(c, e).Some? { BeforeFirst(order, PeerOf(c, e).value, Some(c.index[e])); }
  }

  lemma {:induction false} DropAllOutcome(c: Core, born: Births, order: seq<SessionId>, active: set<CallId>, now: int, r: OpId)
    requires TablesOk(c, born) && r in c.runs
    ensures Outcome(c, DropAll(c, order, active, now), order, r)
    decreases |order|
  {
    var e := c.runs[r].endpoint;
    if !Tracked(c, e) {
      UntrackedRunStays(c, born, order, active, now, r);
      return;
    }
    if order == [] { return; }
    TrackedHas(c, born, e);
    var x := order[0];
    if x !in c.live {
      DropAllOutcome(c, born, order[1..], active, now, r);
      OutcomeSkip(c, DropAll(c, order, active, now), order, r);
      return;
    }
    DropFirstOutcome(c, born, order, active, now, r);
    DropKeepsTables(c, born, x, active, now);
    if c.index[e] == x || PeerOf(c, e) == Some(x) {
      UntrackedRunStays(Drop(c, x, active, now), born, order[1..], active, now, r);
      OutcomeNow(c, DropAll(c, order, active, now), order, r);
      return;
    }
    DropAllOutcome(Drop(c, x, active, now), born, order[1..], active, now, r);
    OutcomeLater(c, Drop(c, x, active, now), DropAll(c, order, active, now), order, r);
  }

  lemma DropFirstOutcome(c: Core, born: Births, order: seq<SessionId>, active: set<CallId>, now: int, r: OpId)
    requires TablesOk(c, born) && r in c.runs && order != [] && order[0] in c.live && Tracked(c, c.runs[r].endpoint)
    ensures var e, run, c1 := c.runs[r].endpoint, c.runs[r], Drop(c, order[0], active, now);
            && Has(c, c.index[e], e) && r in c1.runs
            && c1.runs[r] == (if !run.released && c.index[e] == order[0] then CancelledRun(run) else run)
            && (Tracked(c1, e) <==> c.index[e] != order[0] && PeerOf(c, e) != Some(order[0]))
            && (Tracked(c1, e) ==> c1.index[e] == c.index[e] && Has(c1, c1.index[e], e) && PeerOf(c1, e) == PeerOf(c, e))
            && DropAll(c, order, active, now) == DropAll(c1, order[1..], active, now)
  {
    DropRun(c, born, order[0], active, now, r);
    DropKeepsOthers(c, born, order[0], active, now, c.runs[r].endpoint);
  }

  lemma OneDropped(c: Core, x: SessionId, active: set<CallId>, now: int)
    requires c.live <= c.records.Keys
    ensures DropAll(c, [x], active, now) == Drop(c, x, active, now)
  {
    DropKeepsLiveRecorded(c, x, active, now);
    assert [x][1..] == [];
  }

  lemma NoneDropped(s: State, e: Event)
    requires s.core.live <= s.core.records.Keys && TeardownEvent(e) && Dropped(s, e) == []
    ensures StepTeardown(s, e).core == s.core
  {
    if StepTeardown(s, e) == s || e.OwnerLeft? { return; }
  }

  lemma ListDropped(s: State, e: Event)
    requires s.core.live <= s.core.records.Keys && e.OwnerLeft? && Dropped(s, e) != []
    ensures StepTeardown(s, e).core == DropAll(s.core, Dropped(s, e), e.active, e.now)
  {
  }

  lemma SessionDropped(s: State, e: Event)
    requires s.core.live <= s.core.records.Keys && (e.Destroyed? || e.SocketClosed? || e.ShutdownDestroyed?) && Dropped(s, e) != []
    ensures StepTeardown(s, e).core == DropAll(s.core, Dropped(s, e), e.active, e.now)
  {
    OneDropped(s.core, Dropped(s, e)[0], e.active, e.now);
  }

  lemma DroppedCore(s: State, e: Event) returns (active: set<CallId>, now: int)
    requires s.core.live <= s.core.records.Keys && TeardownEvent(e)
    ensures StepTeardown(s, e).core == DropAll(s.core, Dropped(s, e), active, now)
  {
    if Dropped(s, e) == [] {
      NoneDropped(s, e);
      return {}, 0;
    }
    if e.OwnerLeft? {
      ListDropped(s, e);
    } else {
      SessionDropped(s, e);
    }
    return e.active, e.now;
  }

  // ----- exactly

  /** A gather is resolved as cancelled and has let its endpoint go; a leave-message is to abort. */
  predicate IsTold(run: Run, run': Run) {
    if run.kind.Gather? then run' == Run(run.endpoint, Gather, true, Some(Cancelled), run.aborted)
    else run' == Run(run.endpoint, LeaveMessage, run.released, run.outcome, true)
  }

  /** What a teardown of the sessions in `order` does to a run and its endpoint. */
  ghost predicate ToldExactly(c: Core, c': Core, order: seq<SessionId>, r: OpId)
    requires r in c.runs
  {
    var run := c.runs[r];
    && r in c'.runs && (if Told(c, order, run) then IsTold(run, c'.runs[r]) else c'.runs[r] == run)
    && (!run.released && Tracked(c, run.endpoint) ==>
          (!Tracked(c', run.endpoint) <==> Told(c, order, run) || LosesPeer(c, order, run.endpoint)))
  }

  lemma OutcomeIsExact(c: Core, c': Core, order: seq<SessionId>, r: OpId)
    requires r in c.runs && Outcome(c, c', order, r)
    ensures ToldExactly(c, c', order, r)
  {
    var run := c.runs[r];
    assert IsTold(run, CancelledRun(run));
  }

  /** Whatever takes sessions away (a destroy, a lost socket, a lost owner, the shutdown): in that step a gather is
      resolved as cancelled and released, and a leave-message run is told to abort, exactly when its own session
      is dropped and the session of its endpoint's bridge peer was not dropped before it; every other run is left
      as it is. Its endpoint goes without a word exactly when the session of that peer is dropped first. */
  lemma {:induction false} TeardownCancels(events: seq<Event>, e: Event, r: OpId)
    requires TeardownEvent(e) && r in StateAfter(events).core.runs
    ensures var s, c' := StateAfter(events), Step(StateAfter(events), e).core;
            ToldExactly(s.core, c', Dropped(s, e), r)
  {
    var s := StateAfter(events);
    RunInv(events);
    var active, now := DroppedCore(s, e);
    DropAllOutcome(s.core, s.born, Dropped(s, e), active, now, r);
    OutcomeIsExact(s.core, Step(s, e).core, Dropped(s, e), r);
  }

  /** And those sessions are the ones that go, in every such step; a shutdown lists all that are there. */
  lemma {:induction false} TeardownTakesSessions(events: seq<Event>, e: Event)
    requires TeardownEvent(e)
    ensures var s, s' := StateAfter(events), Step(StateAfter(events), e);
            && s'.core.live == s.core.live - (set x | x in Dropped(s, e))
            && (e.Stop? && !s.stopping ==> s'.stopping && s'.closing == s.core.live)
  {
    var s := StateAfter(events);
    RunInv(events);
    var active, now := DroppedCore(s, e);
    assert DropAll(s.core, Dropped(s, e), active, now).live == s.core.live - (set x | x in Dropped(s, e));
  }

  /** A request to remove an endpoint tells the action under way on it before rtpbridge is asked, and no other; a
      gather on it has let it go by then. */
  lemma {:induction false} StopTellsTheAction(events: seq<Event>, op: OpId, eid: EndpointId, r: OpId)
    requires var s := StateAfter(events); Fresh(s, op) && Tracked(s.core, eid) && r in s.core.runs
    ensures var s, s' := StateAfter(events), Step(StateAfter(events), BeginStop(op, eid));
            var run := s.core.runs[r];
            && op in s'.ops && r in s'.core.runs
            && (if run.endpoint == eid && !run.released then IsTold(run, s'.core.runs[r]) else s'.core.runs[r] == run)
            && (eid in s'.core.claims ==> s'.core.claims[eid] in s.core.runs && s.core.runs[s'.core.claims[eid]].kind.LeaveMessage?)
  {
    RunInv(events);
    var s := StateAfter(events);
    assert HoldsClaim(s.core, r) <==> HoldsClaim(s.core, r) && s.core.runs[r].endpoint == s.core.runs[r].endpoint;
    StopOf(s, op, eid, r);
  }

  lemma StopOf(s: State, op: OpId, eid: EndpointId, r: OpId)
    requires ClaimsOk(s.core, s.born) && Fresh(s, op) && Tracked(s.core, eid) && r in s.core.runs
    ensures var s' := Step(s, BeginStop(op, eid));
            var run := s.core.runs[r];
            && op in s'.ops && r in s'.core.runs
            && (if run.endpoint == eid && !run.released then IsTold(run, s'.core.runs[r]) else s'.core.runs[r] == run)
            && (eid in s'.core.claims ==> s'.core.claims[eid] in s.core.runs && s.core.runs[s'.core.claims[eid]].kind.LeaveMessage?)
  {
    assert Step(s, BeginStop(op, eid)).core == CancelAll(s.core, {eid});
  }

  predicate Nowhere(c: Core, sid: SessionId, eid: EndpointId) {
    !Has(c, sid, eid) && eid !in c.index && eid !in c.claims && eid !in c.sensitive
  }

  predicate PeerOfRemoval(p: Op, e: EndpointId)
    requires p.Removing?
  {
    p.captured.Some? && p.captured.value.Bridge? && p.captured.value.peerEndpoint == e
  }

  ghost predicate Elsewhere(c: Core, c': Core, p: Op)
    requires p.Removing?
  {
    && c'.live == c.live && c'.runs == c.runs
    && forall x, e :: Has(c, x, e) && e != p.eid && !PeerOfRemoval(p, e) ==>
                        Has(c', x, e) && c'.records[x].endpoints[e] == c.records[x].endpoints[e]
  }

  /** When rtpbridge has answered a removal, the endpoint stays as it is only if the removal failed and it is still there
      in a live session. Otherwise it is in none of the tables any more, and neither is the other end of its bridge if
      that session lives; every other endpoint stays where it is. */
  lemma RemovalTakes(events: seq<Event>, op: OpId, ok: bool)
    requires op in StateAfter(events).ops && StateAfter(events).ops[op].Removing?
    ensures var s, s' := StateAfter(events), Step(StateAfter(events), Removed(op, ok));
            var p := s.ops[op];
            && s'.ops == s.ops - {op} && Elsewhere(s.core, s'.core, p)
            && if !ok && p.sid in s.core.live && Has(s.core, p.sid, p.eid) then s'.core == s.core
               else
                 && Nowhere(s'.core, p.sid, p.eid)
                 && (p.captured.Some? && p.captured.value.Bridge? && p.captured.value.peerSession in s.core.live ==>
                       Nowhere(s'.core, p.captured.value.peerSession, p.captured.value.peerEndpoint))
  {
    RunInv(events);
    var s := StateAfter(events);
    assert OpOk(s, op, s.ops[op]);
    var p := s.ops[op];
    assert s.born[p.eid].0 in s.core.records;
    RemovedAtOnce(s, op, ok);
    if !ok && p.sid in s.core.live && Has(s.core, p.sid, p.eid) { return; }
    RemoveTakes(s.core, p);
  }

  lemma RemovedAtOnce(s: State, op: OpId, ok: bool)
    requires op in s.ops && s.ops[op].Removing? && s.ops[op].sid in s.core.records && s.core.live <= s.core.records.Keys
    ensures var s', p := Step(s, Removed(op, ok)), s.ops[op];
            && s'.ops == s.ops - {op}
            && s'.core == if !ok && p.sid in s.core.live && Has(s.core, p.sid, p.eid) then s.core
                          else Remove(s.core, p.sid, p.eid, p.captured)
  {
  }

  lemma RemoveTakes(c: Core, p: Op)
    requires p.Removing? && p.sid in c.records && c.live <= c.records.Keys
    ensures var c' := Remove(c, p.sid, p.eid, p.captured);
            && Elsewhere(c, c', p) && Nowhere(c', p.sid, p.eid)
            && (p.captured.Some? && p.captured.value.Bridge? && p.captured.value.peerSession in c.live ==>
                  Nowhere(c', p.captured.value.peerSession, p.captured.value.peerEndpoint))
  {
    var c1 := RemoveSnapshot(c, p.sid, p.eid);
    assert Nowhere(c1, p.sid, p.eid);
    if p.captured.None? { return; }
    if p.captured.value.Bridge? && p.captured.value.peerSession in c.live { return; }
  }

  // ----- claims

  lemma CreateKeepsClaim(s: State, e: Event, r: OpId)
    requires CreateEvent(e) && HoldsClaim(s.core, r)
    ensures HoldsClaim(StepCreate(s, e).core, r)
  {
    if StepCreate(s, e) == s { return; }
    if e.Configured? && e.ok && !s.stopping { return; }
    CreateMovesMgrOnly(s, e);
  }

  lemma RemovedKeepsClaim(s: State, op: OpId, ok: bool, r: OpId)
    requires Inv(s) && HoldsClaim(s.core, r)
    ensures var s' := StepEndpoint(s, Removed(op, ok));
            HoldsClaim(s'.core, r) || (r in s'.core.runs && !Tracked(s'.core, s.core.runs[r].endpoint))
  {
    if StepEndpoint(s, Removed(op, ok)) == s { return; }
    var p := s.ops[op];
    assert OpOk(s, op, p);
    var _ := RemoveEffect(s.core, s.born, p.sid, p.eid, p.captured);
  }

  lemma EndpointKeepsClaim(s: State, e: Event, r: OpId)
    requires Inv(s) && EndpointEvent(e) && !e.Removed? && HoldsClaim(s.core, r)
    ensures HoldsClaim(StepEndpoint(s, e).core, r) || (e.BeginStop? && e.eid == s.core.runs[r].endpoint && s.core.runs[r].kind.Gather?)
  {
    if StepEndpoint(s, e) == s { return; }
    match e {
      case BeginStop(_, _) => return;
      case Bridged(_, _, _) => return;
      case Added(_, _) => return;
      case _ => return;
    }
  }

  lemma TryKeepsClaim(s: State, op: OpId, r: OpId)
    requires op in s.ops && s.ops[op].Gathering? && HoldsClaim(s.core, r)
    requires op !in s.core.runs || r != op
    ensures HoldsClaim(TryCollect(s, op).core, r)
  {
  }

  /** The events after which digits may be collected. */
  lemma GatherKeepsClaim(s: State, e: Event, r: OpId)
    requires Inv(s) && (e.BeginGather? || e.Enabled? || e.PlaybackReady?) && HoldsClaim(s.core, r)
    ensures HoldsClaim(StepAction(s, e).core, r)
  {
    if StepAction(s, e) == s { return; }
    if e.BeginGather? {
      TryKeepsClaim(s.(ops := s.ops[e.op := Gathering(e.sid, e.eid, e.sensitive, e.play, e.valid, Playing)]), e.op, r);
      return;
    }
    assert OpOk(s, e.op, s.ops[e.op]);
    if e.Enabled? {
      TryKeepsClaim(s, e.op, r);
      return;
    }
    if e.peid.Some? { TryKeepsClaim(AddTo(s, s.ops[e.op].sid, e.peid.value, Plain(File)), e.op, r); }
  }

  lemma ActionKeepsClaim(s: State, e: Event, r: OpId)
    requires Inv(s) && ActionEvent(e) && !e.BeginGather? && !e.Enabled? && !e.PlaybackReady? && HoldsClaim(s.core, r)
    ensures HoldsClaim(StepAction(s, e).core, r) || ((e.Collected? || e.EndLeave?) && e.op == r)
  {
    if StepAction(s, e) == s { return; }
    match e {
      case Collected(_, _) => return;
      case Resume(_) => return;
      case Disabled(_, _) => return;
      case BeginLeave(_, _, _) => return;
      case EndLeave(_) => return;
      case _ => return;
    }
  }

  lemma TeardownKeepsClaim(s: State, e: Event, r: OpId)
    requires Inv(s) && TeardownEvent(e) && HoldsClaim(s.core, r)
    ensures var c' := StepTeardown(s, e).core; HoldsClaim(c', r) || !Tracked(c', s.core.runs[r].endpoint)
  {
    var active, now := DroppedCore(s, e);
    DropAllOutcome(s.core, s.born, Dropped(s, e), active, now, r);
    TablesTeardown(s, e);
  }

  /** A claim is lost in three ways only: its own run ends, the gather that holds it is stopped with its endpoint, or
      its endpoint is removed or goes with a session. No other operation that ends, and no teardown of other sessions,
      takes it away. */
  lemma {:induction false} ReleaseIsOwn(events: seq<Event>, e: Event, r: OpId)
    requires HoldsClaim(StateAfter(events).core, r)
    ensures var c, c' := StateAfter(events).core, Step(StateAfter(events), e).core;
            var run := c.runs[r];
            || HoldsClaim(c', r)
            || ((e.Collected? || e.EndLeave?) && e.op == r)
            || (e.BeginStop? && e.eid == run.endpoint && run.kind.Gather?)
            || ((e.Removed? || TeardownEvent(e)) && !Tracked(c', run.endpoint))
  {
    var s := StateAfter(events);
    RunInv(events);
    if CreateEvent(e) {
      CreateKeepsClaim(s, e, r);
      return;
    }
    if e.Removed? {
      RemovedKeepsClaim(s, e.op, e.ok, r);
      return;
    }
    if EndpointEvent(e) {
      EndpointKeepsClaim(s, e, r);
      return;
    }
    if TeardownEvent(e) {
      TeardownKeepsClaim(s, e, r);
      return;
    }
    if e.BeginGather? || e.Enabled? || e.PlaybackReady? {
      GatherKeepsClaim(s, e, r);
      return;
    }
    ActionKeepsClaim(s, e, r);
  }

  // ----- a gather that is not told

  function Opened(s: State, sid: SessionId, owner: ConnectionId): State {
    s.(core := Publish(s.core, sid, Session(None, 1, Some(owner), map[])))
  }

  /** A session creation without a call, from its admission to its end. */
  lemma SessionOpens(before: seq<Event>, op: OpId, sid: SessionId, owner: ConnectionId) returns (events: seq<Event>)
    requires var s := StateAfter(before);
             Fresh(s, op) && sid !in s.core.records && !s.stopping && s.core.mgr.next == 0
    ensures StateAfter(events) == Opened(StateAfter(before), sid, owner)
  {
    var s := StateAfter(before);
    var e0 := before + [Admit(op, None, Some(owner))];
    var e1 := e0 + [Pick(op, Some([Backend(1, None)]), 0)];
    var e2 := e1 + [RegisterPick(op, 0)];
    var e3 := e2 + [Event.Opened(op, true, {}, 0)];
    events := e3 + [Configured(op, true, sid)];
    RunSnoc(before, Admit(op, None, Some(owner)));
    RunSnoc(e0, Pick(op, Some([Backend(1, None)]), 0));
    PickOfOne(s, op, owner);
    RunSnoc(e1, RegisterPick(op, 0));
    RunSnoc(e2, Event.Opened(op, true, {}, 0));
    RunSnoc(e3, Configured(op, true, sid));
    PickedOpens(s, op, sid, owner);
  }

  lemma PickedOpens(s: State, op: OpId, sid: SessionId, owner: ConnectionId)
    requires Fresh(s, op) && sid !in s.core.records && !s.stopping
    ensures var picked := s.(ops := s.ops[op := Picked(None, Some(owner), 1)]);
            var open := Step(Step(picked, RegisterPick(op, 0)), Event.Opened(op, true, {}, 0));
            Step(open, Configured(op, true, sid)) == Opened(s, sid, owner)
  {
    var picked := s.(ops := s.ops[op := Picked(None, Some(owner), 1)]);
    var opening := s.(ops := s.ops[op := Opening(None, Some(owner), 1)]);
    var open := s.(ops := s.ops[op := Configuring(None, Some(owner), 1)]);
    assert Step(picked, RegisterPick(op, 0)) == opening;
    assert Step(opening, Event.Opened(op, true, {}, 0)) == open;
    assert open.ops - {op} == s.ops;
  }

  lemma PickOfOne(s: State, op: OpId, owner: ConnectionId)
    requires Fresh(s, op) && !s.stopping && s.core.mgr.next == 0
    ensures Step(Step(s, Admit(op, None, Some(owner))), Pick(op, Some([Backend(1, None)]), 0))
         == s.(ops := s.ops[op := Picked(None, Some(owner), 1)])
  {
    var b := [Backend(1, None)];
    assert b[1..] == [];
    assert Accepting(b) == b;
  }

  /** Two sessions of owner 9, bridged by the endpoints 7 and 8. */
  ghost predicate BridgedPair(s: State) {
    && s.ops == map[] && s.core.runs == map[] && s.core.claims == map[] && s.core.sensitive == {}
    && s.core.live == {5, 6} && s.core.records.Keys == {5, 6} && s.core.index == map[7 := 5, 8 := 6]
    && s.core.records[5] == Session(None, 1, Some(9), map[7 := Bridge(6, 8)])
    && s.core.records[6] == Session(None, 1, Some(9), map[8 := Bridge(5, 7)])
  }

  lemma BridgeOpens(s: State)
    requires s == Opened(Opened(INIT, 5, 9), 6, 9)
    ensures var asked := Step(s, BeginBridge(2, 5, 6)); BridgedPair(Step(asked, Event.Bridged(2, 7, 8)))
  {
    var asked := s.(ops := map[2 := Bridging(5, 6)]);
    assert Step(s, BeginBridge(2, 5, 6)) == asked;
    var s' := AddTo(AddTo(Done(asked, 2), 5, 7, Bridge(6, 8)), 6, 8, Bridge(5, 7));
    assert Step(asked, Event.Bridged(2, 7, 8)) == s';
    assert s'.core.live == {5, 6};
  }

  lemma BridgedSessions() returns (events: seq<Event>)
    ensures BridgedPair(StateAfter(events))
  {
    var one := SessionOpens([], 0, 5, 9);
    var two := SessionOpens(one, 1, 6, 9);
    var asked := two + [BeginBridge(2, 5, 6)];
    events := asked + [Event.Bridged(2, 7, 8)];
    RunSnoc(two, BeginBridge(2, 5, 6));
    RunSnoc(asked, Event.Bridged(2, 7, 8));
    BridgeOpens(StateAfter(two));
  }

  const LEAVING := OwnerLeft(9, [5, 6], {}, 0)

  /** And 8 gathers digits as operation 3. */
  lemma GatherBegins(s: State)
    requires BridgedPair(s)
    ensures var s' := Step(s, BeginGather(3, 6, 8, false, false, true));
            && s'.core == Claim(s.core, 3, 8, Gather) && OwnedOrder(s'.core, 9, [5, 6])
  {
    var s' := Step(s, BeginGather(3, 6, 8, false, false, true));
    assert s' == TryCollect(s.(ops := map[3 := Gathering(6, 8, false, false, true, Playing)]), 3);
  }

  lemma PeerGoesFirst(c: Core, s: State, run: Run)
    requires BridgedPair(s) && c == Claim(s.core, 3, 8, Gather) && run.endpoint == 8
    ensures Tracked(c, 8) && !Told(c, [5, 6], run) && LosesPeer(c, [5, 6], 8)
  {
    assert HomeOf(c, 8) == 6 && PeerOf(c, 8) == Some(5);
    BeforeFirst([5, 6], 6, Some(5));
    BeforeFirst([5, 6], 5, Some(6));
  }

  /** The owner of both leaves while 8 gathers digits: dropping session 5 takes endpoint 8 away, and its gather is
      never told, although its session is dropped in the same step. */
  lemma LostPeerLeavesGather() returns (events: seq<Event>)
    ensures var s, c' := StateAfter(events), Step(StateAfter(events), LEAVING).core;
            && OwnedOrder(s.core, 9, [5, 6]) && !Tracked(c', 8)
            && 3 in s.core.runs && s.core.runs[3] == Run(8, Gather, false, None, false)
            && 3 in c'.runs && c'.runs[3] == s.core.runs[3]
  {
    var bridged := BridgedSessions();
    events := bridged + [BeginGather(3, 6, 8, false, false, true)];
    RunSnoc(bridged, BeginGather(3, 6, 8, false, false, true));
    GatherBegins(StateAfter(bridged));
    PeerGoesFirst(StateAfter(events).core, StateAfter(bridged), Run(8, Gather, false, None, false));
    TeardownCancels(events, LEAVING, 3);
  }
}
