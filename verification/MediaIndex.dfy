/** The entries of the endpoint index that name a session that is gone: exactly the late answers. */
module MediaIndex {
  import opened Prelude
  import opened MediaCore
  import opened MediaTables
  import opened MediaSystem
  import opened MediaInvariants
  import opened MediaTheorems

  /** The answer that brings the endpoint finds its session gone. */
  predicate AnswersLate(s: State, e: Event, eid: EndpointId) {
    && eid !in s.born
    && ((e.Added? && e.eid == eid && e.op in s.ops && s.ops[e.op].Adding?)
        || (e.PlaybackReady? && e.peid == Some(eid) && InPhase(s, e.op, Playing)))
    && s.ops[e.op].sid in s.core.records && s.ops[e.op].sid !in s.core.live
  }

  ghost predicate AnsweredLate(events: seq<Event>, eid: EndpointId) {
    exists k :: 0 <= k < |events| && AnswersLate(StateAfter(events[..k]), events[k], eid)
  }

  /** The entry names a session that is not live. */
  predicate Stale(c: Core, eid: EndpointId) {
    eid in c.index && c.index[eid] !in c.live
  }

  /** A step leaves the entries of known endpoints as stale as they are, and takes late answers as stale ones. */
  ghost predicate StaleMoves(s: State, e: Event, s': State) {
    && s.born.Keys <= s'.born.Keys
    && (forall x :: x in s.born && x in s'.core.index ==> x in s.core.index && (Stale(s'.core, x) <==> Stale(s.core, x)))
    && (forall x :: x !in s.born && x in s'.core.index ==> (Stale(s'.core, x) <==> AnswersLate(s, e, x)))
    && (forall x :: AnswersLate(s, e, x) ==> x in s'.born)
  }

  /** No endpoint is born and no session comes or goes. */
  lemma SameIndexMoves(s: State, e: Event, s': State)
    requires IndexOk(s.core, s.born) && s'.born == s.born && s'.core.live == s.core.live && !e.Added? && !e.PlaybackReady?
    requires forall x :: x in s'.core.index ==> x in s.core.index && s'.core.index[x] == s.core.index[x]
    ensures StaleMoves(s, e, s')
  {
  }

  lemma CreateMoves(s: State, e: Event)
    requires IndexOk(s.core, s.born) && CreateEvent(e)
    ensures StaleMoves(s, e, StepCreate(s, e))
  {
    var s' := StepCreate(s, e);
    if s' == s { return; }
    if e.Configured? && e.ok && !s.stopping {
      assert s'.core.index == s.core.index && s'.core.live == s.core.live + {e.sid} && e.sid !in s.core.records;
      return;
    }
    CreateMovesMgrOnly(s, e);
    SameIndexMoves(s, e, s');
  }

  lemma AddedMoves(s: State, e: Event)
    requires IndexOk(s.core, s.born) && e.Added?
    ensures StaleMoves(s, e, StepEndpoint(s, e))
  {
    if StepEndpoint(s, e) == s { return; }
  }

  lemma BridgedMoves(s: State, e: Event)
    requires IndexOk(s.core, s.born) && e.Bridged?
    ensures StaleMoves(s, e, StepEndpoint(s, e))
  {
    if StepEndpoint(s, e) == s { return; }
    var sid, tid := s.ops[e.op].sid, s.ops[e.op].tid;
    if sid !in s.core.live || tid !in s.core.live { return; }
  }

  lemma RemovedMoves(s: State, e: Event)
    requires IndexOk(s.core, s.born) && e.Removed?
    ensures StaleMoves(s, e, StepEndpoint(s, e))
  {
    if StepEndpoint(s, e) == s { return; }
    SameIndexMoves(s, e, StepEndpoint(s, e));
  }

  lemma EndpointMoves(s: State, e: Event)
    requires IndexOk(s.core, s.born) && EndpointEvent(e)
    ensures StaleMoves(s, e, StepEndpoint(s, e))
  {
    if e.Added? {
      AddedMoves(s, e);
      return;
    }
    if e.Bridged? {
      BridgedMoves(s, e);
      return;
    }
    if e.Removed? {
      RemovedMoves(s, e);
      return;
    }
    SameIndexMoves(s, e, StepEndpoint(s, e));
  }

  /** A teardown takes the entries of its own session with it. */
  ghost predicate IndexShrinks(c: Core, c': Core) {
    forall x :: x in c'.index ==> x in c.index && c'.index[x] == c.index[x] && (Stale(c', x) <==> Stale(c, x))
  }

  lemma DropShrinks(c: Core, born: Births, sid: SessionId, active: set<CallId>, now: int)
    requires IndexOk(c, born)
    ensures IndexShrinks(c, Drop(c, sid, active, now))
  {
    if sid !in c.live { return; }
    forall x | x in Drop(c, sid, active, now).index
      ensures c.index[x] != sid
    {
      assert Tracked(c, x) ==> Has(c, c.index[x], x);
    }
  }

  lemma {:induction false} DropAllShrinks(c: Core, born: Births, order: seq<SessionId>, active: set<CallId>, now: int)
    requires TablesOk(c, born)
    ensures IndexShrinks(c, DropAll(c, order, active, now))
    decreases |order|
  {
    if order == [] { return; }
    DropShrinks(c, born, order[0], active, now);
    DropKeepsTables(c, born, order[0], active, now);
    DropAllShrinks(Drop(c, order[0], active, now), born, order[1..], active, now);
  }

  lemma DroppedMoves(s: State, e: Event)
    requires TablesOk(s.core, s.born) && (e.Destroyed? || e.SocketClosed? || e.ShutdownDestroyed?)
    ensures StaleMoves(s, e, StepTeardown(s, e))
  {
    if StepTeardown(s, e) == s { return; }
    DropShrinks(s.core, s.born, if e.Destroyed? then s.ops[e.op].sid else e.sid, e.active, e.now);
  }

  lemma TeardownMoves(s: State, e: Event)
    requires TablesOk(s.core, s.born) && TeardownEvent(e)
    ensures StaleMoves(s, e, StepTeardown(s, e))
  {
    if e.OwnerLeft? {
      DropAllShrinks(s.core, s.born, e.order, e.active, e.now);
      return;
    }
    if e.BeginDestroy? || e.Stop? { return; }
    DroppedMoves(s, e);
  }

  lemma PlaybackMoves(s: State, e: Event)
    requires IndexOk(s.core, s.born) && e.PlaybackReady?
    ensures StaleMoves(s, e, StepAction(s, e))
  {
    if StepAction(s, e) == s || e.peid.None? { return; }
    TryCollectCalm(AddTo(s, s.ops[e.op].sid, e.peid.value, Plain(File)), e.op);
  }

  lemma ActionMoves(s: State, e: Event)
    requires IndexOk(s.core, s.born) && ActionEvent(e)
    ensures StaleMoves(s, e, StepAction(s, e))
  {
    if StepAction(s, e) == s { return; }
    if e.PlaybackReady? {
      PlaybackMoves(s, e);
      return;
    }
    SameIndexMoves(s, e, StepAction(s, e));
  }

  lemma StepMoves(s: State, e: Event)
    requires TablesOk(s.core, s.born)
    ensures StaleMoves(s, e, Step(s, e))
  {
    if CreateEvent(e) {
      CreateMoves(s, e);
      return;
    }
    if EndpointEvent(e) {
      EndpointMoves(s, e);
      return;
    }
    if TeardownEvent(e) {
      TeardownMoves(s, e);
      return;
    }
    ActionMoves(s, e);
  }

  lemma LateGrows(init: seq<Event>, last: Event, eid: EndpointId)
    ensures AnsweredLate(init + [last], eid) <==> AnsweredLate(init, eid) || AnswersLate(StateAfter(init), last, eid)
  {
    var events := init + [last];
    assert events[..|init|] == init && events[|init|] == last;
    assert forall k :: 0 <= k < |init| ==> events[..k] == init[..k] && events[k] == init[k];
    if AnsweredLate(events, eid) {
      var k :| 0 <= k < |events| && AnswersLate(StateAfter(events[..k]), events[k], eid);
      if k < |init| { assert AnswersLate(StateAfter(init[..k]), init[k], eid); }
    }
    if AnsweredLate(init, eid) {
      var k :| 0 <= k < |init| && AnswersLate(StateAfter(init[..k]), init[k], eid);
      assert AnswersLate(StateAfter(events[..k]), events[k], eid);
    }
  }

  lemma {:induction false} LateRun(events: seq<Event>, eid: EndpointId)
    ensures var s := StateAfter(events);
            && (eid !in s.born ==> !AnsweredLate(events, eid))
            && (eid in s.core.index ==> (Stale(s.core, eid) <==> AnsweredLate(events, eid)))
    decreases |events|
  {
    if events == [] { return; }
    var init, last := events[..|events| - 1], events[|events| - 1];
    assert events == init + [last];
    LateRun(init, eid);
    LateGrows(init, last, eid);
    RunInv(init);
    RunSnoc(init, last);
    StepMoves(StateAfter(init), last);
    LateStep(StateAfter(init), last, eid);
  }

  /** An endpoint in the index is known; so a late answer is its first and only one. */
  lemma LateStep(s: State, e: Event, eid: EndpointId)
    requires TablesOk(s.core, s.born) && StaleMoves(s, e, Step(s, e))
    ensures var s' := Step(s, e);
            && (eid !in s'.born ==> eid !in s.born && !AnswersLate(s, e, eid))
            && (eid in s.born ==> !AnswersLate(s, e, eid) && (eid in s'.core.index ==> eid in s.core.index && (Stale(s'.core, eid) <==> Stale(s.core, eid))))
            && (eid !in s.born && eid in s'.core.index ==> (Stale(s'.core, eid) <==> AnswersLate(s, e, eid)))
  {
  }

  /** In every run an entry of the endpoint index names a session that is gone exactly when the answer that
      brought the endpoint came after the session went. */
  lemma {:induction false} StaleIffAnsweredLate(events: seq<Event>, eid: EndpointId)
    requires eid in StateAfter(events).core.index
    ensures StateAfter(events).core.index[eid] !in StateAfter(events).core.live <==> AnsweredLate(events, eid)
  {
    LateRun(events, eid);
  }
}
