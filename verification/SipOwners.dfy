/** What an owner that has disconnected can still get: the exact set of calls that may come back. */
module SipOwners {
  import opened Prelude
  import CallIds
  import opened CallRegistry
  import opened SipCalls
  import opened SipTheorems

  /** No outbound attempt is requested by a connection that is gone. */
  predicate SilentStep(e: Event, connection: ConnectionId) {
    e.ECreate? ==> e.owner != Some(connection)
  }

  predicate Silent(more: seq<Event>, connection: ConnectionId) {
    forall i | 0 <= i < |more| :: SilentStep(more[i], connection)
  }

  /** The id names a registered call of the owner. */
  predicate OwnsCall(s: Sip, connection: ConnectionId, id: CallId) {
    id in s.calls && s.calls[id] in s.records && s.records[s.calls[id]].owner == Some(connection)
  }

  /** The ids of the owner's INVITEs that wait in createUAS, unless the gateway stops. */
  function OpenInvites(s: Sip, connection: ConnectionId): set<CallId> {
    if s.stopping then {} else set id | id in s.inbound && s.inbound[id] == Invite(Some(connection), Answering)
  }

  // ----- nothing else comes back

  /** Everything a lost owner still has or can get is under an id in `open`. */
  ghost predicate OnlyFrom(s: Sip, connection: ConnectionId, open: set<CallId>) {
    && connection in s.lost && OpenInvites(s, connection) <= open
    && (forall a :: a in s.outbound && s.outbound[a].owner == Some(connection) ==> s.outbound[a].cancelled)
    && (forall id :: OwnsCall(s, connection, id) ==> id in open)
  }

  lemma RoutineOnlyFrom(s: Sip, s': Sip, connection: ConnectionId, open: set<CallId>)
    requires OnlyFrom(s, connection, open) && Routine(s, s')
    ensures OnlyFrom(s', connection, open)
  {
    assert forall id :: OwnsCall(s', connection, id) ==> OwnsCall(s, connection, id);
    assert forall id :: id in OpenInvites(s', connection) ==> id in OpenInvites(s, connection);
  }

  lemma InviteOnlyFrom(s: Sip, e: Event, connection: ConnectionId, open: set<CallId>)
    requires OnlyFrom(s, connection, open) && e.EInvite?
    ensures OnlyFrom(Step(s, e), connection, open)
  {
    var s' := InviteArrives(s, e.id, e.sipCallId, e.uuid, e.owner, e.routed);
    if s' == s { return; }
    assert forall id :: OwnsCall(s', connection, id) ==> OwnsCall(s, connection, id);
    assert forall id :: id in OpenInvites(s', connection) ==> id in OpenInvites(s, connection);
  }

  lemma CreateOnlyFrom(s: Sip, e: Event, connection: ConnectionId, open: set<CallId>)
    requires OnlyFrom(s, connection, open) && SilentStep(e, connection) && e.ECreate?
    ensures OnlyFrom(Step(s, e), connection, open)
  {
    var s' := CreateOutbound(s, e.attempt, e.owner);
    if s' == s { return; }
    assert forall id :: OwnsCall(s', connection, id) ==> OwnsCall(s, connection, id);
  }

  lemma AnsweredOnlyFrom(s: Sip, id: CallId, r: RecordId, connection: ConnectionId, open: set<CallId>)
    requires Inv(s) && OnlyFrom(s, connection, open) && !s.stopping && r !in s.records
    requires id in s.inbound && s.inbound[id].phase.Answering?
    ensures OnlyFrom(FinishInvite(Activate(s, id, r, CallInfo(id, s.inbound[id].owner, None)), id), connection, open)
  {
    var s' := FinishInvite(Activate(s, id, r, CallInfo(id, s.inbound[id].owner, None)), id);
    forall x | OwnsCall(s', connection, x)
      ensures x in open
    {
      if x == id {
        assert id in OpenInvites(s, connection);
      } else {
        assert OwnsCall(s, connection, x);
      }
    }
  }

  lemma UasOnlyFrom(s: Sip, id: CallId, dialog: Option<RecordId>, connection: ConnectionId, open: set<CallId>)
    requires Inv(s) && OnlyFrom(s, connection, open)
    ensures OnlyFrom(UasReturns(s, id, dialog), connection, open)
  {
    if id !in s.inbound || !s.inbound[id].phase.Answering? || (dialog.Some? && dialog.value in s.records) { return; }
    var s' := UasReturns(s, id, dialog);
    if dialog.Some? && !s.stopping {
      AnsweredOnlyFrom(s, id, dialog.value, connection, open);
      return;
    }
    assert forall x :: OwnsCall(s', connection, x) ==> OwnsCall(s, connection, x);
  }

  lemma ConnectedOnlyFrom(s: Sip, a: AttemptId, r: RecordId, id: CallId, connection: ConnectionId, open: set<CallId>)
    requires Inv(s) && OnlyFrom(s, connection, open)
    requires a in s.outbound && !s.outbound[a].cancelled && r !in s.records && id !in s.calls
    ensures OnlyFrom(Connected(s, a, r, id), connection, open)
  {
    var s' := Connected(s, a, r, id);
    forall x | OwnsCall(s', connection, x)
      ensures x in open
    {
      assert OwnsCall(s, connection, x);
    }
  }

  lemma UacOnlyFrom(s: Sip, a: AttemptId, r: RecordId, sipCallId: string, uuid: string, id: CallId,
                    connection: ConnectionId, open: set<CallId>)
    requires Inv(s) && OnlyFrom(s, connection, open)
    ensures OnlyFrom(UacReturns(s, a, r, sipCallId, uuid, id), connection, open)
  {
    if a !in s.outbound || s.outbound[a].hanging || r in s.records { return; }
    if s.outbound[a].cancelled || s.stopping {
      var s' := UacReturns(s, a, r, sipCallId, uuid, id);
      assert forall x :: OwnsCall(s', connection, x) ==> OwnsCall(s, connection, x);
      return;
    }
    if !Reserves(CallIds.NormalizeCallId(sipCallId, uuid), Taken(s), id) { return; }
    ReservedIsFree(CallIds.NormalizeCallId(sipCallId, uuid), Taken(s), id);
    ConnectedOnlyFrom(s, a, r, id, connection, open);
  }

  lemma SilentOnlyFrom(s: Sip, e: Event, connection: ConnectionId, open: set<CallId>)
    requires Inv(s) && OnlyFrom(s, connection, open) && SilentStep(e, connection)
    ensures OnlyFrom(Step(s, e), connection, open)
  {
    match e {
      case EInvite(_, _, _, _, _) => InviteOnlyFrom(s, e, connection, open); return;
      case ECreate(_, _) => CreateOnlyFrom(s, e, connection, open); return;
      case EUas(id, dialog) => UasOnlyFrom(s, id, dialog, connection, open); return;
      case EUac(a, r, sipCallId, uuid, id) => UacOnlyFrom(s, a, r, sipCallId, uuid, id, connection, open); return;
      case _ =>
        RoutineStep(s, e);
        RoutineOnlyFrom(s, Step(s, e), connection, open);
        return;
    }
  }

  lemma LeavingOnlyFrom(s: Sip, connection: ConnectionId)
    requires Inv(s)
    ensures OnlyFrom(Step(s, EOwnerLeft(connection)), connection, OpenInvites(s, connection))
  {
    OwnerLeftTakes(s, connection);
    OwnerLeftRoutine(s, connection);
  }

  lemma {:induction false} LateRun(events: seq<Event>, connection: ConnectionId, more: seq<Event>)
    requires Silent(more, connection)
    ensures OnlyFrom(StateAfter(events + [EOwnerLeft(connection)] + more), connection, OpenInvites(StateAfter(events), connection))
    decreases |more|
  {
    var left := events + [EOwnerLeft(connection)];
    if more == [] {
      assert left + more == left;
      RunSnoc(events, EOwnerLeft(connection));
      RunInv(events);
      LeavingOnlyFrom(StateAfter(events), connection);
      return;
    }
    var init, last := more[..|more| - 1], more[|more| - 1];
    LateRun(events, connection, init);
    RunSplit(left, more);
    RunInv(left + init);
    SilentOnlyFrom(StateAfter(left + init), last, connection, OpenInvites(StateAfter(events), connection));
  }

  // ----- and those can

  lemma UasGives(s: Sip, connection: ConnectionId, id: CallId, r: RecordId)
    requires id in s.inbound && s.inbound[id] == Invite(Some(connection), Answering) && !s.stopping && r !in s.records
    ensures OwnsCall(Step(s, EUas(id, Some(r))), connection, id)
  {
    assert Step(s, EUas(id, Some(r))) == UasReturns(s, id, Some(r));
  }

  /** The disconnect leaves the INVITEs as they are. */
  lemma LeavingKeepsInvites(events: seq<Event>, connection: ConnectionId)
    ensures var s, s' := StateAfter(events), StateAfter(events + [EOwnerLeft(connection)]);
            s'.inbound == s.inbound && s'.stopping == s.stopping && s'.records == s.records && connection in s'.lost
  {
    RunSnoc(events, EOwnerLeft(connection));
    OwnerLeftRoutine(StateAfter(events), connection);
  }

  lemma AnsweredComesBack(left: seq<Event>, connection: ConnectionId, id: CallId) returns (more: seq<Event>)
    requires var s := StateAfter(left); id in s.inbound && s.inbound[id] == Invite(Some(connection), Answering) && !s.stopping
    ensures Silent(more, connection) && OwnsCall(StateAfter(left + more), connection, id)
  {
    var r := Unused(StateAfter(left).records.Keys);
    more := [EUas(id, Some(r))];
    RunSnoc(left, EUas(id, Some(r)));
    UasGives(StateAfter(left), connection, id, r);
  }

  lemma OpenInviteComesBack(events: seq<Event>, connection: ConnectionId, id: CallId) returns (more: seq<Event>)
    requires id in OpenInvites(StateAfter(events), connection)
    ensures Silent(more, connection) && OwnsCall(StateAfter(events + [EOwnerLeft(connection)] + more), connection, id)
  {
    var left := events + [EOwnerLeft(connection)];
    LeavingKeepsInvites(events, connection);
    more := AnsweredComesBack(left, connection, id);
  }

  // ----- an INVITE that its lost owner was asked about

  /** The INVITEs under the id for the lost owner wait for it, and none has become a call since s0. */
  ghost predicate StillAsking(s0: Sip, s: Sip, connection: ConnectionId, id: CallId) {
    && connection in s.lost && s0.records.Keys <= s.records.Keys
    && (id in s.inbound && s.inbound[id].owner == Some(connection) ==> s.inbound[id].phase.Asking?)
    && (forall r :: r in s.records && r !in s0.records && s.records[r].origin.None? ==>
                      !(s.records[r].callId == id && s.records[r].owner == Some(connection)))
  }

  lemma AnsweredStillAsking(s0: Sip, s: Sip, uas: CallId, dialog: Option<RecordId>, connection: ConnectionId, id: CallId)
    requires StillAsking(s0, s, connection, id)
    ensures StillAsking(s0, UasReturns(s, uas, dialog), connection, id)
  {
    if uas !in s.inbound || !s.inbound[uas].phase.Answering? || (dialog.Some? && dialog.value in s.records) { return; }
    if s.stopping || dialog.None? { return; }
  }

  lemma ConnectedStillAsking(s0: Sip, s: Sip, a: AttemptId, r: RecordId, sipCallId: string, uuid: string, other: CallId,
                             connection: ConnectionId, id: CallId)
    requires StillAsking(s0, s, connection, id)
    ensures StillAsking(s0, UacReturns(s, a, r, sipCallId, uuid, other), connection, id)
  {
    if a !in s.outbound || s.outbound[a].hanging || r in s.records { return; }
    if s.outbound[a].cancelled || s.stopping { return; }
  }

  lemma StepStillAsking(s0: Sip, s: Sip, e: Event, connection: ConnectionId, id: CallId)
    requires StillAsking(s0, s, connection, id)
    ensures StillAsking(s0, Step(s, e), connection, id)
  {
    match e {
      case EInvite(_, _, _, _, _) => return;
      case ECreate(_, _) => return;
      case EUas(uas, dialog) => AnsweredStillAsking(s0, s, uas, dialog, connection, id); return;
      case EUac(a, r, sipCallId, uuid, other) => ConnectedStillAsking(s0, s, a, r, sipCallId, uuid, other, connection, id); return;
      case _ => RoutineStep(s, e); return;
    }
  }

  /** An INVITE that still waited for its owner's answer when the owner left never becomes a call, and neither does
      a later one under its id: whatever happens, no call of that owner is activated under the id by an INVITE. */
  lemma {:induction false} AskingOfLostOwnerNeverConnects(
    events: seq<Event>, connection: ConnectionId, id: CallId, more: seq<Event>, r: RecordId)
    requires var s := StateAfter(events); id in s.inbound && s.inbound[id] == Invite(Some(connection), Asking)
    requires r in StateAfter(events + [EOwnerLeft(connection)] + more).records && r !in StateAfter(events).records
    ensures var call := StateAfter(events + [EOwnerLeft(connection)] + more).records[r];
            call.origin.None? ==> !(call.callId == id && call.owner == Some(connection))
  {
    AskingRun(events, connection, id, more);
  }

  lemma {:induction false} AskingRun(events: seq<Event>, connection: ConnectionId, id: CallId, more: seq<Event>)
    requires var s := StateAfter(events); id in s.inbound && s.inbound[id] == Invite(Some(connection), Asking)
    ensures StillAsking(StateAfter(events), StateAfter(events + [EOwnerLeft(connection)] + more), connection, id)
    decreases |more|
  {
    var left := events + [EOwnerLeft(connection)];
    if more == [] {
      assert left + more == left;
      LeavingKeepsInvites(events, connection);
      return;
    }
    var init, last := more[..|more| - 1], more[|more| - 1];
    AskingRun(events, connection, id, init);
    RunSplit(left, more);
    StepStillAsking(StateAfter(events), StateAfter(left + init), last, connection, id);
  }

  // ----- exactly

  /** After its owner has left, an id can come to name a call of that owner, in some continuation without new
      attempts of the owner, exactly when it is the id of an INVITE of the owner that waited in createUAS at the
      disconnect and the gateway was not stopping. */
  lemma {:induction false} CallComesBackIff(events: seq<Event>, connection: ConnectionId, id: CallId)
    ensures (exists more :: Silent(more, connection) && OwnsCall(StateAfter(events + [EOwnerLeft(connection)] + more), connection, id))
       <==> id in OpenInvites(StateAfter(events), connection)
  {
    var left := events + [EOwnerLeft(connection)];
    forall more | Silent(more, connection) && OwnsCall(StateAfter(left + more), connection, id)
      ensures id in OpenInvites(StateAfter(events), connection)
    {
      LateRun(events, connection, more);
    }
    if id in OpenInvites(StateAfter(events), connection) {
      var more := OpenInviteComesBack(events, connection, id);
    }
  }

  /** Some call comes back. */
  ghost predicate CallsComeBack(left: seq<Event>, connection: ConnectionId) {
    exists more, id :: Silent(more, connection) && OwnsCall(StateAfter(left + more), connection, id)
  }

  /** So a call of the owner can come back exactly when the gateway was not stopping and the owner had an INVITE in
      createUAS. */
  lemma {:induction false} CallsComeBackIff(events: seq<Event>, connection: ConnectionId)
    ensures CallsComeBack(events + [EOwnerLeft(connection)], connection)
       <==> (var s := StateAfter(events); !s.stopping && exists id :: id in s.inbound && s.inbound[id] == Invite(Some(connection), Answering))
  {
    var s, left := StateAfter(events), events + [EOwnerLeft(connection)];
    if CallsComeBack(left, connection) {
      var more, id :| Silent(more, connection) && OwnsCall(StateAfter(left + more), connection, id);
      CallComesBackIff(events, connection, id);
      assert id in OpenInvites(s, connection);
      return;
    }
    if !s.stopping && exists id :: id in s.inbound && s.inbound[id] == Invite(Some(connection), Answering) {
      var id :| id in s.inbound && s.inbound[id] == Invite(Some(connection), Answering);
      var _ := OpenInviteComesBack(events, connection, id);
    }
  }
}
