/** Where calls come from: in every interleaving each call is what somebody asked for and belongs to who asked. */
module SipOrigins {
  import opened Prelude
  import CallIds
  import opened CallRegistry
  import opened SipCalls
  import opened SipTheorems

  // ----- outbound attempts

  /** Event i admitted attempt a of this owner, as number n. */
  ghost predicate Creates(events: seq<Event>, i: nat, n: nat, a: AttemptId, owner: Option<ConnectionId>)
    requires i < |events|
  {
    events[i] == ECreate(a, owner)
    && var s := StateAfter(events[..i]);
    !s.draining && a !in s.outbound && s.serials == n
  }

  ghost predicate CreatedAs(events: seq<Event>, n: nat, a: AttemptId, owner: Option<ConnectionId>) {
    exists i :: 0 <= i < |events| && Creates(events, i, n, a, owner)
  }

  lemma CreatedEarlier(init: seq<Event>, e: Event, n: nat, a: AttemptId, owner: Option<ConnectionId>)
    requires CreatedAs(init, n, a, owner)
    ensures CreatedAs(init + [e], n, a, owner)
  {
    var i :| 0 <= i < |init| && Creates(init, i, n, a, owner);
    assert (init + [e])[..i] == init[..i];
    assert Creates(init + [e], i, n, a, owner);
  }

  /** The INVITE under the id was routed to this owner. */
  ghost predicate InvitedFor(past: set<Event>, id: CallId, owner: Option<ConnectionId>) {
    exists sipCallId: string, uuid: string :: EInvite(id, sipCallId, uuid, owner, true) in past
  }

  ghost function Past(events: seq<Event>): set<Event> {
    set e | e in events
  }

  /** An attempt was answered with this dialog. */
  ghost predicate Connects(past: set<Event>, a: AttemptId, r: RecordId) {
    exists sipCallId: string, uuid: string, id: CallId :: EUac(a, r, sipCallId, uuid, id) in past
  }

  /** A call of an attempt has its owner; a call of an INVITE that of the INVITE, which was answered. */
  ghost predicate CallFrom(events: seq<Event>, r: RecordId, call: CallInfo) {
    match call.origin
    case Some(n) => exists a :: CreatedAs(events, n, a, call.owner) && Connects(Past(events), a, r)
    case None =>
      InvitedFor(Past(events), call.callId, call.owner)
      && EAction(call.callId, Answer) in events && EUas(call.callId, Some(r)) in events
  }

  ghost predicate InviteFrom(events: seq<Event>, id: CallId, invite: Invite) {
    InvitedFor(Past(events), id, invite.owner) && (!invite.phase.Asking? ==> EAction(id, Answer) in events)
  }

  ghost predicate Sourced(events: seq<Event>, s: Sip) {
    && (forall a :: a in s.outbound ==> CreatedAs(events, s.outbound[a].serial, a, s.outbound[a].owner))
    && (forall id :: id in s.inbound ==> InviteFrom(events, id, s.inbound[id]))
    && (forall r :: r in s.records ==> CallFrom(events, r, s.records[r]))
  }

  /** What a step makes of attempts, handlers and calls. */
  ghost predicate AttemptsMove(s: Sip, s': Sip, e: Event) {
    forall a :: a in s'.outbound ==>
                  || (a in s.outbound && s'.outbound[a].serial == s.outbound[a].serial && s'.outbound[a].owner == s.outbound[a].owner)
                  || (e.ECreate? && e.attempt == a && !s.draining && a !in s.outbound
                      && s'.outbound[a].serial == s.serials && s'.outbound[a].owner == e.owner)
  }

  ghost predicate InvitesMove(s: Sip, s': Sip, e: Event) {
    forall id :: id in s'.inbound ==>
                   || (id in s.inbound && s'.inbound[id].owner == s.inbound[id].owner
                       && (s'.inbound[id].phase.Asking? || !s.inbound[id].phase.Asking? || e == EAction(id, Answer)))
                   || (e.EInvite? && e.id == id && e.routed && s'.inbound[id] == Invite(e.owner, Asking))
  }

  ghost predicate CallsMove(s: Sip, s': Sip, e: Event) {
    forall r :: r in s'.records ==>
                  || (r in s.records && s'.records[r] == s.records[r])
                  || (e.EUas? && e.dialog == Some(r) && e.id in s.inbound && s.inbound[e.id].phase.Answering?
                      && s'.records[r] == CallInfo(e.id, s.inbound[e.id].owner, None))
                  || (e.EUac? && e.record == r && e.attempt in s.outbound
                      && s'.records[r] == CallInfo(e.id, s.outbound[e.attempt].owner, Some(s.outbound[e.attempt].serial)))
  }

  ghost predicate Moves(s: Sip, s': Sip, e: Event) {
    AttemptsMove(s, s', e) && InvitesMove(s, s', e) && CallsMove(s, s', e)
  }

  lemma AnsweredMoves(s: Sip, e: Event)
    requires e.EUas? && e.id in s.inbound && s.inbound[e.id].phase.Answering? && e.dialog.Some?
    ensures Moves(s, FinishInvite(Activate(s, e.id, e.dialog.value, CallInfo(e.id, s.inbound[e.id].owner, None)), e.id), e)
  {
  }

  lemma UasMoves(s: Sip, e: Event)
    requires e.EUas?
    ensures Moves(s, UasReturns(s, e.id, e.dialog), e)
  {
    if e.id !in s.inbound || !s.inbound[e.id].phase.Answering? || (e.dialog.Some? && e.dialog.value in s.records) { return; }
    if e.dialog.Some? && !s.stopping {
      AnsweredMoves(s, e);
      return;
    }
    if e.dialog.None? { return; }
  }

  lemma ConnectedMoves(s: Sip, e: Event)
    requires e.EUac? && e.attempt in s.outbound
    ensures Moves(s, Connected(s, e.attempt, e.record, e.id), e)
  {
  }

  lemma UacMoves(s: Sip, e: Event)
    requires e.EUac?
    ensures Moves(s, UacReturns(s, e.attempt, e.record, e.sipCallId, e.uuid, e.id), e)
  {
    if e.attempt !in s.outbound || s.outbound[e.attempt].hanging || e.record in s.records { return; }
    if s.outbound[e.attempt].cancelled || s.stopping { return; }
    if UacReturns(s, e.attempt, e.record, e.sipCallId, e.uuid, e.id) == s { return; }
    ConnectedMoves(s, e);
  }

  lemma InviteMoves(s: Sip, e: Event)
    requires e.EInvite?
    ensures Moves(s, InviteArrives(s, e.id, e.sipCallId, e.uuid, e.owner, e.routed), e)
  {
    if InviteArrives(s, e.id, e.sipCallId, e.uuid, e.owner, e.routed) == s { return; }
  }

  lemma CreateMoves(s: Sip, e: Event)
    requires e.ECreate?
    ensures Moves(s, CreateOutbound(s, e.attempt, e.owner), e)
  {
    if CreateOutbound(s, e.attempt, e.owner) == s { return; }
  }

  lemma ActionInvites(s: Sip, e: Event)
    requires e.EAction?
    ensures InvitesMove(s, ActionArrives(s, e.id, e.action), e)
  {
    if !GoesOnWith(s, e.id, e.action) { return; }
    if s.stopping || !e.action.Answer? { return; }
  }

  lemma ActionMoves(s: Sip, e: Event)
    requires e.EAction?
    ensures Moves(s, ActionArrives(s, e.id, e.action), e)
  {
    ActionRoutine(s, e.id, e.action);
    ActionInvites(s, e);
  }

  lemma SameInvites(s: Sip, e: Event)
    requires !Adding(e) && !e.EAction? && !e.EUnwound?
    ensures Step(s, e).inbound == s.inbound
  {
    if e.EUacFails? || e.EHungUp? { return; }
    TeardownSameWork(s, e);
  }

  lemma TeardownMoves(s: Sip, e: Event)
    requires !Adding(e) && !e.EAction?
    ensures Moves(s, Step(s, e), e)
  {
    RoutineStep(s, e);
    if e.EUnwound? { return; }
    SameInvites(s, e);
  }

  lemma StepMoves(s: Sip, e: Event)
    ensures Moves(s, Step(s, e), e)
  {
    match e {
      case EUas(_, _) => UasMoves(s, e); return;
      case EUac(_, _, _, _, _) => UacMoves(s, e); return;
      case EInvite(_, _, _, _, _) => InviteMoves(s, e); return;
      case ECreate(_, _) => CreateMoves(s, e); return;
      case EAction(_, _) => ActionMoves(s, e); return;
      case _ => TeardownMoves(s, e); return;
    }
  }

  lemma AttemptsSourced(init: seq<Event>, e: Event, s': Sip)
    requires Sourced(init, StateAfter(init)) && Moves(StateAfter(init), s', e)
    ensures forall a :: a in s'.outbound ==> CreatedAs(init + [e], s'.outbound[a].serial, a, s'.outbound[a].owner)
  {
    var s, events := StateAfter(init), init + [e];
    forall a | a in s'.outbound
      ensures CreatedAs(events, s'.outbound[a].serial, a, s'.outbound[a].owner)
    {
      if a in s.outbound && s'.outbound[a].serial == s.outbound[a].serial && s'.outbound[a].owner == s.outbound[a].owner {
        CreatedEarlier(init, e, s.outbound[a].serial, a, s.outbound[a].owner);
      } else {
        assert events[..|init|] == init && events[|init|] == e;
        assert Creates(events, |init|, s.serials, a, e.owner);
      }
    }
  }

  lemma InvitedStill(init: seq<Event>, e: Event, id: CallId, owner: Option<ConnectionId>)
    requires InvitedFor(Past(init), id, owner)
    ensures InvitedFor(Past(init + [e]), id, owner)
  {
    var sipCallId: string, uuid: string :| EInvite(id, sipCallId, uuid, owner, true) in Past(init);
    assert EInvite(id, sipCallId, uuid, owner, true) in Past(init + [e]);
  }

  lemma InvitesSourced(init: seq<Event>, e: Event, s': Sip)
    requires Sourced(init, StateAfter(init)) && Moves(StateAfter(init), s', e)
    ensures forall id :: id in s'.inbound ==> InviteFrom(init + [e], id, s'.inbound[id])
  {
    var s := StateAfter(init);
    assert e in init + [e];
    forall id | id in s'.inbound
      ensures InviteFrom(init + [e], id, s'.inbound[id])
    {
      if id in s.inbound && s'.inbound[id].owner == s.inbound[id].owner
         && (s'.inbound[id].phase.Asking? || !s.inbound[id].phase.Asking? || e == EAction(id, Answer)) {
        InvitedStill(init, e, id, s.inbound[id].owner);
      } else {
        assert EInvite(id, e.sipCallId, e.uuid, e.owner, true) in Past(init + [e]);
      }
    }
  }

  lemma CallStays(init: seq<Event>, e: Event, r: RecordId, call: CallInfo)
    requires CallFrom(init, r, call)
    ensures CallFrom(init + [e], r, call)
  {
    match call.origin {
      case Some(n) =>
        var a :| CreatedAs(init, n, a, call.owner) && Connects(Past(init), a, r);
        CreatedEarlier(init, e, n, a, call.owner);
        var sipCallId: string, uuid: string, id: CallId :| EUac(a, r, sipCallId, uuid, id) in Past(init);
        assert EUac(a, r, sipCallId, uuid, id) in Past(init + [e]);
      case None => InvitedStill(init, e, call.callId, call.owner);
    }
  }

  lemma CallsSourced(init: seq<Event>, e: Event, s': Sip)
    requires Sourced(init, StateAfter(init)) && Moves(StateAfter(init), s', e)
    ensures forall r :: r in s'.records ==> CallFrom(init + [e], r, s'.records[r])
  {
    var s := StateAfter(init);
    assert e in init + [e];
    forall r | r in s'.records
      ensures CallFrom(init + [e], r, s'.records[r])
    {
      if r in s.records && s'.records[r] == s.records[r] {
        CallStays(init, e, r, s.records[r]);
      } else if e.EUas? {
        InvitedStill(init, e, e.id, s.inbound[e.id].owner);
      } else {
        var attempt := s.outbound[e.attempt];
        CreatedEarlier(init, e, attempt.serial, e.attempt, attempt.owner);
        assert EUac(e.attempt, r, e.sipCallId, e.uuid, e.id) in Past(init + [e]);
        assert Connects(Past(init + [e]), e.attempt, r);
      }
    }
  }

  lemma {:induction false} SourcedRun(events: seq<Event>)
    ensures Sourced(events, StateAfter(events))
    decreases |events|
  {
    if events == [] { return; }
    var init, last := events[..|events| - 1], events[|events| - 1];
    SourcedRun(init);
    assert events == init + [last];
    StepMoves(StateAfter(init), last);
    AttemptsSourced(init, last, StateAfter(events));
    InvitesSourced(init, last, StateAfter(events));
    CallsSourced(init, last, StateAfter(events));
  }

  /** Every call there ever was belongs to who asked for it: a call of an attempt to the owner that the attempt was
      created with; a call of an INVITE to the one it was routed to, who has answered it. */
  lemma CallsAreAsRequested(events: seq<Event>, r: RecordId)
    requires r in StateAfter(events).records
    ensures CallFrom(events, r, StateAfter(events).records[r])
  {
    SourcedRun(events);
  }

  // ----- attempts are numbered once

  lemma SerialsGrow(s: Sip, e: Event)
    ensures s.serials <= Step(s, e).serials
    ensures e.ECreate? && !s.draining && e.attempt !in s.outbound ==> Step(s, e).serials == s.serials + 1
  {
    if e.ECreate? { return; }
    if Adding(e) {
      AddingStep(s, e);
      return;
    }
    RoutineStep(s, e);
  }

  lemma {:induction false} SerialsMonotone(events: seq<Event>, more: seq<Event>)
    ensures StateAfter(events).serials <= StateAfter(events + more).serials
    decreases |more|
  {
    if more == [] {
      assert events + more == events;
      return;
    }
    SerialsMonotone(events, more[..|more| - 1]);
    RunSplit(events, more);
    SerialsGrow(StateAfter(events + more[..|more| - 1]), more[|more| - 1]);
  }

  lemma Later(events: seq<Event>, i: nat, j: nat, n: nat, a: AttemptId, owner: Option<ConnectionId>)
    requires i < j < |events| && Creates(events, i, n, a, owner)
    ensures StateAfter(events[..j]).serials > n
  {
    var next := events[..i + 1];
    assert next == events[..i] + [events[i]];
    RunSnoc(events[..i], events[i]);
    SerialsGrow(StateAfter(events[..i]), events[i]);
    assert next + events[i + 1..j] == events[..j];
    SerialsMonotone(next, events[i + 1..j]);
  }

  /** A number is one attempt of one owner. */
  lemma CreatedOnce(events: seq<Event>, n: nat, a: AttemptId, owner: Option<ConnectionId>, a': AttemptId, owner': Option<ConnectionId>)
    requires CreatedAs(events, n, a, owner) && CreatedAs(events, n, a', owner')
    ensures a == a' && owner == owner'
  {
    var i :| 0 <= i < |events| && Creates(events, i, n, a, owner);
    var j :| 0 <= j < |events| && Creates(events, j, n, a', owner');
    if i < j { Later(events, i, j, n, a, owner); }
    if j < i { Later(events, j, i, n, a', owner'); }
  }

  /** So a disconnect takes every call of every attempt that the connection ever created: none of them stays registered. */
  lemma OwnerLeftTakesItsAttempts(events: seq<Event>, connection: ConnectionId, n: nat, a: AttemptId, id: CallId)
    requires CreatedAs(events, n, a, Some(connection))
    requires id in Step(StateAfter(events), EOwnerLeft(connection)).calls
    ensures var s' := Step(StateAfter(events), EOwnerLeft(connection));
            s'.calls[id] in s'.records && s'.records[s'.calls[id]].origin != Some(n)
  {
    OwnerTakesItsCalls(events, connection);
    SourcedRun(events);
    var s, s' := StateAfter(events), Step(StateAfter(events), EOwnerLeft(connection));
    OwnerLeftRoutine(s, connection);
    var call := s'.records[s'.calls[id]];
    if call.origin == Some(n) {
      assert CallFrom(events, s'.calls[id], call);
      var b :| CreatedAs(events, n, b, call.owner);
      CreatedOnce(events, n, a, Some(connection), b, call.owner);
    }
  }

  // ----- cancelling

  /** A cancel is accepted from the owner of the attempt alone, and from then on the attempt never becomes a call,
      whenever createUAC answers; one from anybody else changes nothing. */
  lemma CancelledNeverConnects(events: seq<Event>, a: AttemptId, owner: Option<ConnectionId>, more: seq<Event>, r: RecordId)
    requires a in StateAfter(events).outbound
    requires r in StateAfter(events + [ECancel(a, owner)] + more).records
    ensures var s := StateAfter(events);
            if s.outbound[a].owner == owner
            then StateAfter(events + [ECancel(a, owner)] + more).records[r].origin != Some(s.outbound[a].serial)
            else StateAfter(events + [ECancel(a, owner)]) == s
  {
    var cancelled := events + [ECancel(a, owner)];
    RunSnoc(events, ECancel(a, owner));
    if StateAfter(events).outbound[a].owner != owner { return; }
    assert StateAfter(events).outbound[a].serial in StateAfter(cancelled).cancelledSerials;
    CancelledStays(cancelled, more);
    RunInv(cancelled + more);
  }

  ghost predicate AllCancelled(s: Sip) {
    s.stopping ==> forall a :: a in s.outbound ==> s.outbound[a].cancelled
  }

  lemma UacKeepsCancelled(s: Sip, e: Event)
    requires AllCancelled(s) && e.EUac?
    ensures AllCancelled(UacReturns(s, e.attempt, e.record, e.sipCallId, e.uuid, e.id))
  {
    if e.attempt !in s.outbound || s.outbound[e.attempt].hanging || e.record in s.records { return; }
    if s.outbound[e.attempt].cancelled || s.stopping { return; }
  }

  lemma AllCancelledStep(s: Sip, e: Event)
    requires Inv(s) && AllCancelled(s)
    ensures AllCancelled(Step(s, e))
  {
    match e {
      case EUac(_, _, _, _, _) => UacKeepsCancelled(s, e); return;
      case EUas(id, dialog) => UasAdds(s, id, dialog); UasSameAttempts(s, id, dialog); return;
      case EInvite(_, _, _, _, _) => return;
      case ECreate(_, _) => return;
      case EStop => StopCancels(s); return;
      case EDrain => return;
      case _ => RoutineStep(s, e); FlagsUntouched(s, e); return;
    }
  }

  lemma StopCancels(s: Sip)
    requires AllCancelled(s)
    ensures AllCancelled(Stop(s))
  {
    if s.stopping || !s.draining { return; }
  }

  lemma UasSameAttempts(s: Sip, id: CallId, dialog: Option<RecordId>)
    ensures UasReturns(s, id, dialog).outbound == s.outbound
  {
  }

  lemma {:induction false} StoppingCancelsAttempts(events: seq<Event>)
    ensures AllCancelled(StateAfter(events))
    decreases |events|
  {
    if events == [] { return; }
    StoppingCancelsAttempts(events[..|events| - 1]);
    RunInv(events[..|events| - 1]);
    AllCancelledStep(StateAfter(events[..|events| - 1]), events[|events| - 1]);
  }

  // ----- answers that change nothing

  /** A BYE that fails leaves the call registered and tells nobody, also during a shutdown. */
  lemma FailedByeKeepsTheCall(events: seq<Event>, op: OpId, id: CallId)
    ensures var s := StateAfter(events);
            && Step(s, EByeReturns(op, false)).calls == s.calls && Step(s, EByeReturns(op, false)).notices == s.notices
            && Step(s, EShutdownBye(id, false)).calls == s.calls && Step(s, EShutdownBye(id, false)).notices == s.notices
  {
    FailedReturn(StateAfter(events), op);
    FailedShutdownReturn(StateAfter(events), id);
  }

  lemma FailedReturn(s: Sip, op: OpId)
    ensures var s' := ByeReturns(s, op, false); s'.calls == s.calls && s'.notices == s.notices
  {
    if op !in s.byes { return; }
  }

  lemma FailedShutdownReturn(s: Sip, id: CallId)
    ensures var s' := ShutdownByeReturns(s, id, false); s'.calls == s.calls && s'.notices == s.notices
  {
    if id !in s.closing { return; }
  }

  /** The dialogs of a lost owner are reported as they go down, each as terminated, and only those that did. */
  lemma LostDialogIsReported(events: seq<Event>, r: RecordId, ok: bool)
    requires r in StateAfter(events).ending
    ensures var s, s' := StateAfter(events), Step(StateAfter(events), EEnding(r, ok));
            s'.ending == s.ending - {r} && s'.calls == s.calls
            && s'.notices == s.notices + if ok then [Notice(r, Terminated)] else []
  {
  }

  /** A rejected INVITE, like one whose question failed, is over with that: its id is free and no call has come of it. */
  lemma RejectedInviteIsOver(events: seq<Event>, id: CallId, action: Action)
    requires GoesOnWith(StateAfter(events), id, action) && !action.Answer?
    ensures var s, s' := StateAfter(events), Step(StateAfter(events), EAction(id, action));
            id !in s'.inbound && id !in Taken(s') && s'.calls == s.calls && s'.records == s.records
  {
    RunInv(events);
    assert id in StateAfter(events).inbound.Keys;
  }
}
