/** What holds of SIP calls in every run, whatever the order of answers, hang-ups, owner disconnects,
    draining and shutdown. */
module SipTheorems {
  import opened Prelude
  import opened CallRegistry
  import opened SipCalls

  // ----- what a step can do

  ghost predicate FewerCalls(m: map<CallId, RecordId>, m': map<CallId, RecordId>) {
    forall id :: id in m' ==> id in m && m'[id] == m[id]
  }

  /** A handler waits as it did, or has got an answer, which an owner that is lost does not give. */
  ghost predicate FewerInvites(s: Sip, s': Sip) {
    forall id :: id in s'.inbound ==>
                   && id in s.inbound && s'.inbound[id].owner == s.inbound[id].owner
                   && (s'.inbound[id] == s.inbound[id] || !OwnerLost(s, s.inbound[id].owner))
  }

  ghost predicate FewerAttempts(m: map<AttemptId, Attempt>, m': map<AttemptId, Attempt>) {
    forall a :: a in m' ==> a in m && m'[a].owner == m[a].owner && m'[a].serial == m[a].serial && (m[a].cancelled ==> m'[a].cancelled)
  }

  /** A step that adds no handler, no attempt and no call, and takes nothing back. */
  ghost predicate Routine(s: Sip, s': Sip) {
    && s'.records == s.records && s'.reservations <= s.reservations && s'.serials == s.serials
    && (s.draining ==> s'.draining) && (s.stopping ==> s'.stopping) && s.cancelledSerials <= s'.cancelledSerials
    && FewerCalls(s.calls, s'.calls) && FewerInvites(s, s') && FewerAttempts(s.outbound, s'.outbound) && s.lost <= s'.lost
    && (s.stopping ==> s'.closing.Keys <= s.closing.Keys && s'.closingOut <= s.closingOut)
  }

  /** A step that neither begins nor ends the handling of an INVITE or an outbound attempt. */
  ghost predicate SameWork(s: Sip, s': Sip) {
    s'.inbound == s.inbound && s'.outbound.Keys == s.outbound.Keys
  }

  predicate SameFlags(s: Sip, s': Sip) {
    s'.draining == s.draining && s'.stopping == s.stopping
  }

  ghost predicate Quiet(s: Sip, s': Sip) {
    Routine(s, s') && SameWork(s, s') && SameFlags(s, s')
  }

  lemma ActionRoutine(s: Sip, id: CallId, action: Action)
    ensures Routine(s, ActionArrives(s, id, action)) && SameFlags(s, ActionArrives(s, id, action))
  {
    if ActionArrives(s, id, action) == s { return; }
  }

  lemma UnwoundRoutine(s: Sip, id: CallId)
    ensures Routine(s, InviteUnwound(s, id)) && SameFlags(s, InviteUnwound(s, id))
  {
    if InviteUnwound(s, id) == s { return; }
  }

  lemma CancelRoutine(s: Sip, a: AttemptId, owner: Option<ConnectionId>)
    ensures Quiet(s, CancelOutbound(s, a, owner))
  {
    if CancelOutbound(s, a, owner) == s { return; }
  }

  lemma UacFailsRoutine(s: Sip, a: AttemptId)
    ensures Routine(s, UacFails(s, a)) && SameFlags(s, UacFails(s, a))
  {
    if UacFails(s, a) == s { return; }
  }

  lemma HungUpRoutine(s: Sip, a: AttemptId)
    ensures Routine(s, HungUp(s, a)) && SameFlags(s, HungUp(s, a))
  {
    if HungUp(s, a) == s { return; }
  }

  lemma BeginByeRoutine(s: Sip, op: OpId, id: CallId)
    ensures Quiet(s, BeginBye(s, op, id))
  {
    if BeginBye(s, op, id) == s { return; }
  }

  lemma ByeDoneRoutine(s: Sip, id: CallId, captured: RecordId, ok: bool)
    ensures Quiet(s, ByeDone(s, id, captured, ok))
  {
    if !ok || id !in s.calls { return; }
  }

  lemma ByeReturnsRoutine(s: Sip, op: OpId, ok: bool)
    ensures Quiet(s, ByeReturns(s, op, ok))
  {
    if op !in s.byes { return; }
    ByeDoneRoutine(s, s.byes[op].0, s.byes[op].1, ok);
  }

  lemma ShutdownByeRoutine(s: Sip, id: CallId, ok: bool)
    ensures Quiet(s, ShutdownByeReturns(s, id, ok))
  {
    if id !in s.closing { return; }
    ByeDoneRoutine(s, id, s.closing[id], ok);
  }

  lemma RemoteRoutine(s: Sip, r: RecordId, byBye: bool)
    ensures Quiet(s, RemoteDestroys(s, r, byBye))
  {
    if RemoteDestroys(s, r, byBye) == s { return; }
  }

  lemma OwnerLeftRoutine(s: Sip, connection: ConnectionId)
    ensures Quiet(s, OwnerLeft(s, connection))
  {
  }

  lemma StopRoutine(s: Sip)
    ensures Routine(s, Stop(s)) && SameWork(s, Stop(s))
  {
    if Stop(s) == s { return; }
  }

  lemma SettledRoutine(s: Sip, a: AttemptId)
    ensures Quiet(s, OutboundSettled(s, a))
  {
    if OutboundSettled(s, a) == s { return; }
  }

  lemma EndingRoutine(s: Sip, r: RecordId, ok: bool)
    ensures Quiet(s, EndingReturns(s, r, ok))
  {
    if r !in s.ending { return; }
  }

  predicate Adding(e: Event) {
    e.EInvite? || e.ECreate? || e.EUas? || e.EUac?
  }

  lemma RoutineStep(s: Sip, e: Event)
    requires !Adding(e)
    ensures Routine(s, Step(s, e))
  {
    match e {
      case EAction(id, action) => ActionRoutine(s, id, action); return;
      case EUnwound(id) => UnwoundRoutine(s, id); return;
      case ECancel(a, owner) => CancelRoutine(s, a, owner); return;
      case EUacFails(a) => UacFailsRoutine(s, a); return;
      case EHungUp(a) => HungUpRoutine(s, a); return;
      case EBye(op, id) => BeginByeRoutine(s, op, id); return;
      case EByeReturns(op, ok) => ByeReturnsRoutine(s, op, ok); return;
      case ERemoteDestroys(r, byBye) => RemoteRoutine(s, r, byBye); return;
      case EOwnerLeft(connection) => OwnerLeftRoutine(s, connection); return;
      case EEnding(r, ok) => EndingRoutine(s, r, ok); return;
      case EStop => StopRoutine(s); return;
      case EShutdownBye(id, ok) => ShutdownByeRoutine(s, id, ok); return;
      case ESettled(a) => SettledRoutine(s, a); return;
      case _ => return;
    }
  }

  lemma TeardownSameWork(s: Sip, e: Event)
    requires !Adding(e) && !e.EAction? && !e.EUnwound? && !e.EUacFails? && !e.EHungUp?
    ensures SameWork(s, Step(s, e))
  {
    match e {
      case ECancel(a, owner) => CancelRoutine(s, a, owner); return;
      case EBye(op, id) => BeginByeRoutine(s, op, id); return;
      case EByeReturns(op, ok) => ByeReturnsRoutine(s, op, ok); return;
      case ERemoteDestroys(r, byBye) => RemoteRoutine(s, r, byBye); return;
      case EOwnerLeft(connection) => OwnerLeftRoutine(s, connection); return;
      case EEnding(r, ok) => EndingRoutine(s, r, ok); return;
      case EStop => StopRoutine(s); return;
      case EShutdownBye(id, ok) => ShutdownByeRoutine(s, id, ok); return;
      case ESettled(a) => SettledRoutine(s, a); return;
      case _ => return;
    }
  }

  lemma FlagsUntouched(s: Sip, e: Event)
    requires !e.EDrain? && !e.EStop?
    ensures SameFlags(s, Step(s, e))
  {
    if Adding(e) {
      AddingStep(s, e);
      return;
    }
    match e {
      case EAction(id, action) => ActionRoutine(s, id, action); return;
      case EUnwound(id) => UnwoundRoutine(s, id); return;
      case ECancel(a, owner) => CancelRoutine(s, a, owner); return;
      case EUacFails(a) => UacFailsRoutine(s, a); return;
      case EHungUp(a) => HungUpRoutine(s, a); return;
      case EBye(op, id) => BeginByeRoutine(s, op, id); return;
      case EByeReturns(op, ok) => ByeReturnsRoutine(s, op, ok); return;
      case ERemoteDestroys(r, byBye) => RemoteRoutine(s, r, byBye); return;
      case EOwnerLeft(connection) => OwnerLeftRoutine(s, connection); return;
      case EEnding(r, ok) => EndingRoutine(s, r, ok); return;
      case EShutdownBye(id, ok) => ShutdownByeRoutine(s, id, ok); return;
      case ESettled(a) => SettledRoutine(s, a); return;
      case _ => return;
    }
  }

  // ----- ids

  /** A reservation and a call never share an id, and once an INVITE handler is over its reservation is gone. */
  lemma {:induction false} IdsAreExclusive(events: seq<Event>, id: CallId)
    ensures var s := StateAfter(events);
            && !(id in s.calls && id in s.reservations)
            && (id !in s.inbound ==> id !in s.reservations)
            && (id in s.inbound ==> id !in s.calls)
  {
    RunInv(events);
    var s := StateAfter(events);
    assert id in s.inbound <==> id in s.inbound.Keys;
  }

  // ----- notices

  /** Local BYE, remote destroy and owner disconnect may race, but each call record is reported at most
      once, and only when it has left the registry. */
  lemma OneNoticePerCall(events: seq<Event>, i: nat, j: nat)
    requires i < j < |StateAfter(events).notices|
    ensures var s := StateAfter(events);
            s.notices[i].record != s.notices[j].record && !Active(s, s.notices[i].record)
  {
    RunInv(events);
    assert StateAfter(events).notices[i] in StateAfter(events).notices;
  }

  predicate Told(s: Sip, r: RecordId) {
    exists n :: n in s.notices && n.record == r
  }

  /** The events that take a call out of the registry by its id, with the call that they are about: a BYE that
      succeeded, and the destroy event of a dialog. */
  function Ends(s: Sip, e: Event): Option<(CallId, RecordId)> {
    if e.EByeReturns? && e.ok && e.op in s.byes then Some(s.byes[e.op])
    else if e.ERemoteDestroys? && e.record in s.records then Some((s.records[e.record].callId, e.record))
    else None
  }

  lemma TellsWhatTheIdNames(s: Sip, id: CallId, kind: NoticeKind, r: RecordId)
    ensures var s' := RemoveAndTell(s, id, kind);
            && (id in s.calls ==> Told(s', s.calls[id])) && id !in s'.calls
            && (!Told(s, r) ==> (Told(s', r) <==> id in s.calls && s.calls[id] == r))
            && (forall x :: x in s.calls && x != id ==> x in s'.calls && s'.calls[x] == s.calls[x])
  {
    if id !in s.calls { return; }
    var n := Notice(s.calls[id], kind);
    var s' := RemoveAndTell(s, id, kind);
    assert s'.notices[|s.notices|] == n;
    assert forall m :: m in s'.notices <==> m in s.notices || m == n;
  }

  /** Such an event ends whatever call the id names by then: it reports the call it is about exactly when the id
      still names that call, and otherwise ends and reports the one that was given the id since. */
  lemma {:induction false} RemovalEndsWhatTheIdNames(events: seq<Event>, e: Event)
    requires Ends(StateAfter(events), e).Some?
    ensures var s, s' := StateAfter(events), Step(StateAfter(events), e);
            var (id, meant) := Ends(s, e).value;
            && (id in s.calls ==> Told(s', s.calls[id])) && id !in s'.calls
            && (!Told(s, meant) ==> (Told(s', meant) <==> id in s.calls && s.calls[id] == meant))
            && (forall x :: x in s.calls && x != id ==> x in s'.calls && s'.calls[x] == s.calls[x])
            && s'.notices == if id !in s.calls then s.notices
                             else s.notices + [Notice(s.calls[id], if e.ERemoteDestroys? && e.byBye then Bye else Terminated)]
  {
    var s := StateAfter(events);
    var (id, meant) := Ends(s, e).value;
    if e.EByeReturns? {
      TellsWhatTheIdNames(s, id, Terminated, meant);
      return;
    }
    TellsWhatTheIdNames(s, id, if e.byBye then Bye else Terminated, meant);
  }

  /** A run in which a BYE ends the next call: the first BYE is slow, the peer hangs up, and a second INVITE with
      the same Call-ID takes the id before the BYE returns. Its dialog 2 was never destroyed. */
  lemma SlowByeEndsTheNextCall() returns (events: seq<Event>)
    ensures var s, s' := StateAfter(events), Step(StateAfter(events), EByeReturns(0, true));
            s.calls == map["a" := 2] && s.byes == map[0 := ("a", 1)] && s'.calls == map[] && Told(s', 2)
  {
    var gone := CallWithSlowBye();
    events := AnsweredCall(gone, None, 2);
    RemovalEndsWhatTheIdNames(events, EByeReturns(0, true));
  }

  /** A run in which a destroy event does: the owner of call 1 leaves, its id goes to call 2, and then the dialog
      of call 1 is destroyed. */
  lemma LateDestroyEndsTheNextCall() returns (events: seq<Event>)
    ensures var s, s' := StateAfter(events), Step(StateAfter(events), ERemoteDestroys(1, false));
            s.calls == map["a" := 2] && 1 in s.ending && s'.calls == map[] && Told(s', 2)
  {
    var first := AnsweredCall([], Some(3), 1);
    var left := first + [EOwnerLeft(3)];
    RunSnoc(first, EOwnerLeft(3));
    LostCall(StateAfter(first));
    events := AnsweredCall(left, None, 2);
    RemovalEndsWhatTheIdNames(events, ERemoteDestroys(1, false));
  }

  lemma LostCall(s: Sip)
    requires s == Activate(INIT, "a", 1, CallInfo("a", Some(3), None))
    ensures var s' := Step(s, EOwnerLeft(3)); Idle(s') && s'.records == s.records && s'.ending == {1}
  {
    assert OwnedCalls(s, 3) == {"a"};
    var s' := OwnerLeft(s, 3);
    assert s'.ending == {1} by {
      assert "a" in OwnedCalls(s, 3);
    }
  }

  lemma CallWithSlowBye() returns (events: seq<Event>)
    ensures var s := StateAfter(events);
            && s.calls == map[] && s.reservations == {} && s.inbound == map[] && !s.draining && !s.stopping
            && s.byes == map[0 := ("a", 1)] && s.records.Keys == {1}
  {
    var call := AnsweredCall([], None, 1);
    var e1 := call + [EBye(0, "a")];
    RunSnoc(call, EBye(0, "a"));
    events := e1 + [ERemoteDestroys(1, true)];
    RunSnoc(e1, ERemoteDestroys(1, true));
    assert StateAfter(e1) == StateAfter(call).(byes := map[0 := ("a", 1)]);
  }

  lemma PlainIdReserved(taken: set<CallId>)
    requires "a" !in taken
    ensures Reserves(CallIds.NormalizeCallId("a", ""), taken, "a")
  {
    CallIds.WithoutSchemeIsKept("a", "");
    assert FirstFree("a", taken, "a", 0);
  }

  predicate Idle(s: Sip) {
    !s.draining && !s.stopping && s.calls == map[] && s.reservations == {} && s.inbound == map[]
  }

  function Open(s: Sip, owner: Option<ConnectionId>, phase: InvitePhase): Sip {
    s.(reservations := {"a"}, inbound := map["a" := Invite(owner, phase)])
  }

  lemma InviteOpens(s: Sip, owner: Option<ConnectionId>)
    requires Idle(s)
    ensures Step(s, EInvite("a", "a", "", owner, true)) == Open(s, owner, Asking)
  {
    PlainIdReserved({});
    assert Taken(s) == {};
    assert InviteArrives(s, "a", "a", "", owner, true) == Open(s, owner, Asking);
  }

  lemma AnswerProceeds(s: Sip, owner: Option<ConnectionId>)
    requires Idle(s) && !OwnerLost(s, owner)
    ensures Step(Open(s, owner, Asking), EAction("a", Answer)) == Open(s, owner, Answering)
  {
    assert ActionArrives(Open(s, owner, Asking), "a", Answer) == Open(s, owner, Answering);
  }

  /** An INVITE with Call-ID `a` that waits in createUAS. */
  lemma InviteBeingAnswered(before: seq<Event>, owner: Option<ConnectionId>) returns (events: seq<Event>)
    requires Idle(StateAfter(before)) && !OwnerLost(StateAfter(before), owner)
    ensures StateAfter(events) == Open(StateAfter(before), owner, Answering)
  {
    var asked := before + [EInvite("a", "a", "", owner, true)];
    events := asked + [EAction("a", Answer)];
    RunSnoc(before, EInvite("a", "a", "", owner, true));
    RunSnoc(asked, EAction("a", Answer));
    InviteOpens(StateAfter(before), owner);
    AnswerProceeds(StateAfter(before), owner);
  }

  /** The same INVITE answered with dialog r. */
  lemma AnsweredCall(before: seq<Event>, owner: Option<ConnectionId>, r: RecordId) returns (events: seq<Event>)
    requires Idle(StateAfter(before)) && !OwnerLost(StateAfter(before), owner) && r !in StateAfter(before).records
    ensures StateAfter(events) == Activate(StateAfter(before), "a", r, CallInfo("a", owner, None))
  {
    var waiting := InviteBeingAnswered(before, owner);
    var s, w := StateAfter(before), StateAfter(waiting);
    events := waiting + [EUas("a", Some(r))];
    RunSnoc(waiting, EUas("a", Some(r)));
    assert Step(w, EUas("a", Some(r))) == UasReturns(w, "a", Some(r));
    assert w.reservations - {"a"} == s.reservations - {"a"} && w.inbound - {"a"} == s.inbound;
  }

  // ----- owner disconnect

  lemma OwnerLeftTakes(s: Sip, connection: ConnectionId)
    requires Inv(s)
    ensures var s' := Step(s, EOwnerLeft(connection));
            && (forall id :: id in s'.calls ==> s'.calls[id] in s'.records && s'.records[s'.calls[id]].owner != Some(connection))
            && (forall a :: a in s'.outbound && s'.outbound[a].owner == Some(connection) ==> s'.outbound[a].cancelled)
  {
  }

  /** What the disconnect of a connection takes, and that it takes nothing else. */
  ghost predicate TakesExactly(s: Sip, s': Sip, connection: ConnectionId) {
    && (forall id :: id in s'.calls ==> id in s.calls && s'.calls[id] == s.calls[id])
    && (forall id :: id in s.calls && s.calls[id] in s.records ==>
                       if s.records[s.calls[id]].owner == Some(connection) then id !in s'.calls && s.calls[id] in s'.ending
                       else id in s'.calls)
    && (forall r :: r in s'.ending ==> r in s.ending || (r in s.records && s.records[r].owner == Some(connection)))
    && s'.outbound.Keys == s.outbound.Keys
    && (forall a :: a in s.outbound ==>
                      s'.outbound[a] == if s.outbound[a].owner == Some(connection) then s.outbound[a].(cancelled := true) else s.outbound[a])
    && s'.records == s.records && s'.reservations == s.reservations && s'.inbound == s.inbound && s'.notices == s.notices
  }

  lemma OwnerLeftExactly(s: Sip, connection: ConnectionId)
    ensures TakesExactly(s, Step(s, EOwnerLeft(connection)), connection)
  {
    var s' := OwnerLeft(s, connection);
    forall id | id in s.calls && s.calls[id] in s.records && s.records[s.calls[id]].owner == Some(connection)
      ensures id !in s'.calls && s.calls[id] in s'.ending
    {
      assert id in OwnedCalls(s, connection);
    }
  }

  /** The synchronous part of an owner disconnect leaves no registered call of that owner and no attempt
      of it that is not cancelled; its dialogs are being destroyed, and nobody else is touched. */
  lemma OwnerTakesItsCalls(events: seq<Event>, connection: ConnectionId)
    ensures var s' := Step(StateAfter(events), EOwnerLeft(connection));
            && (forall id :: id in s'.calls ==> s'.calls[id] in s'.records && s'.records[s'.calls[id]].owner != Some(connection))
            && (forall a :: a in s'.outbound && s'.outbound[a].owner == Some(connection) ==> s'.outbound[a].cancelled)
            && TakesExactly(StateAfter(events), s', connection)
  {
    OwnerLeftExactly(StateAfter(events), connection);
    RunInv(events);
    OwnerLeftTakes(StateAfter(events), connection);
  }

  /** The steps that do add something leave the flags, and a stopping gateway activates nothing. */
  ghost predicate Adds(s: Sip, s': Sip) {
    && s'.draining == s.draining && s'.stopping == s.stopping && s'.cancelledSerials == s.cancelledSerials
    && s'.closing == s.closing && s'.closingOut == s.closingOut && s'.lost == s.lost && s.serials <= s'.serials
    && (s.stopping ==> FewerCalls(s.calls, s'.calls))
  }

  lemma UasAdds(s: Sip, id: CallId, dialog: Option<RecordId>)
    ensures Adds(s, UasReturns(s, id, dialog))
  {
    if id !in s.inbound || !s.inbound[id].phase.Answering? || (dialog.Some? && dialog.value in s.records) { return; }
    if dialog.None? || s.stopping { return; }
  }

  lemma UacAdds(s: Sip, a: AttemptId, r: RecordId, sipCallId: string, uuid: string, id: CallId)
    ensures Adds(s, UacReturns(s, a, r, sipCallId, uuid, id))
  {
    if a !in s.outbound || s.outbound[a].hanging || r in s.records { return; }
    if s.outbound[a].cancelled || s.stopping { return; }
  }

  lemma CreateAdds(s: Sip, a: AttemptId, owner: Option<ConnectionId>)
    ensures Adds(s, CreateOutbound(s, a, owner))
  {
    if CreateOutbound(s, a, owner) == s { return; }
  }

  lemma InviteAdds(s: Sip, id: CallId, sipCallId: string, uuid: string, owner: Option<ConnectionId>, routed: bool)
    ensures Adds(s, InviteArrives(s, id, sipCallId, uuid, owner, routed))
  {
    if InviteArrives(s, id, sipCallId, uuid, owner, routed) == s { return; }
  }

  lemma AddingStep(s: Sip, e: Event)
    requires Adding(e)
    ensures Adds(s, Step(s, e))
  {
    match e {
      case EUas(id, dialog) => UasAdds(s, id, dialog); return;
      case EUac(a, r, sipCallId, uuid, id) => UacAdds(s, a, r, sipCallId, uuid, id); return;
      case ECreate(a, owner) => CreateAdds(s, a, owner); return;
      case EInvite(id, sipCallId, uuid, owner, routed) => InviteAdds(s, id, sipCallId, uuid, owner, routed); return;
      case _ => return;
    }
  }

  lemma FlagsStay(s: Sip, e: Event)
    ensures var s' := Step(s, e);
            (s.draining ==> s'.draining) && (s.stopping ==> s'.stopping) && s.cancelledSerials <= s'.cancelledSerials
  {
    if Adding(e) {
      AddingStep(s, e);
    } else {
      RoutineStep(s, e);
    }
  }

  lemma {:induction false} CancelledStays(events: seq<Event>, more: seq<Event>)
    ensures StateAfter(events).cancelledSerials <= StateAfter(events + more).cancelledSerials
    decreases |more|
  {
    if more == [] {
      assert events + more == events;
    } else {
      var init, last := more[..|more| - 1], more[|more| - 1];
      CancelledStays(events, init);
      RunSplit(events, more);
      FlagsStay(StateAfter(events + init), last);
    }
  }

  /** An attempt that was pending when its owner left never becomes a call, whenever createUAC answers. */
  lemma LostOwnersAttemptsNeverConnect(events: seq<Event>, connection: ConnectionId, a: AttemptId, more: seq<Event>, r: RecordId)
    requires var s := StateAfter(events); a in s.outbound && s.outbound[a].owner == Some(connection)
    requires r in StateAfter(events + [EOwnerLeft(connection)] + more).records
    ensures StateAfter(events + [EOwnerLeft(connection)] + more).records[r].origin != Some(StateAfter(events).outbound[a].serial)
  {
    var left := events + [EOwnerLeft(connection)];
    RunSnoc(events, EOwnerLeft(connection));
    assert StateAfter(events).outbound[a].serial in StateAfter(left).cancelledSerials;
    CancelledStays(left, more);
    RunInv(left + more);
  }

  // ----- draining

  /** Work that is a call or may still become one. */
  ghost function Load(s: Sip): nat {
    |s.reservations| + |s.outbound| + |s.calls|
  }

  lemma MapShrinks<K, V>(a: map<K, V>, b: map<K, V>)
    requires a.Keys <= b.Keys
    ensures |a| <= |b|
  {
    SubsetSize(a.Keys, b.Keys);
    assert |a| == |a.Keys| && |b| == |b.Keys|;
  }

  lemma MapGrows<K, V>(m: map<K, V>, k: K, v: V)
    ensures |m[k := v]| <= |m| + 1
  {
    assert m[k := v].Keys == m.Keys + {k};
    assert |m[k := v]| == |m[k := v].Keys| && |m| == |m.Keys|;
  }

  lemma MapLoses<K, V>(m: map<K, V>, k: K)
    requires k in m
    ensures |m - {k}| == |m| - 1
  {
    assert (m - {k}).Keys == m.Keys - {k};
    assert |m - {k}| == |(m - {k}).Keys| && |m| == |m.Keys|;
  }

  lemma Shrinks(s: Sip, s': Sip)
    requires s'.reservations <= s.reservations && s'.outbound.Keys <= s.outbound.Keys && s'.calls.Keys <= s.calls.Keys
    ensures Load(s') <= Load(s)
  {
    SubsetSize(s'.reservations, s.reservations);
    MapShrinks(s'.outbound, s.outbound);
    MapShrinks(s'.calls, s.calls);
  }

  lemma UasLoad(s: Sip, id: CallId, dialog: Option<RecordId>)
    requires Inv(s) && s.draining
    ensures Load(UasReturns(s, id, dialog)) <= Load(s)
  {
    var s' := UasReturns(s, id, dialog);
    if id !in s.inbound || !s.inbound[id].phase.Answering? || (dialog.Some? && dialog.value in s.records) { return; }
    if s'.records != s.records {
      assert id in s.inbound.Keys && s.reservations == s.inbound.Keys;
      MapGrows(s.calls, id, dialog.value);
    } else {
      Shrinks(s, s');
    }
  }

  lemma ConnectedLoad(s: Sip, a: AttemptId, r: RecordId, id: CallId)
    requires a in s.outbound
    ensures Load(Connected(s, a, r, id)) <= Load(s)
  {
    MapGrows(s.calls, id, r);
    MapLoses(s.outbound, a);
    SubsetSize(s.reservations - {id}, s.reservations);
  }

  lemma UacLoad(s: Sip, a: AttemptId, r: RecordId, sipCallId: string, uuid: string, id: CallId)
    ensures Load(UacReturns(s, a, r, sipCallId, uuid, id)) <= Load(s)
  {
    if a !in s.outbound || s.outbound[a].hanging || r in s.records { return; }
    if s.outbound[a].cancelled || s.stopping {
      var s' := s.(outbound := s.outbound[a := s.outbound[a].(hanging := true)]);
      assert UacReturns(s, a, r, sipCallId, uuid, id) == s';
      assert s'.outbound.Keys == s.outbound.Keys;
      Shrinks(s, s');
      return;
    }
    if !Reserves(CallIds.NormalizeCallId(sipCallId, uuid), Taken(s), id) { return; }
    assert UacReturns(s, a, r, sipCallId, uuid, id) == Connected(s, a, r, id);
    ConnectedLoad(s, a, r, id);
  }

  lemma RoutineLoad(s: Sip, s': Sip)
    requires Routine(s, s')
    ensures Load(s') <= Load(s)
  {
    assert forall a :: a in s'.outbound.Keys ==> a in s.outbound.Keys;
    assert forall id :: id in s'.calls.Keys ==> id in s.calls.Keys;
    Shrinks(s, s');
  }

  lemma LoadStep(s: Sip, e: Event)
    requires Inv(s) && s.draining
    ensures Load(Step(s, e)) <= Load(s)
  {
    if e.EInvite? {
      assert Step(s, e) == InviteArrives(s, e.id, e.sipCallId, e.uuid, e.owner, e.routed);
    } else if e.ECreate? {
      assert Step(s, e) == CreateOutbound(s, e.attempt, e.owner);
    } else if e.EUas? {
      UasLoad(s, e.id, e.dialog);
    } else if e.EUac? {
      UacLoad(s, e.attempt, e.record, e.sipCallId, e.uuid, e.id);
    } else {
      RoutineStep(s, e);
      RoutineLoad(s, Step(s, e));
    }
  }

  /** From the start of a drain on, reservations, pending attempts and calls together never grow, in any
      continuation: only what was admitted before can still become a call. */
  lemma {:induction false} DrainOnlyShrinks(events: seq<Event>, more: seq<Event>)
    requires StateAfter(events).draining
    ensures StateAfter(events + more).draining && Load(StateAfter(events + more)) <= Load(StateAfter(events))
    decreases |more|
  {
    if more == [] {
      assert events + more == events;
    } else {
      var init, last := more[..|more| - 1], more[|more| - 1];
      DrainOnlyShrinks(events, init);
      RunSplit(events, more);
      RunInv(events + init);
      LoadStep(StateAfter(events + init), last);
      FlagsStay(StateAfter(events + init), last);
    }
  }

  // ----- stopping

  /** Once the gateway stops no step adds or replaces a call. */
  lemma StoppingAddsNoCall(s: Sip, e: Event, id: CallId)
    requires s.stopping && id in Step(s, e).calls
    ensures id in s.calls && Step(s, e).calls[id] == s.calls[id]
  {
    if Adding(e) {
      AddingStep(s, e);
    } else {
      RoutineStep(s, e);
    }
  }

  lemma {:induction false} StoppedCallsOnlyLeave(events: seq<Event>, more: seq<Event>, id: CallId)
    requires StateAfter(events).stopping && id in StateAfter(events + more).calls
    ensures id in StateAfter(events).calls && StateAfter(events + more).calls[id] == StateAfter(events).calls[id]
    decreases |more|
  {
    if more == [] {
      assert events + more == events;
    } else {
      var init, last := more[..|more| - 1], more[|more| - 1];
      RunSplit(events, more);
      StaysStopped(events, init);
      StoppingAddsNoCall(StateAfter(events + init), last, id);
      StoppedCallsOnlyLeave(events, init, id);
    }
  }

  lemma {:induction false} StaysStopped(events: seq<Event>, more: seq<Event>)
    requires StateAfter(events).stopping
    ensures StateAfter(events + more).stopping
    decreases |more|
  {
    if more == [] {
      assert events + more == events;
    } else {
      var init, last := more[..|more| - 1], more[|more| - 1];
      StaysStopped(events, init);
      RunSplit(events, more);
      FlagsStay(StateAfter(events + init), last);
    }
  }

  predicate Settled(s: Sip) {
    s.stopping && s.closing == map[] && s.closingOut == {}
  }

  /** When the shutdown has settled there are no reservations and no attempts, and every call left is one
      whose BYE failed. */
  lemma {:induction false} ShutdownLeavesFailedByes(events: seq<Event>)
    requires Settled(StateAfter(events))
    ensures var s := StateAfter(events);
            s.reservations == {} && s.outbound == map[] && forall id :: id in s.calls ==> s.calls[id] in s.byeFailed
  {
    RunInv(events);
    var s := StateAfter(events);
    assert forall a :: a !in s.outbound;
  }

  /** What a shutdown still waits for. */
  ghost function Waiting(s: Sip): nat {
    |s.closing| + |s.outbound| + |s.closingOut|
  }

  ghost predicate Progress(s: Sip, s': Sip) {
    Waiting(s') < Waiting(s) && s'.stopping == s.stopping
  }

  lemma ByeProgress(s: Sip, id: CallId)
    requires id in s.closing
    ensures Progress(s, Step(s, EShutdownBye(id, true)))
  {
    MapLoses(s.closing, id);
    if id !in s.calls { return; }
  }

  lemma HungUpProgress(s: Sip, a: AttemptId)
    requires a in s.outbound && s.outbound[a].hanging
    ensures Progress(s, Step(s, EHungUp(a)))
  {
    MapLoses(s.outbound, a);
  }

  lemma FailureProgress(s: Sip, a: AttemptId)
    requires a in s.outbound && !s.outbound[a].hanging
    ensures Progress(s, Step(s, EUacFails(a)))
  {
    MapLoses(s.outbound, a);
  }

  lemma CompletionProgress(s: Sip, a: AttemptId)
    requires a in s.closingOut && a !in s.outbound
    ensures Progress(s, Step(s, ESettled(a)))
  {
  }

  lemma NothingIn<K, V>(m: map<K, V>, k: K)
    requires m.Keys == {}
    ensures k !in m && m == map[]
  {
    assert forall x :: x !in m.Keys;
  }

  /** An answer that is still to come, and that brings the shutdown nearer to its end. */
  lemma NextAnswer(s: Sip) returns (e: Event)
    requires s.stopping && !Settled(s)
    ensures Progress(s, Step(s, e))
  {
    if s.closing.Keys != {} {
      var id := Member(s.closing.Keys);
      ByeProgress(s, id);
      return EShutdownBye(id, true);
    }
    if s.outbound.Keys != {} {
      var a := Member(s.outbound.Keys);
      if s.outbound[a].hanging {
        HungUpProgress(s, a);
        return EHungUp(a);
      }
      FailureProgress(s, a);
      return EUacFails(a);
    }
    NothingIn(s.closing, "");
    var a := Member(s.closingOut);
    NothingIn(s.outbound, a);
    CompletionProgress(s, a);
    return ESettled(a);
  }

  lemma OneMoreAnswer(events: seq<Event>) returns (e: Event)
    requires StateAfter(events).stopping && !Settled(StateAfter(events))
    ensures Progress(StateAfter(events), StateAfter(events + [e]))
  {
    e := NextAnswer(StateAfter(events));
    RunSnoc(events, e);
  }

  lemma Regroup(events: seq<Event>, e: Event, rest: seq<Event>)
    ensures events + ([e] + rest) == events + [e] + rest
  {
  }

  lemma {:induction false} SettlesWithin(events: seq<Event>, steps: nat) returns (more: seq<Event>)
    requires StateAfter(events).stopping && Waiting(StateAfter(events)) <= steps
    ensures Settled(StateAfter(events + more))
    decreases steps
  {
    if Settled(StateAfter(events)) {
      assert events + [] == events;
      return [];
    }
    var e := OneMoreAnswer(events);
    var rest := SettlesWithin(events + [e], steps - 1);
    Regroup(events, e, rest);
    return [e] + rest;
  }

  /** A shutdown is never stuck: from every state of a stopping gateway the answers that are still to come,
      in some order, settle it. */
  lemma {:induction false} ShutdownCanSettle(events: seq<Event>) returns (more: seq<Event>)
    requires StateAfter(events).stopping
    ensures Settled(StateAfter(events + more))
  {
    more := SettlesWithin(events, Waiting(StateAfter(events)));
  }
}
