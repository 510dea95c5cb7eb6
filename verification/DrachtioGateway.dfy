/** The SIP gateway in its own form (src/drachtio-gateway.ts): its tables, the call registry and the operation
    counter updated in place. Each public method is one synchronous stretch of the source between two awaits: it
    takes the step of SipCalls that is named in its contract, begins and finishes the operations that `track` would,
    and keeps what holds in every run. */
module DrachtioGateway {
  import opened Prelude
  import opened SipCalls
  import opened Tracking
  import opened SipTracking
  import CallIds
  import CallRegistry
  import GatewayLifecycle
  import SipTheorems

  type RecordId = CallRegistry.RecordId

  // ----- what holds between two stretches

  /** The open operations are the handlers and attempts in the tables. */
  ghost predicate Counted(open: set<GatewayLifecycle.Token>, s: Sip) {
    && GatewayLifecycle.PassingWork !in open
    && forall w: GatewayLifecycle.Token :: w.InviteWork? || w.AttemptWork? ==> (w in open <==> SipBusy(s, w))
  }

  ghost predicate Sound(life: GatewayLifecycle.Lifecycle, s: Sip) {
    && GatewayLifecycle.Inv(life) && Inv(s) && Counted(life.open, s)
    && s.draining == life.isDraining && s.stopping == life.isStopping
  }

  lemma MarkCounted(life: GatewayLifecycle.Lifecycle, s: Sip, s': Sip, marks: seq<Mark>)
    requires Counted(life.open, s) && SipMarked(s, s', marks) && |marks| == 1
    ensures (marks[0].token in life.open <==> marks[0].Ends?) && (marks[0].Begins? ==> !s.draining)
  {
    var w := marks[0].token;
    assert Moved(marks, w, SipBusy(s, w), SipBusy(s', w));
    assert SipBusy(s, w) || SipBusy(s', w);
  }

  lemma CountedFollows(life: GatewayLifecycle.Lifecycle, s: Sip, s': Sip, marks: seq<Mark>, open': set<GatewayLifecycle.Token>)
    requires Counted(life.open, s) && SipMarked(s, s', marks) && forall w :: Moved(marks, w, w in life.open, w in open')
    ensures Counted(open', s')
  {
    forall w: GatewayLifecycle.Token | w.InviteWork? || w.AttemptWork?
      ensures w in open' <==> SipBusy(s', w)
    {
      assert Moved(marks, w, w in life.open, w in open');
      assert Moved(marks, w, SipBusy(s, w), SipBusy(s', w));
    }
    assert Moved(marks, GatewayLifecycle.PassingWork, GatewayLifecycle.PassingWork in life.open, GatewayLifecycle.PassingWork in open');
  }

  lemma StepKeeps(life: GatewayLifecycle.Lifecycle, s: Sip, e: Event)
    requires Sound(life, s) && !e.EDrain? && !e.EStop?
    ensures Sound(Track(life, SipMarks(s, e)), Step(s, e))
  {
    var marks := SipMarks(s, e);
    InvStep(s, e);
    SipMarksRight(s, e);
    SipTheorems.FlagsUntouched(s, e);
    if |marks| == 1 { MarkCounted(life, s, Step(s, e), marks); }
    TrackMoves(life, marks);
    CountedFollows(life, s, Step(s, e), marks, Track(life, marks).open);
  }

  lemma HandlerHasNoCall(s: Sip, id: CallId)
    requires Inv(s) && id in s.inbound
    ensures id !in s.calls && s.calls - {id} == s.calls
  {
    assert id in s.inbound.Keys;
  }

  /** The stop hook runs at once when the lifecycle has begun to stop. */
  ghost predicate StopsNow(life: GatewayLifecycle.Lifecycle, s: Sip) {
    && GatewayLifecycle.Inv(life) && Inv(s.(stopping := false)) && Counted(life.open, s)
    && life.isStopping && s.stopping && s.draining
  }

  lemma StopKeeps(life: GatewayLifecycle.Lifecycle, s: Sip)
    requires StopsNow(life, s)
    ensures var s0 := s.(stopping := false);
            Step(s0, EStop) == ShutdownBegins(s) && Sound(life, ShutdownBegins(s))
  {
    var s0 := s.(stopping := false);
    InvStep(s0, EStop);
    assert s0.(stopping := true) == s;
    forall w
      ensures SipBusy(ShutdownBegins(s), w) <==> SipBusy(s, w)
    {
    }
  }

  // ----- loops, one element at a time

  predicate Chosen(m: map<AttemptId, Attempt>, owner: Option<ConnectionId>, all: bool, a: AttemptId) {
    a in m && (all || m[a].owner == owner)
  }

  ghost function Kept(m: map<AttemptId, Attempt>, owner: Option<ConnectionId>, all: bool, todo: set<AttemptId>)
    : map<AttemptId, Attempt>
  {
    map a | a in m :: if a !in todo && Chosen(m, owner, all, a) then m[a].(cancelled := true) else m[a]
  }

  ghost function SerialsOf(m: map<AttemptId, Attempt>, owner: Option<ConnectionId>, all: bool, todo: set<AttemptId>): set<nat> {
    set a | a in m && a !in todo && Chosen(m, owner, all, a) :: m[a].serial
  }

  lemma KeptOneMore(m: map<AttemptId, Attempt>, owner: Option<ConnectionId>, all: bool, todo: set<AttemptId>, a: AttemptId)
    requires a in m && a in todo
    ensures Kept(m, owner, all, todo - {a})
         == if Chosen(m, owner, all, a) then Kept(m, owner, all, todo)[a := m[a].(cancelled := true)] else Kept(m, owner, all, todo)
  {
  }

  lemma SerialsOneMore(m: map<AttemptId, Attempt>, owner: Option<ConnectionId>, all: bool, todo: set<AttemptId>, a: AttemptId)
    requires a in m && a in todo
    ensures SerialsOf(m, owner, all, todo - {a})
         == SerialsOf(m, owner, all, todo) + if Chosen(m, owner, all, a) then {m[a].serial} else {}
  {
    forall n | n in SerialsOf(m, owner, all, todo)
      ensures n in SerialsOf(m, owner, all, todo - {a})
    {
      var b :| b in m && b !in todo && Chosen(m, owner, all, b) && m[b].serial == n;
      assert b !in todo - {a};
    }
    assert a !in todo - {a};
  }

  lemma KeptNone(m: map<AttemptId, Attempt>, owner: Option<ConnectionId>, all: bool)
    ensures Kept(m, owner, all, m.Keys) == m && SerialsOf(m, owner, all, m.Keys) == {}
  {
  }

  lemma KeptAll(s: Sip, owner: Option<ConnectionId>, all: bool)
    ensures Kept(s.outbound, owner, all, {}).Keys == s.outbound.Keys
    ensures CancelWhere(s, owner, all)
         == s.(outbound := Kept(s.outbound, owner, all, {}),
            cancelledSerials := s.cancelledSerials + SerialsOf(s.outbound, owner, all, {}))
  {
    assert CancelWhere(s, owner, all).outbound == Kept(s.outbound, owner, all, {});
    assert forall a :: a in s.outbound && (all || s.outbound[a].owner == owner)
                       <==> a in s.outbound && a !in {} && Chosen(s.outbound, owner, all, a);
  }

  function OwnedIds(m: map<CallId, RecordId>, records: map<RecordId, CallInfo>, connection: ConnectionId): set<CallId> {
    set id | id in m && m[id] in records && records[m[id]].owner == Some(connection)
  }

  ghost function RecordsOf(m: map<CallId, RecordId>, ids: set<CallId>): set<RecordId> {
    set id | id in ids && id in m :: m[id]
  }

  lemma RecordsOneMore(m: map<CallId, RecordId>, ids: set<CallId>, id: CallId)
    requires id in m
    ensures RecordsOf(m, ids + {id}) == RecordsOf(m, ids) + {m[id]}
  {
    forall r | r in RecordsOf(m, ids)
      ensures r in RecordsOf(m, ids + {id})
    {
      var x :| x in ids && x in m && m[x] == r;
      assert x in ids + {id};
    }
    assert id in ids + {id};
  }

  lemma OwnedGone(s: Sip, connection: ConnectionId)
    ensures OwnedCalls(s, connection) == OwnedIds(s.calls, s.records, connection)
    ensures RecordsOf(s.calls, OwnedCalls(s, connection)) == set id | id in OwnedCalls(s, connection) :: s.calls[id]
  {
  }

  class DrachtioGateway {
    const registry: CallRegistry.CallRegistry
    const lifecycle: GatewayLifecycle.GatewayLifecycle
    var pendingInboundCalls: map<CallId, Invite>
    var pendingOutboundCalls: map<AttemptId, Attempt>
    /** The calls that were ever activated, and the events sent about them. */
    var records: map<RecordId, CallInfo>
    var notices: seq<Notice>
    /** What the suspended calls of bye, terminateCallsForControlConnection and shutdown captured. */
    var byes: map<OpId, (CallId, RecordId)>
    var ending: set<RecordId>
    var closing: map<CallId, RecordId>
    var closingOut: set<AttemptId>
    /** Tells the pending records of attempts with the same id apart. */
    var serials: nat
    ghost var cancelledSerials: set<nat>
    ghost var byeFailed: set<RecordId>
    /** The connections that the hub has reported as gone. */
    ghost var lost: set<ConnectionId>

    ghost function Model(): Sip
      reads this, registry, lifecycle
    {
      Sip(registry.calls, records, registry.reservations, pendingInboundCalls, pendingOutboundCalls, serials, cancelledSerials,
          byes, ending, notices, byeFailed, lifecycle.isDraining, lifecycle.isStopping, closing, closingOut, lost)
    }

    ghost predicate Valid()
      reads this, registry, lifecycle
    {
      Sound(lifecycle.Model(), Model())
    }

    /** The tables have taken the step e, and the operation counter has followed it. */
    twostate predicate Took(e: Event)
      reads this, registry, lifecycle
    {
      && Model() == Step(old(Model()), e)
      && lifecycle.Model() == Track(old(lifecycle.Model()), SipMarks(old(Model()), e))
    }

    twostate lemma Keeps(e: Event)
      requires old(Valid()) && Took(e) && !e.EDrain? && !e.EStop?
      ensures Valid()
    {
      StepKeeps(old(lifecycle.Model()), old(Model()), e);
    }

    constructor (lifecycle: GatewayLifecycle.GatewayLifecycle)
      requires lifecycle.Valid() && !lifecycle.isDraining && !lifecycle.isStopping && Counted(lifecycle.unfinished, INIT)
      ensures Valid() && this.lifecycle == lifecycle && fresh(registry) && Model() == INIT
    {
      registry := new CallRegistry.CallRegistry();
      this.lifecycle := lifecycle;
      pendingInboundCalls, pendingOutboundCalls, records, notices := map[], map[], map[], [];
      byes, ending, closing, closingOut := map[], {}, map[], {};
      serials, cancelledSerials, byeFailed, lost := 0, {}, {}, {};
      new;
      InitInv();
    }

    // ----- inbound

    /** handleAdmittedInvite of a routed INVITE, up to the question to its backend. */
    method AdmitInvite(sipCallId: string, uuid: string, owner: Option<ConnectionId>) returns (callId: CallId)
      requires Valid() && !lifecycle.isDraining
      modifies this`pendingInboundCalls, registry, lifecycle`pendingOperations, lifecycle`unfinished
      ensures Valid() && Took(EInvite(callId, sipCallId, uuid, owner, true))
      ensures callId in Model().reservations && callId !in old(Taken(Model()))
      ensures callId in pendingInboundCalls && pendingInboundCalls[callId] == Invite(owner, Asking)
    {
      callId := registry.ReserveCallId(sipCallId, uuid);
      CallRegistry.FreeIsFree(sipCallId, uuid, old(Taken(Model())), callId);
      HandlersHold(old(Model()), callId);
      pendingInboundCalls := pendingInboundCalls[callId := Invite(owner, Asking)];
      BeginTracked(lifecycle, GatewayLifecycle.InviteWork(callId));
      assert Model() == InviteArrives(old(Model()), callId, sipCallId, uuid, owner, true);
      Keeps(EInvite(callId, sipCallId, uuid, owner, true));
    }

    method HandleInvite(sipCallId: string, uuid: string, owner: Option<ConnectionId>, routed: bool) returns (id: Option<CallId>)
      requires Valid()
      modifies this`pendingInboundCalls, registry, lifecycle`pendingOperations, lifecycle`unfinished
      ensures Valid() && Took(EInvite(if id.Some? then id.value else "", sipCallId, uuid, owner, routed))
      ensures id.None? <==> lifecycle.isDraining || !routed
      ensures id.Some? ==> id.value in Model().reservations && id.value !in old(Taken(Model()))
      ensures id.Some? ==> id.value in pendingInboundCalls && pendingInboundCalls[id.value] == Invite(owner, Asking)
    {
      if lifecycle.isDraining { return None; }
      if !routed {
        PassTracked(lifecycle);
        Keeps(EInvite("", sipCallId, uuid, owner, routed));
        return None;
      }
      var callId := AdmitInvite(sipCallId, uuid, owner);
      return Some(callId);
    }

    /** The catch block of an INVITE handler up to its await. */
    method FailInvite(id: CallId)
      modifies registry
      ensures registry.calls == old(registry.calls) - {id} && registry.reservations == old(registry.reservations) - {id}
    {
      var _ := registry.Remove(id);
      registry.ReleaseReservation(id);
    }

    /** The finally block. */
    method LeaveInvite(id: CallId)
      requires lifecycle.Valid()
      modifies this`pendingInboundCalls, lifecycle`pendingOperations, lifecycle`unfinished
      ensures pendingInboundCalls == old(pendingInboundCalls) - {id}
      ensures lifecycle.Model() == Track(old(lifecycle.Model()), [Ends(GatewayLifecycle.InviteWork(id))])
    {
      pendingInboundCalls := pendingInboundCalls - {id};
      FinishTracked(lifecycle, GatewayLifecycle.InviteWork(id));
    }

    /** The catch block of a handler without a dialog, and its finally block. */
    method LeaveFailed(id: CallId)
      requires lifecycle.Valid()
      modifies this`pendingInboundCalls, registry, lifecycle`pendingOperations, lifecycle`unfinished
      ensures Model() == FinishInvite(SipCalls.FailInvite(old(Model()), id), id)
      ensures lifecycle.Model() == Track(old(lifecycle.Model()), [Ends(GatewayLifecycle.InviteWork(id))])
    {
      FailInvite(id);
      LeaveInvite(id);
    }

    method LeaveRejected(id: CallId)
      requires lifecycle.Valid()
      modifies this`pendingInboundCalls, registry, lifecycle`pendingOperations, lifecycle`unfinished
      ensures var s := old(Model()); Model() == FinishInvite(s.(reservations := s.reservations - {id}), id)
      ensures lifecycle.Model() == Track(old(lifecycle.Model()), [Ends(GatewayLifecycle.InviteWork(id))])
    {
      registry.ReleaseReservation(id);
      LeaveInvite(id);
    }

    method FailUnanswered(id: CallId, action: Action)
      requires Valid() && GoesOnWith(Model(), id, action) && (lifecycle.isStopping || action.Failure?)
      modifies this`pendingInboundCalls, registry, lifecycle`pendingOperations, lifecycle`unfinished
      ensures Valid() && Took(EAction(id, action))
      ensures registry.calls == old(registry.calls) && id !in pendingInboundCalls && id !in registry.reservations
    {
      HandlerHasNoCall(Model(), id);
      LeaveFailed(id);
      Keeps(EAction(id, action));
    }

    method RejectUnanswered(id: CallId)
      requires Valid() && GoesOnWith(Model(), id, Reject) && !lifecycle.isStopping
      modifies this`pendingInboundCalls, registry, lifecycle`pendingOperations, lifecycle`unfinished
      ensures Valid() && Took(EAction(id, Reject))
      ensures registry.calls == old(registry.calls) && id !in pendingInboundCalls && id !in registry.reservations
    {
      LeaveRejected(id);
      Keeps(EAction(id, Reject));
    }

    /** The backend has answered, or asking it has failed, as it does when its connection is lost. */
    method InviteAction(id: CallId, action: Action)
      requires Valid() && GoesOnWith(Model(), id, action)
      modifies this`pendingInboundCalls, registry, lifecycle`pendingOperations, lifecycle`unfinished
      ensures Valid() && Took(EAction(id, action))
      ensures registry.calls == old(registry.calls)
      ensures if action.Answer? && !lifecycle.isStopping
              then id in pendingInboundCalls && pendingInboundCalls[id] == Invite(old(pendingInboundCalls)[id].owner, Answering)
              else id !in pendingInboundCalls && id !in registry.reservations
    {
      if lifecycle.isStopping || action.Failure? {
        FailUnanswered(id, action);
        return;
      }
      if action.Reject? {
        RejectUnanswered(id);
        return;
      }
      pendingInboundCalls := pendingInboundCalls[id := pendingInboundCalls[id].(phase := Answering)];
      Keeps(EAction(id, action));
    }

    /** An answered INVITE becomes a call. */
    method ActivateInvite(id: CallId, dialog: RecordId)
      requires lifecycle.Valid() && id in pendingInboundCalls
      modifies this`pendingInboundCalls, this`records, registry, lifecycle`pendingOperations, lifecycle`unfinished
      ensures var s := old(Model());
              Model() == FinishInvite(SipCalls.Activate(s, id, dialog, CallInfo(id, s.inbound[id].owner, None)), id)
      ensures lifecycle.Model() == Track(old(lifecycle.Model()), [Ends(GatewayLifecycle.InviteWork(id))])
    {
      registry.Activate(id, dialog);
      records := records[dialog := CallInfo(id, pendingInboundCalls[id].owner, None)];
      LeaveInvite(id);
    }

    /** createUAS has answered with a new dialog or failed. */
    method UasReturned(id: CallId, dialog: Option<RecordId>)
      requires Valid() && id in pendingInboundCalls && pendingInboundCalls[id].phase.Answering?
      requires dialog.Some? ==> dialog.value !in records
      modifies this`pendingInboundCalls, this`records, registry, lifecycle`pendingOperations, lifecycle`unfinished
      ensures Valid() && Took(EUas(id, dialog))
      ensures id in registry.calls <==> dialog.Some? && !lifecycle.isStopping
      ensures id in registry.calls ==>
                && registry.calls[id] == dialog.value && dialog.value in records
                && records[dialog.value] == CallInfo(id, old(pendingInboundCalls)[id].owner, None)
    {
      if dialog.None? {
        LeaveFailed(id);
        Keeps(EUas(id, dialog));
        return;
      }
      if lifecycle.isStopping {
        FailInvite(id);
        pendingInboundCalls := pendingInboundCalls[id := pendingInboundCalls[id].(phase := Unwinding)];
        Keeps(EUas(id, dialog));
        return;
      }
      ActivateInvite(id, dialog.value);
      Keeps(EUas(id, dialog));
    }

    method FailedDialogDestroyed(id: CallId)
      requires Valid() && id in pendingInboundCalls && pendingInboundCalls[id].phase.Unwinding?
      modifies this`pendingInboundCalls, lifecycle`pendingOperations, lifecycle`unfinished
      ensures Valid() && Took(EUnwound(id))
    {
      LeaveInvite(id);
      Keeps(EUnwound(id));
    }

    // ----- outbound

    method RegisterPendingOutboundCall(attempt: AttemptId, owner: Option<ConnectionId>)
      requires lifecycle.Valid() && GatewayLifecycle.AttemptWork(attempt) !in lifecycle.unfinished
      modifies this`pendingOutboundCalls, this`serials, lifecycle`pendingOperations, lifecycle`unfinished
      ensures var s := old(Model());
              Model() == s.(outbound := s.outbound[attempt := Attempt(owner, false, false, s.serials)], serials := s.serials + 1)
      ensures lifecycle.Model() == Track(old(lifecycle.Model()), [Begins(GatewayLifecycle.AttemptWork(attempt))])
    {
      BeginTracked(lifecycle, GatewayLifecycle.AttemptWork(attempt));
      pendingOutboundCalls := pendingOutboundCalls[attempt := Attempt(owner, false, false, serials)];
      serials := serials + 1;
    }

    method CreateOutbound(attempt: AttemptId, owner: Option<ConnectionId>) returns (admitted: bool)
      requires Valid()
      modifies this`pendingOutboundCalls, this`serials, lifecycle`pendingOperations, lifecycle`unfinished
      ensures Valid() && Took(ECreate(attempt, owner))
      ensures admitted <==> !lifecycle.isDraining && attempt !in old(pendingOutboundCalls)
      ensures admitted ==> attempt in pendingOutboundCalls && pendingOutboundCalls[attempt].owner == owner
    {
      if lifecycle.isDraining { return false; }
      if attempt in pendingOutboundCalls {
        PassTracked(lifecycle);
        Keeps(ECreate(attempt, owner));
        return false;
      }
      RegisterPendingOutboundCall(attempt, owner);
      Keeps(ECreate(attempt, owner));
      return true;
    }

    method MarkCancelled(attempt: AttemptId)
      requires attempt in pendingOutboundCalls
      modifies this`pendingOutboundCalls, this`cancelledSerials
      ensures pendingOutboundCalls == old(pendingOutboundCalls)[attempt := old(pendingOutboundCalls)[attempt].(cancelled := true)]
      ensures cancelledSerials == old(cancelledSerials) + {old(pendingOutboundCalls)[attempt].serial}
    {
      cancelledSerials := cancelledSerials + {pendingOutboundCalls[attempt].serial};
      pendingOutboundCalls := pendingOutboundCalls[attempt := pendingOutboundCalls[attempt].(cancelled := true)];
    }

    method CancelOutbound(attempt: AttemptId, owner: Option<ConnectionId>) returns (accepted: bool)
      requires Valid()
      modifies this`pendingOutboundCalls, this`cancelledSerials
      ensures Valid() && Took(ECancel(attempt, owner))
      ensures accepted <==> attempt in old(pendingOutboundCalls) && old(pendingOutboundCalls)[attempt].owner == owner
      ensures accepted ==> pendingOutboundCalls[attempt].cancelled
    {
      if attempt !in pendingOutboundCalls || pendingOutboundCalls[attempt].owner != owner { return false; }
      MarkCancelled(attempt);
      Keeps(ECancel(attempt, owner));
      return true;
    }

    /** The finally block of an outbound attempt. */
    method LeaveAttempt(attempt: AttemptId)
      requires lifecycle.Valid()
      modifies this`pendingOutboundCalls, lifecycle`pendingOperations, lifecycle`unfinished
      ensures pendingOutboundCalls == old(pendingOutboundCalls) - {attempt}
      ensures lifecycle.Model() == Track(old(lifecycle.Model()), [Ends(GatewayLifecycle.AttemptWork(attempt))])
    {
      pendingOutboundCalls := pendingOutboundCalls - {attempt};
      FinishTracked(lifecycle, GatewayLifecycle.AttemptWork(attempt));
    }

    /** createUAC has failed. */
    method UacFailed(attempt: AttemptId)
      requires Valid() && attempt in pendingOutboundCalls && !pendingOutboundCalls[attempt].hanging
      modifies this`pendingOutboundCalls, lifecycle`pendingOperations, lifecycle`unfinished
      ensures Valid() && Took(EUacFails(attempt))
    {
      LeaveAttempt(attempt);
      Keeps(EUacFails(attempt));
    }

    /** A wanted outbound dialog becomes a call under the first free id. */
    method ActivateAttempt(attempt: AttemptId, dialog: RecordId, sipCallId: string, uuid: string) returns (callId: CallId)
      requires lifecycle.Valid() && attempt in pendingOutboundCalls
      modifies this`pendingOutboundCalls, this`records, registry, lifecycle`pendingOperations, lifecycle`unfinished
      ensures CallRegistry.Reserves(CallIds.NormalizeCallId(sipCallId, uuid), old(Taken(Model())), callId)
      ensures Model() == Connected(old(Model()), attempt, dialog, callId)
      ensures lifecycle.Model() == Track(old(lifecycle.Model()), [Ends(GatewayLifecycle.AttemptWork(attempt))])
    {
      callId := registry.ReserveCallId(sipCallId, uuid);
      registry.Activate(callId, dialog);
      records := records[dialog := CallInfo(callId, pendingOutboundCalls[attempt].owner, Some(pendingOutboundCalls[attempt].serial))];
      LeaveAttempt(attempt);
      assert registry.reservations == old(registry.reservations) - {callId};
    }

    method HangUpAttempt(attempt: AttemptId)
      requires attempt in pendingOutboundCalls
      modifies this`pendingOutboundCalls
      ensures var s := old(Model()); Model() == s.(outbound := s.outbound[attempt := s.outbound[attempt].(hanging := true)])
    {
      pendingOutboundCalls := pendingOutboundCalls[attempt := pendingOutboundCalls[attempt].(hanging := true)];
    }

    method KeepDialog(attempt: AttemptId, dialog: RecordId, sipCallId: string, uuid: string) returns (callId: CallId)
      requires Valid() && !lifecycle.isStopping && attempt in pendingOutboundCalls && dialog !in records
      requires !pendingOutboundCalls[attempt].hanging && !pendingOutboundCalls[attempt].cancelled
      modifies this`pendingOutboundCalls, this`records, registry, lifecycle`pendingOperations, lifecycle`unfinished
      ensures Valid() && Took(EUac(attempt, dialog, sipCallId, uuid, callId))
      ensures dialog in records && records[dialog].owner == old(pendingOutboundCalls)[attempt].owner
      ensures callId in Model().calls && Model().calls[callId] == dialog && callId !in old(Taken(Model()))
    {
      callId := ActivateAttempt(attempt, dialog, sipCallId, uuid);
      CallRegistry.FreeIsFree(sipCallId, uuid, old(Taken(Model())), callId);
      Keeps(EUac(attempt, dialog, sipCallId, uuid, callId));
    }

    /** createUAC has answered with a new dialog: it is kept unless the attempt was cancelled or the gateway stops. */
    method UacReturned(attempt: AttemptId, dialog: RecordId, sipCallId: string, uuid: string) returns (id: Option<CallId>)
      requires Valid() && attempt in pendingOutboundCalls && !pendingOutboundCalls[attempt].hanging && dialog !in records
      modifies this`pendingOutboundCalls, this`records, registry, lifecycle`pendingOperations, lifecycle`unfinished
      ensures Valid() && Took(EUac(attempt, dialog, sipCallId, uuid, if id.Some? then id.value else ""))
      ensures id.None? <==> old(pendingOutboundCalls)[attempt].cancelled || lifecycle.isStopping
      ensures id.Some? ==> id.value in Model().calls && Model().calls[id.value] == dialog && id.value !in old(Taken(Model()))
      ensures id.Some? ==> dialog in records && records[dialog].owner == old(pendingOutboundCalls)[attempt].owner
    {
      if pendingOutboundCalls[attempt].cancelled || lifecycle.isStopping {
        HangUpAttempt(attempt);
        Keeps(EUac(attempt, dialog, sipCallId, uuid, ""));
        return None;
      }
      var callId := KeepDialog(attempt, dialog, sipCallId, uuid);
      return Some(callId);
    }

    method LateDialogDestroyed(attempt: AttemptId)
      requires Valid() && attempt in pendingOutboundCalls && pendingOutboundCalls[attempt].hanging
      modifies this`pendingOutboundCalls, lifecycle`pendingOperations, lifecycle`unfinished
      ensures Valid() && Took(EHungUp(attempt))
    {
      LeaveAttempt(attempt);
      Keeps(EHungUp(attempt));
    }

    // ----- the end of a call

    method Bye(op: OpId, id: CallId) returns (found: bool)
      requires Valid() && op !in byes
      modifies this`byes
      ensures Valid() && Took(EBye(op, id))
      ensures found <==> id in registry.calls
    {
      if id !in registry.calls { return false; }
      byes := byes[op := (id, registry.calls[id])];
      Keeps(EBye(op, id));
      return true;
    }

    /** What follows a dialog.destroy of bye: the registry entry goes and its record is reported. */
    method EndCall(id: CallId, kind: NoticeKind)
      modifies this`notices, registry
      ensures Model() == RemoveAndTell(old(Model()), id, kind)
    {
      var removed := registry.Remove(id);
      if removed.Some? {
        notices := notices + [Notice(removed.value, kind)];
      } else {
        assert registry.calls == old(registry.calls);
      }
    }

    /** What bye does after its await, for the call that it captured before. */
    method FinishBye(id: CallId, ghost captured: RecordId, ok: bool)
      modifies this`notices, this`byeFailed, registry
      ensures Model() == ByeDone(old(Model()), id, captured, ok)
    {
      if ok { EndCall(id, Terminated); } else { byeFailed := byeFailed + {captured}; }
    }

    method ByeReturned(op: OpId, ok: bool)
      requires Valid() && op in byes
      modifies this`byes, this`notices, this`byeFailed, registry
      ensures Valid() && Took(EByeReturns(op, ok))
      ensures if ok then old(byes)[op].0 !in registry.calls else registry.calls == old(registry.calls) && notices == old(notices)
    {
      var (id, captured) := byes[op];
      byes := byes - {op};
      FinishBye(id, captured, ok);
      Keeps(EByeReturns(op, ok));
    }

    /** The destroy event of a dialog. */
    method OnDestroy(record: RecordId, byBye: bool)
      requires Valid() && record in records
      modifies this`notices, registry
      ensures Valid() && Took(ERemoteDestroys(record, byBye))
    {
      EndCall(records[record].callId, if byBye then NoticeKind.Bye else Terminated);
      Keeps(ERemoteDestroys(record, byBye));
    }

    // ----- owner disconnect

    method CancelEach(owner: Option<ConnectionId>, all: bool)
      modifies this`pendingOutboundCalls, this`cancelledSerials
      ensures pendingOutboundCalls == Kept(old(pendingOutboundCalls), owner, all, {})
      ensures cancelledSerials == old(cancelledSerials) + SerialsOf(old(pendingOutboundCalls), owner, all, {})
    {
      ghost var before := pendingOutboundCalls;
      KeptNone(before, owner, all);
      var todo := pendingOutboundCalls.Keys;
      while todo != {}
        invariant todo <= before.Keys && pendingOutboundCalls == Kept(before, owner, all, todo)
        invariant cancelledSerials == old(cancelledSerials) + SerialsOf(before, owner, all, todo)
        decreases |todo|
      {
        var a := AnyOf(todo);
        KeptOneMore(before, owner, all, todo, a);
        SerialsOneMore(before, owner, all, todo, a);
        todo := todo - {a};
        if all || pendingOutboundCalls[a].owner == owner {
          MarkCancelled(a);
        }
      }
    }

    /** The filtered calls leave the registry. */
    method RemoveOwned(connection: ConnectionId)
      requires forall id :: id in registry.calls ==> registry.calls[id] in records
      modifies this`ending, registry
      ensures var gone := OwnedIds(old(registry.calls), records, connection);
              && registry.calls == old(registry.calls) - gone && registry.reservations == old(registry.reservations)
              && ending == old(ending) + RecordsOf(old(registry.calls), gone)
    {
      ghost var before := registry.calls;
      var todo := OwnedIds(registry.calls, records, connection);
      ghost var done: set<CallId> := {};
      while todo != {}
        invariant done !! todo && done + todo == OwnedIds(before, records, connection)
        invariant registry.reservations == old(registry.reservations) && registry.calls == before - done
        invariant ending == old(ending) + RecordsOf(before, done)
        decreases |todo|
      {
        var id := AnyOf(todo);
        RecordsOneMore(before, done, id);
        todo := todo - {id};
        done := done + {id};
        var removed := registry.Remove(id);
        ending := ending + {removed.value};
      }
    }

    /** Cancel the owner's attempts and take its calls out of the registry. */
    method TakeCalls(connection: ConnectionId)
      requires forall id :: id in registry.calls ==> registry.calls[id] in records
      modifies this`pendingOutboundCalls, this`cancelledSerials, this`ending, this`lost, registry
      ensures Model() == OwnerLeft(old(Model()), connection)
    {
      lost := lost + {connection};
      KeptAll(old(Model()), Some(connection), false);
      CancelEach(Some(connection), false);
      RemoveOwned(connection);
      OwnedGone(old(Model()), connection);
    }

    /** The synchronous part of the clean-up after a lost owner; its dialogs are being destroyed from here on. */
    method TerminateCallsForControlConnection(connection: ConnectionId)
      requires Valid()
      modifies this`pendingOutboundCalls, this`cancelledSerials, this`ending, this`lost, registry
      ensures Valid() && Took(EOwnerLeft(connection))
    {
      TakeCalls(connection);
      Keeps(EOwnerLeft(connection));
    }

    method DialogEnded(record: RecordId, ok: bool)
      requires Valid() && record in ending
      modifies this`ending, this`notices
      ensures Valid() && Took(EEnding(record, ok))
    {
      ending := ending - {record};
      if ok { notices := notices + [Notice(record, Terminated)]; }
      Keeps(EEnding(record, ok));
    }

    // ----- shutdown

    /** The reservations of the handlers still under way are released. */
    method ReleaseEach()
      modifies registry
      ensures registry.calls == old(registry.calls)
      ensures registry.reservations == old(registry.reservations) - pendingInboundCalls.Keys
    {
      var todo := pendingInboundCalls.Keys;
      while todo != {}
        invariant todo <= pendingInboundCalls.Keys && registry.calls == old(registry.calls)
        invariant registry.reservations == old(registry.reservations) - (pendingInboundCalls.Keys - todo)
        decreases |todo|
      {
        var id := AnyOf(todo);
        todo := todo - {id};
        registry.ReleaseReservation(id);
      }
      assert pendingInboundCalls.Keys - {} == pendingInboundCalls.Keys;
    }

    /** The stop hook up to its await; the lifecycle calls it as soon as it is stopping. */
    method Shutdown()
      requires StopsNow(lifecycle.Model(), Model())
      modifies this`pendingOutboundCalls, this`cancelledSerials, this`closing, this`closingOut, registry
      ensures Valid() && Model() == Step(old(Model()).(stopping := false), EStop)
    {
      StopKeeps(lifecycle.Model(), Model());
      KeptAll(Model(), None, true);
      ReleaseEach();
      CancelEach(None, true);
      closingOut := pendingOutboundCalls.Keys;
      closing := registry.calls;
      assert Model() == ShutdownBegins(old(Model()));
    }

    method ShutdownByeReturned(id: CallId, ok: bool)
      requires Valid() && id in closing
      modifies this`closing, this`notices, this`byeFailed, registry
      ensures Valid() && Took(EShutdownBye(id, ok))
    {
      var captured := closing[id];
      closing := closing - {id};
      FinishBye(id, captured, ok);
      Keeps(EShutdownBye(id, ok));
    }

    /** The completion promise of an attempt that shutdown waits for. */
    method AttemptCompleted(attempt: AttemptId)
      requires Valid() && attempt in closingOut && attempt !in pendingOutboundCalls
      modifies this`closingOut
      ensures Valid() && Took(ESettled(attempt))
    {
      closingOut := closingOut - {attempt};
      Keeps(ESettled(attempt));
    }
  }
}
