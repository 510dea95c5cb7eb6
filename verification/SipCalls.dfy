/** Every interleaving of SIP call setup and teardown (src/drachtio-gateway.ts with the call registry):
    INVITE handlers and outbound attempts split at their awaits, local BYE, remote destroy, owner
    disconnect, draining and shutdown. */
module SipCalls {
  import opened Prelude
  import CallIds
  import opened CallRegistry

  type AttemptId = int

  /** `origin` is the serial number of the outbound attempt a call came from. */
  datatype CallInfo = CallInfo(callId: CallId, owner: Option<ConnectionId>, origin: Option<nat>)

  datatype InvitePhase = Asking | Answering | Unwinding

  datatype Invite = Invite(owner: Option<ConnectionId>, phase: InvitePhase)

  /** A pending outbound attempt; `hanging` once its dialog came too late and is being destroyed. */
  datatype Attempt = Attempt(owner: Option<ConnectionId>, cancelled: bool, hanging: bool, serial: nat)

  datatype NoticeKind = Bye | Terminated

  datatype Notice = Notice(record: RecordId, kind: NoticeKind)

  /** `records` are all calls ever activated, `inbound` the unfinished INVITE handlers, `byes` the local
      BYEs in flight with the call they captured, `ending` the dialogs of a lost owner being destroyed,
      `closing` and `closingOut` what a shutdown still waits for, `lost` the connections that are gone. */
  datatype Sip = Sip(calls: map<CallId, RecordId>, records: map<RecordId, CallInfo>, reservations: set<CallId>,
                     inbound: map<CallId, Invite>, outbound: map<AttemptId, Attempt>, serials: nat, cancelledSerials: set<nat>,
                     byes: map<OpId, (CallId, RecordId)>, ending: set<RecordId>, notices: seq<Notice>,
                     byeFailed: set<RecordId>, draining: bool, stopping: bool,
                     closing: map<CallId, RecordId>, closingOut: set<AttemptId>, lost: set<ConnectionId>)

  const INIT := Sip(map[], map[], {}, map[], map[], 0, {}, map[], {}, [], {}, false, false, map[], {}, {})

  datatype Action = Answer | Reject | Failure

  datatype Event =
    | EInvite(id: CallId, sipCallId: string, uuid: string, owner: Option<ConnectionId>, routed: bool)
    | EAction(id: CallId, action: Action)
    | EUas(id: CallId, dialog: Option<RecordId>)
    | EUnwound(id: CallId)
    | ECreate(attempt: AttemptId, owner: Option<ConnectionId>)
    | ECancel(attempt: AttemptId, owner: Option<ConnectionId>)
    | EUacFails(attempt: AttemptId)
    | EUac(attempt: AttemptId, record: RecordId, sipCallId: string, uuid: string, id: CallId)
    | EHungUp(attempt: AttemptId)
    | EBye(op: OpId, id: CallId)
    | EByeReturns(op: OpId, ok: bool)
    | ERemoteDestroys(record: RecordId, byBye: bool)
    | EOwnerLeft(connection: ConnectionId)
    | EEnding(record: RecordId, ok: bool)
    | EDrain
    | EStop
    | EShutdownBye(id: CallId, ok: bool)
    | ESettled(attempt: AttemptId)

  // ----- synchronous pieces

  function Taken(s: Sip): set<CallId> {
    s.calls.Keys + s.reservations
  }

  function Activate(s: Sip, id: CallId, r: RecordId, info: CallInfo): Sip {
    s.(calls := s.calls[id := r], records := s.records[r := info], reservations := s.reservations - {id})
  }

  /** registry.remove and the notice that goes with it, if there was a call under that id. */
  function RemoveAndTell(s: Sip, id: CallId, kind: NoticeKind): Sip {
    if id in s.calls then s.(calls := s.calls - {id}, notices := s.notices + [Notice(s.calls[id], kind)]) else s
  }

  /** The error path of an INVITE handler up to its first await. */
  function FailInvite(s: Sip, id: CallId): Sip {
    s.(calls := s.calls - {id}, reservations := s.reservations - {id})
  }

  function FinishInvite(s: Sip, id: CallId): Sip {
    s.(inbound := s.inbound - {id})
  }

  function CancelWhere(s: Sip, owner: Option<ConnectionId>, all: bool): Sip {
    s.(outbound := map a | a in s.outbound ::
      if all || s.outbound[a].owner == owner then s.outbound[a].(cancelled := true) else s.outbound[a],
      cancelledSerials := s.cancelledSerials + set a | a in s.outbound && (all || s.outbound[a].owner == owner) :: s.outbound[a].serial)
  }

  function OwnedCalls(s: Sip, connection: ConnectionId): set<CallId> {
    set id | id in s.calls && s.calls[id] in s.records && s.records[s.calls[id]].owner == Some(connection)
  }

  function ByeDone(s: Sip, id: CallId, captured: RecordId, ok: bool): Sip {
    if ok then RemoveAndTell(s, id, Terminated) else s.(byeFailed := s.byeFailed + {captured})
  }

  // ----- one step each

  ghost function InviteArrives(s: Sip, id: CallId, sipCallId: string, uuid: string, owner: Option<ConnectionId>, routed: bool): Sip {
    if s.draining || !routed || !Reserves(CallIds.NormalizeCallId(sipCallId, uuid), Taken(s), id) then s
    else s.(reservations := s.reservations + {id}, inbound := s.inbound[id := Invite(owner, Asking)])
  }

  predicate OwnerLost(s: Sip, owner: Option<ConnectionId>) {
    owner.Some? && owner.value in s.lost
  }

  /** The handler can go on with the action. The hub rejects what it asked of a connection before it tells of the
      loss, so a handler that waits for a lost owner can only fail. */
  predicate GoesOnWith(s: Sip, id: CallId, action: Action) {
    id in s.inbound && s.inbound[id].phase.Asking? && (OwnerLost(s, s.inbound[id].owner) ==> action.Failure?)
  }

  function ActionArrives(s: Sip, id: CallId, action: Action): Sip {
    if !GoesOnWith(s, id, action) then s
    else if s.stopping || action.Failure? then FinishInvite(FailInvite(s, id), id)
    else if action.Reject? then FinishInvite(s.(reservations := s.reservations - {id}), id)
    else s.(inbound := s.inbound[id := s.inbound[id].(phase := Answering)])
  }

  function UasReturns(s: Sip, id: CallId, dialog: Option<RecordId>): Sip {
    if id !in s.inbound || !s.inbound[id].phase.Answering? || (dialog.Some? && dialog.value in s.records) then s
    else if dialog.None? then FinishInvite(FailInvite(s, id), id)
    else if s.stopping then FailInvite(s, id).(inbound := s.inbound[id := s.inbound[id].(phase := Unwinding)])
    else FinishInvite(Activate(s, id, dialog.value, CallInfo(id, s.inbound[id].owner, None)), id)
  }

  function InviteUnwound(s: Sip, id: CallId): Sip {
    if id !in s.inbound || !s.inbound[id].phase.Unwinding? then s else FinishInvite(s, id)
  }

  function CreateOutbound(s: Sip, a: AttemptId, owner: Option<ConnectionId>): Sip {
    if s.draining || a in s.outbound then s
    else s.(outbound := s.outbound[a := Attempt(owner, false, false, s.serials)], serials := s.serials + 1)
  }

  function CancelOutbound(s: Sip, a: AttemptId, owner: Option<ConnectionId>): Sip {
    if a !in s.outbound || s.outbound[a].owner != owner then s
    else s.(outbound := s.outbound[a := s.outbound[a].(cancelled := true)],
         cancelledSerials := s.cancelledSerials + {s.outbound[a].serial})
  }

  function UacFails(s: Sip, a: AttemptId): Sip {
    if a !in s.outbound || s.outbound[a].hanging then s else s.(outbound := s.outbound - {a})
  }

  /** An outbound dialog that is kept: its attempt turns into a call. */
  function Connected(s: Sip, a: AttemptId, r: RecordId, id: CallId): Sip
    requires a in s.outbound
  {
    Activate(s, id, r, CallInfo(id, s.outbound[a].owner, Some(s.outbound[a].serial))).(outbound := s.outbound - {a})
  }

  ghost function UacReturns(s: Sip, a: AttemptId, r: RecordId, sipCallId: string, uuid: string, id: CallId): Sip {
    if a !in s.outbound || s.outbound[a].hanging || r in s.records then s
    else if s.outbound[a].cancelled || s.stopping then s.(outbound := s.outbound[a := s.outbound[a].(hanging := true)])
    else if !Reserves(CallIds.NormalizeCallId(sipCallId, uuid), Taken(s), id) then s
    else Connected(s, a, r, id)
  }

  function HungUp(s: Sip, a: AttemptId): Sip {
    if a !in s.outbound || !s.outbound[a].hanging then s else s.(outbound := s.outbound - {a})
  }

  function BeginBye(s: Sip, op: OpId, id: CallId): Sip {
    if op in s.byes || id !in s.calls then s else s.(byes := s.byes[op := (id, s.calls[id])])
  }

  function ByeReturns(s: Sip, op: OpId, ok: bool): Sip {
    if op !in s.byes then s else ByeDone(s, s.byes[op].0, s.byes[op].1, ok).(byes := s.byes - {op})
  }

  function RemoteDestroys(s: Sip, r: RecordId, byBye: bool): Sip {
    if r !in s.records then s else RemoveAndTell(s, s.records[r].callId, if byBye then Bye else Terminated)
  }

  function OwnerLeft(s: Sip, connection: ConnectionId): Sip {
    var gone := OwnedCalls(s, connection);
    CancelWhere(s, Some(connection), false)
    .(calls := s.calls - gone, ending := s.ending + (set id | id in gone :: s.calls[id]), lost := s.lost + {connection})
  }

  function EndingReturns(s: Sip, r: RecordId, ok: bool): Sip {
    if r !in s.ending then s
    else s.(ending := s.ending - {r}, notices := if ok then s.notices + [Notice(r, Terminated)] else s.notices)
  }

  /** The stop hook of the gateway up to its await: it releases the reservations, cancels the attempts and
      starts a BYE for every call; what it has to wait for is `closing` and `closingOut`. */
  function ShutdownBegins(s: Sip): Sip {
    CancelWhere(s, None, true).(reservations := s.reservations - s.inbound.Keys, closing := s.calls, closingOut := s.outbound.Keys)
  }

  /** The gateway stops only while draining, and runs the hook at once. */
  function Stop(s: Sip): Sip {
    if s.stopping || !s.draining then s else ShutdownBegins(s.(stopping := true))
  }

  function ShutdownByeReturns(s: Sip, id: CallId, ok: bool): Sip {
    if id !in s.closing then s else ByeDone(s, id, s.closing[id], ok).(closing := s.closing - {id})
  }

  function OutboundSettled(s: Sip, a: AttemptId): Sip {
    if a !in s.closingOut || a in s.outbound then s else s.(closingOut := s.closingOut - {a})
  }

  ghost function Step(s: Sip, e: Event): Sip {
    match e
    case EInvite(id, sipCallId, uuid, owner, routed) => InviteArrives(s, id, sipCallId, uuid, owner, routed)
    case EAction(id, action) => ActionArrives(s, id, action)
    case EUas(id, dialog) => UasReturns(s, id, dialog)
    case EUnwound(id) => InviteUnwound(s, id)
    case ECreate(a, owner) => CreateOutbound(s, a, owner)
    case ECancel(a, owner) => CancelOutbound(s, a, owner)
    case EUacFails(a) => UacFails(s, a)
    case EUac(a, r, sipCallId, uuid, id) => UacReturns(s, a, r, sipCallId, uuid, id)
    case EHungUp(a) => HungUp(s, a)
    case EBye(op, id) => BeginBye(s, op, id)
    case EByeReturns(op, ok) => ByeReturns(s, op, ok)
    case ERemoteDestroys(r, byBye) => RemoteDestroys(s, r, byBye)
    case EOwnerLeft(connection) => OwnerLeft(s, connection)
    case EEnding(r, ok) => EndingReturns(s, r, ok)
    case EDrain => s.(draining := true)
    case EStop => Stop(s)
    case EShutdownBye(id, ok) => ShutdownByeReturns(s, id, ok)
    case ESettled(a) => OutboundSettled(s, a)
  }

  ghost function StateAfter(events: seq<Event>): Sip {
    if events == [] then INIT else Step(StateAfter(events[..|events| - 1]), events[|events| - 1])
  }

  lemma RunSnoc(events: seq<Event>, e: Event)
    ensures StateAfter(events + [e]) == Step(StateAfter(events), e)
  {
    assert (events + [e])[..|events|] == events;
  }

  /** The last step of a continuation. */
  lemma RunSplit(events: seq<Event>, more: seq<Event>)
    requires more != []
    ensures var init, last := more[..|more| - 1], more[|more| - 1];
            StateAfter(events + more) == Step(StateAfter(events + init), last)
  {
    var init, last := more[..|more| - 1], more[|more| - 1];
    assert events + more == (events + init) + [last];
    RunSnoc(events + init, last);
  }

  // ----- invariants

  /** Calls and reservations never share an id, and a reservation belongs to an unfinished handler. */
  ghost predicate IdsOk(s: Sip) {
    && s.calls.Keys !! s.inbound.Keys && s.reservations <= s.inbound.Keys
    && (if s.stopping then s.reservations == {} else s.reservations == s.inbound.Keys)
    && (s.stopping ==> s.draining)
    && (forall id :: id in s.inbound && s.inbound[id].phase.Unwinding? ==> s.stopping)
  }

  predicate Active(s: Sip, r: RecordId) {
    r in s.records && s.records[r].callId in s.calls && s.calls[s.records[r].callId] == r
  }

  /** A call leaves the registry once, and its notice comes only after that. */
  ghost predicate NoticesOk(s: Sip) {
    && (forall id :: id in s.calls ==> s.calls[id] in s.records && s.records[s.calls[id]].callId == id)
    && (forall i, j :: 0 <= i < j < |s.notices| ==> s.notices[i].record != s.notices[j].record)
    && (forall n :: n in s.notices ==> n.record in s.records && n.record !in s.ending && !Active(s, n.record))
    && (forall r :: r in s.ending ==> r in s.records && !Active(s, r))
  }

  /** A cancelled attempt is cancelled for good: no call comes from it. */
  ghost predicate AttemptsOk(s: Sip) {
    && (forall a :: a in s.outbound ==> s.outbound[a].serial < s.serials)
    && (forall a, b :: a in s.outbound && b in s.outbound && s.outbound[a].serial == s.outbound[b].serial ==> a == b)
    && (forall a :: a in s.outbound ==> (s.outbound[a].cancelled <==> s.outbound[a].serial in s.cancelledSerials))
    && (forall n :: n in s.cancelledSerials ==> n < s.serials)
    && (forall r :: r in s.records && s.records[r].origin.Some? ==>
                      && s.records[r].origin.value < s.serials && s.records[r].origin.value !in s.cancelledSerials
                      && forall a :: a in s.outbound ==> s.outbound[a].serial != s.records[r].origin.value)
  }

  /** What a shutdown still has to wait for covers what is left. */
  ghost predicate ClosingOk(s: Sip) {
    s.stopping ==>
      && (forall id :: id in s.calls ==> (id in s.closing && s.closing[id] == s.calls[id]) || s.calls[id] in s.byeFailed)
      && (forall a :: a in s.outbound ==> a in s.closingOut)
  }

  ghost predicate Inv(s: Sip) {
    IdsOk(s) && NoticesOk(s) && AttemptsOk(s) && ClosingOk(s)
  }

  lemma ReservedIsFree(base: string, taken: set<CallId>, id: CallId)
    requires Reserves(base, taken, id)
    ensures id !in taken
  {
  }

  lemma HandlersHold(s: Sip, id: CallId)
    requires Inv(s) && !s.draining && id !in Taken(s)
    ensures id !in s.inbound
  {
    assert id !in s.inbound.Keys;
  }

  // ----- notices

  predicate CallsWithin(s: Sip, s': Sip) {
    && s'.records == s.records && s'.notices == s.notices && s'.ending == s.ending
    && (forall id | id in s'.calls :: id in s.calls && s'.calls[id] == s.calls[id])
  }

  lemma NoticesCarry(s: Sip, s': Sip)
    requires NoticesOk(s) && CallsWithin(s, s')
    ensures NoticesOk(s')
  {
    assert forall r :: Active(s', r) ==> Active(s, r);
  }

  lemma NoticesActivate(s: Sip, id: CallId, r: RecordId, info: CallInfo)
    requires NoticesOk(s) && r !in s.records && id !in s.calls && info.callId == id
    ensures NoticesOk(Activate(s, id, r, info))
  {
    var s' := Activate(s, id, r, info);
    assert forall x :: x in s.records ==> (Active(s', x) <==> Active(s, x));
  }

  lemma NoticesTell(s: Sip, id: CallId, kind: NoticeKind)
    requires NoticesOk(s)
    ensures NoticesOk(RemoveAndTell(s, id, kind))
  {
    if id in s.calls {
      var s' := RemoveAndTell(s, id, kind);
      assert Active(s, s.calls[id]);
      assert forall x :: Active(s', x) <==> Active(s, x) && x != s.calls[id];
      assert forall n :: n in s'.notices <==> n in s.notices || n == Notice(s.calls[id], kind);
    }
  }

  // ----- attempts

  predicate AttemptsWithin(s: Sip, s': Sip) {
    && s'.serials == s.serials && s'.cancelledSerials == s.cancelledSerials
    && (forall a | a in s'.outbound :: a in s.outbound && s'.outbound[a].serial == s.outbound[a].serial
                                       && s'.outbound[a].cancelled == s.outbound[a].cancelled)
    && (forall r | r in s'.records :: s'.records[r].origin.Some? ==> r in s.records && s'.records[r].origin == s.records[r].origin)
  }

  lemma AttemptsCarry(s: Sip, s': Sip)
    requires AttemptsOk(s) && AttemptsWithin(s, s')
    ensures AttemptsOk(s')
  {
  }

  lemma AttemptsCancel(s: Sip, owner: Option<ConnectionId>, all: bool)
    requires AttemptsOk(s)
    ensures AttemptsOk(CancelWhere(s, owner, all))
  {
    var s' := CancelWhere(s, owner, all);
    forall n | n in s'.cancelledSerials
      ensures n in s.cancelledSerials || exists a :: a in s.outbound && s.outbound[a].serial == n && s'.outbound[a].cancelled
    {
    }
  }

  // ----- ids and closing

  lemma IdsCarry(s: Sip, s': Sip)
    requires IdsOk(s) && s'.calls.Keys <= s.calls.Keys
    requires s'.inbound == s.inbound && s'.reservations == s.reservations && s'.stopping == s.stopping
    requires s.draining ==> s'.draining
    ensures IdsOk(s')
  {
  }

  lemma ClosingCarry(s: Sip, s': Sip)
    requires ClosingOk(s) && s'.stopping == s.stopping && s'.closing == s.closing && s'.closingOut == s.closingOut
    requires s'.byeFailed == s.byeFailed && s'.outbound.Keys <= s.outbound.Keys
    requires forall id | id in s'.calls :: id in s.calls && s'.calls[id] == s.calls[id]
    ensures ClosingOk(s')
  {
    assert forall a :: a in s'.outbound ==> a in s'.outbound.Keys;
  }

  /** Steps that take calls or attempts away and touch nothing else that the invariants speak of. */
  lemma Carry(s: Sip, s': Sip)
    requires Inv(s) && CallsWithin(s, s') && AttemptsWithin(s, s')
    requires s'.inbound == s.inbound && s'.reservations == s.reservations && s'.stopping == s.stopping
    requires s.draining ==> s'.draining
    requires s'.closing == s.closing && s'.closingOut == s.closingOut && s'.byeFailed == s.byeFailed
    requires s'.outbound.Keys <= s.outbound.Keys
    ensures Inv(s')
  {
    NoticesCarry(s, s');
    AttemptsCarry(s, s');
    IdsCarry(s, s');
    ClosingCarry(s, s');
  }

  // ----- each step keeps the invariants

  lemma InviteInv(s: Sip, id: CallId, sipCallId: string, uuid: string, owner: Option<ConnectionId>, routed: bool)
    requires Inv(s)
    ensures Inv(InviteArrives(s, id, sipCallId, uuid, owner, routed))
  {
    var s' := InviteArrives(s, id, sipCallId, uuid, owner, routed);
    if s' != s { ReservedIsFree(CallIds.NormalizeCallId(sipCallId, uuid), Taken(s), id); }
    NoticesCarry(s, s');
    AttemptsCarry(s, s');
  }

  lemma ActionInv(s: Sip, id: CallId, action: Action)
    requires Inv(s)
    ensures Inv(ActionArrives(s, id, action))
  {
    var s' := ActionArrives(s, id, action);
    if s' == s { return; }
    NoticesCarry(s, s');
    AttemptsCarry(s, s');
  }

  lemma AnsweredInv(s: Sip, id: CallId, r: RecordId)
    requires Inv(s) && !s.stopping && id in s.inbound && r !in s.records
    ensures Inv(FinishInvite(Activate(s, id, r, CallInfo(id, s.inbound[id].owner, None)), id))
  {
    var info := CallInfo(id, s.inbound[id].owner, None);
    var s1 := Activate(s, id, r, info);
    var s' := FinishInvite(s1, id);
    assert id !in s.calls.Keys;
    NoticesActivate(s, id, r, info);
    NoticesCarry(s1, s');
    AttemptsCarry(s, s');
  }

  lemma UasInv(s: Sip, id: CallId, dialog: Option<RecordId>)
    requires Inv(s)
    ensures Inv(UasReturns(s, id, dialog))
  {
    var s' := UasReturns(s, id, dialog);
    if s' == s { return; }
    if s'.records != s.records {
      AnsweredInv(s, id, dialog.value);
      return;
    }
    NoticesCarry(s, s');
    AttemptsCarry(s, s');
  }

  lemma UnwoundInv(s: Sip, id: CallId)
    requires Inv(s)
    ensures Inv(InviteUnwound(s, id))
  {
    var s' := InviteUnwound(s, id);
    NoticesCarry(s, s');
    AttemptsCarry(s, s');
  }

  lemma CreateInv(s: Sip, a: AttemptId, owner: Option<ConnectionId>)
    requires Inv(s)
    ensures Inv(CreateOutbound(s, a, owner))
  {
    if !s.draining && a !in s.outbound { NoticesCarry(s, CreateOutbound(s, a, owner)); }
  }

  lemma CancelInv(s: Sip, a: AttemptId, owner: Option<ConnectionId>)
    requires Inv(s)
    ensures Inv(CancelOutbound(s, a, owner))
  {
    if CancelOutbound(s, a, owner) != s { NoticesCarry(s, CancelOutbound(s, a, owner)); }
  }

  lemma UacFailsInv(s: Sip, a: AttemptId)
    requires Inv(s)
    ensures Inv(UacFails(s, a))
  {
    var s' := UacFails(s, a);
    if s' != s { Carry(s, s'); }
  }

  lemma AttemptBecomesCall(s: Sip, a: AttemptId, r: RecordId, id: CallId)
    requires AttemptsOk(s) && a in s.outbound && !s.outbound[a].cancelled && r !in s.records
    ensures AttemptsOk(Connected(s, a, r, id))
  {
  }

  lemma ConnectedInv(s: Sip, a: AttemptId, r: RecordId, id: CallId)
    requires Inv(s) && !s.stopping && a in s.outbound && !s.outbound[a].cancelled && r !in s.records && id !in Taken(s)
    ensures Inv(Connected(s, a, r, id))
  {
    var s' := Connected(s, a, r, id);
    var info := CallInfo(id, s.outbound[a].owner, Some(s.outbound[a].serial));
    NoticesActivate(s, id, r, info);
    NoticesCarry(Activate(s, id, r, info), s');
    AttemptBecomesCall(s, a, r, id);
  }

  lemma HangingInv(s: Sip, a: AttemptId)
    requires Inv(s) && a in s.outbound
    ensures Inv(s.(outbound := s.outbound[a := s.outbound[a].(hanging := true)]))
  {
    var s' := s.(outbound := s.outbound[a := s.outbound[a].(hanging := true)]);
    Carry(s, s');
  }

  lemma UacInv(s: Sip, a: AttemptId, r: RecordId, sipCallId: string, uuid: string, id: CallId)
    requires Inv(s)
    ensures Inv(UacReturns(s, a, r, sipCallId, uuid, id))
  {
    var s' := UacReturns(s, a, r, sipCallId, uuid, id);
    if s'.records != s.records {
      ReservedIsFree(CallIds.NormalizeCallId(sipCallId, uuid), Taken(s), id);
      ConnectedInv(s, a, r, id);
    } else if s' != s {
      HangingInv(s, a);
    }
  }

  lemma HungUpInv(s: Sip, a: AttemptId)
    requires Inv(s)
    ensures Inv(HungUp(s, a))
  {
    var s' := HungUp(s, a);
    if s' != s { Carry(s, s'); }
  }

  lemma BeginByeInv(s: Sip, op: OpId, id: CallId)
    requires Inv(s)
    ensures Inv(BeginBye(s, op, id))
  {
    var s' := BeginBye(s, op, id);
    if s' != s { Carry(s, s'); }
  }

  lemma ByeDoneInv(s: Sip, id: CallId, captured: RecordId, ok: bool)
    requires Inv(s)
    ensures Inv(ByeDone(s, id, captured, ok))
  {
    var s' := ByeDone(s, id, captured, ok);
    if ok {
      NoticesTell(s, id, Terminated);
    } else {
      NoticesCarry(s, s');
    }
    AttemptsCarry(s, s');
  }

  lemma ByeReturnsInv(s: Sip, op: OpId, ok: bool)
    requires Inv(s)
    ensures Inv(ByeReturns(s, op, ok))
  {
    if op in s.byes {
      var s1 := ByeDone(s, s.byes[op].0, s.byes[op].1, ok);
      ByeDoneInv(s, s.byes[op].0, s.byes[op].1, ok);
      NoticesCarry(s1, ByeReturns(s, op, ok));
      AttemptsCarry(s1, ByeReturns(s, op, ok));
    }
  }

  lemma RemoteInv(s: Sip, r: RecordId, byBye: bool)
    requires Inv(s)
    ensures Inv(RemoteDestroys(s, r, byBye))
  {
    if r in s.records && s.records[r].callId in s.calls {
      NoticesTell(s, s.records[r].callId, if byBye then Bye else Terminated);
      AttemptsCarry(s, RemoteDestroys(s, r, byBye));
    }
  }

  lemma OwnerLeftNotices(s: Sip, connection: ConnectionId)
    requires NoticesOk(s)
    ensures NoticesOk(OwnerLeft(s, connection))
  {
    var s' := OwnerLeft(s, connection);
    assert forall id :: id in s.calls ==> Active(s, s.calls[id]);
    assert forall x :: Active(s', x) ==> Active(s, x) && x !in s'.ending;
  }

  lemma OwnerLeftInv(s: Sip, connection: ConnectionId)
    requires Inv(s)
    ensures Inv(OwnerLeft(s, connection))
  {
    OwnerLeftNotices(s, connection);
    AttemptsCancel(s, Some(connection), false);
    AttemptsCarry(CancelWhere(s, Some(connection), false), OwnerLeft(s, connection));
  }

  lemma EndingNotices(s: Sip, r: RecordId, ok: bool)
    requires NoticesOk(s)
    ensures NoticesOk(EndingReturns(s, r, ok))
  {
    var s' := EndingReturns(s, r, ok);
    assert forall x :: Active(s', x) <==> Active(s, x);
    assert forall n :: n in s'.notices ==> n in s.notices || (r in s.ending && n == Notice(r, Terminated));
  }

  lemma EndingInv(s: Sip, r: RecordId, ok: bool)
    requires Inv(s)
    ensures Inv(EndingReturns(s, r, ok))
  {
    if r in s.ending {
      var s' := EndingReturns(s, r, ok);
      EndingNotices(s, r, ok);
      AttemptsCarry(s, s');
      IdsCarry(s, s');
      ClosingCarry(s, s');
    }
  }

  lemma StopInv(s: Sip)
    requires Inv(s)
    ensures Inv(Stop(s))
  {
    if s.stopping || !s.draining { return; }
    var s1 := s.(stopping := true);
    NoticesCarry(s, Stop(s));
    AttemptsCarry(s, s1);
    AttemptsCancel(s1, None, true);
    AttemptsCarry(CancelWhere(s1, None, true), Stop(s));
  }

  lemma ShutdownByeClosing(s: Sip, id: CallId, ok: bool)
    requires NoticesOk(s) && ClosingOk(s) && id in s.closing
    ensures ClosingOk(ShutdownByeReturns(s, id, ok))
  {
    var s' := ShutdownByeReturns(s, id, ok);
    if !s.stopping { return; }
    forall x | x in s'.calls
      ensures (x in s'.closing && s'.closing[x] == s'.calls[x]) || s'.calls[x] in s'.byeFailed
    {
      assert x in s.calls && s'.calls[x] == s.calls[x];
      if x != id { assert x in s'.closing <==> x in s.closing; }
    }
  }

  lemma ShutdownByeInv(s: Sip, id: CallId, ok: bool)
    requires Inv(s)
    ensures Inv(ShutdownByeReturns(s, id, ok))
  {
    if id in s.closing {
      var s1 := ByeDone(s, id, s.closing[id], ok);
      var s' := ShutdownByeReturns(s, id, ok);
      ByeDoneInv(s, id, s.closing[id], ok);
      NoticesCarry(s1, s');
      AttemptsCarry(s1, s');
      IdsCarry(s1, s');
      ShutdownByeClosing(s, id, ok);
    }
  }

  lemma SettledInv(s: Sip, a: AttemptId)
    requires Inv(s)
    ensures Inv(OutboundSettled(s, a))
  {
    if a in s.closingOut && a !in s.outbound {
      var s' := s.(closingOut := s.closingOut - {a});
      NoticesCarry(s, s');
      AttemptsCarry(s, s');
      IdsCarry(s, s');
      assert ClosingOk(s');
    }
  }

  predicate InboundEvent(e: Event) {
    e.EInvite? || e.EAction? || e.EUas? || e.EUnwound?
  }

  predicate OutboundEvent(e: Event) {
    e.ECreate? || e.ECancel? || e.EUacFails? || e.EUac? || e.EHungUp?
  }

  predicate EndingEvent(e: Event) {
    e.EBye? || e.EByeReturns? || e.ERemoteDestroys? || e.EOwnerLeft? || e.EEnding?
  }

  lemma InvInbound(s: Sip, e: Event)
    requires Inv(s) && InboundEvent(e)
    ensures Inv(Step(s, e))
  {
    match e {
      case EInvite(id, sipCallId, uuid, owner, routed) => InviteInv(s, id, sipCallId, uuid, owner, routed); return;
      case EAction(id, action) => ActionInv(s, id, action); return;
      case EUas(id, dialog) => UasInv(s, id, dialog); return;
      case EUnwound(id) => UnwoundInv(s, id); return;
      case _ => return;
    }
  }

  lemma InvOutbound(s: Sip, e: Event)
    requires Inv(s) && OutboundEvent(e)
    ensures Inv(Step(s, e))
  {
    match e {
      case ECreate(a, owner) => CreateInv(s, a, owner); return;
      case ECancel(a, owner) => CancelInv(s, a, owner); return;
      case EUacFails(a) => UacFailsInv(s, a); return;
      case EUac(a, r, sipCallId, uuid, id) => UacInv(s, a, r, sipCallId, uuid, id); return;
      case EHungUp(a) => HungUpInv(s, a); return;
      case _ => return;
    }
  }

  lemma InvTeardown(s: Sip, e: Event)
    requires Inv(s) && EndingEvent(e)
    ensures Inv(Step(s, e))
  {
    match e {
      case EBye(op, id) => BeginByeInv(s, op, id); return;
      case EByeReturns(op, ok) => ByeReturnsInv(s, op, ok); return;
      case ERemoteDestroys(r, byBye) => RemoteInv(s, r, byBye); return;
      case EOwnerLeft(connection) => OwnerLeftInv(s, connection); return;
      case EEnding(r, ok) => EndingInv(s, r, ok); return;
      case _ => return;
    }
  }

  lemma DrainInv(s: Sip)
    requires Inv(s)
    ensures Inv(s.(draining := true))
  {
    Carry(s, s.(draining := true));
  }

  lemma InvShutdown(s: Sip, e: Event)
    requires Inv(s) && !InboundEvent(e) && !OutboundEvent(e) && !EndingEvent(e)
    ensures Inv(Step(s, e))
  {
    match e {
      case EDrain => DrainInv(s); return;
      case EStop => StopInv(s); return;
      case EShutdownBye(id, ok) => ShutdownByeInv(s, id, ok); return;
      case ESettled(a) => SettledInv(s, a); return;
      case _ => return;
    }
  }

  lemma InvStep(s: Sip, e: Event)
    requires Inv(s)
    ensures Inv(Step(s, e))
  {
    if InboundEvent(e) {
      InvInbound(s, e);
    } else if OutboundEvent(e) {
      InvOutbound(s, e);
    } else if EndingEvent(e) {
      InvTeardown(s, e);
    } else {
      InvShutdown(s, e);
    }
  }

  lemma InitInv()
    ensures Inv(INIT)
  {
  }

  lemma {:induction false} RunInv(events: seq<Event>)
    ensures Inv(StateAfter(events))
    decreases |events|
  {
    if events == [] {
      InitInv();
      return;
    }
    RunInv(events[..|events| - 1]);
    InvStep(StateAfter(events[..|events| - 1]), events[|events| - 1]);
  }
}
