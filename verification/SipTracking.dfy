/** Which stretches of INVITE handlers and outbound attempts begin or finish a tracked operation, written down exit
    path by exit path, and that this is what becomes of the tables. */
module SipTracking {
  import opened Prelude
  import L = GatewayLifecycle
  import S = SipCalls
  import T = SipTheorems
  import CallIds
  import opened CallRegistry
  import opened Tracking

  /** handleInvite looks at the drain before it tracks, so an INVITE to a draining gateway is not counted. */
  ghost function InviteMarks(s: S.Sip, id: CallId, sipCallId: string, uuid: string, routed: bool): seq<Mark> {
    if s.draining then []
    else if !routed then PASSING
    else if !Reserves(CallIds.NormalizeCallId(sipCallId, uuid), S.Taken(s), id) then []
    else [Begins(L.InviteWork(id))]
  }

  /** The handler goes on to createUAS, or leaves by the reject or by its catch block. */
  function ActionMarks(s: S.Sip, id: CallId, action: S.Action): seq<Mark> {
    if !S.GoesOnWith(s, id, action) then []
    else if action.Answer? && !s.stopping then []
    else [Ends(L.InviteWork(id))]
  }

  /** It is over with the answered call and with a failed createUAS, but not while an unwanted dialog is destroyed. */
  function UasMarks(s: S.Sip, id: CallId, dialog: Option<RecordId>): seq<Mark> {
    if id !in s.inbound || !s.inbound[id].phase.Answering? || (dialog.Some? && dialog.value in s.records) then []
    else if dialog.Some? && s.stopping then []
    else [Ends(L.InviteWork(id))]
  }

  function UnwoundMarks(s: S.Sip, id: CallId): seq<Mark> {
    if id !in s.inbound || !s.inbound[id].phase.Unwinding? then [] else [Ends(L.InviteWork(id))]
  }

  /** createOutbound asserts acceptance before it tracks; a duplicate attempt id throws inside. */
  function CreateMarks(s: S.Sip, a: S.AttemptId): seq<Mark> {
    if s.draining then [] else if a in s.outbound then PASSING else [Begins(L.AttemptWork(a))]
  }

  function UacFailsMarks(s: S.Sip, a: S.AttemptId): seq<Mark> {
    if a !in s.outbound || s.outbound[a].hanging then [] else [Ends(L.AttemptWork(a))]
  }

  /** The attempt is over with the call, but not while an unwanted dialog is destroyed. */
  ghost function UacMarks(s: S.Sip, a: S.AttemptId, r: RecordId, sipCallId: string, uuid: string, id: CallId): seq<Mark> {
    if a !in s.outbound || s.outbound[a].hanging || r in s.records then []
    else if s.outbound[a].cancelled || s.stopping then []
    else if !Reserves(CallIds.NormalizeCallId(sipCallId, uuid), S.Taken(s), id) then []
    else [Ends(L.AttemptWork(a))]
  }

  function HungUpMarks(s: S.Sip, a: S.AttemptId): seq<Mark> {
    if a !in s.outbound || !s.outbound[a].hanging then [] else [Ends(L.AttemptWork(a))]
  }

  ghost function SipMarks(s: S.Sip, e: S.Event): seq<Mark> {
    match e
    case EInvite(id, sipCallId, uuid, _, routed) => InviteMarks(s, id, sipCallId, uuid, routed)
    case EAction(id, action) => ActionMarks(s, id, action)
    case EUas(id, dialog) => UasMarks(s, id, dialog)
    case EUnwound(id) => UnwoundMarks(s, id)
    case ECreate(a, _) => CreateMarks(s, a)
    case EUacFails(a) => UacFailsMarks(s, a)
    case EUac(a, r, sipCallId, uuid, id) => UacMarks(s, a, r, sipCallId, uuid, id)
    case EHungUp(a) => HungUpMarks(s, a)
    case _ => []
  }

  // ----- the marks and the tables

  /** The handler or attempt is in the tables. */
  predicate SipBusy(s: S.Sip, w: L.Token) {
    || (w.InviteWork? && w.id in s.inbound)
    || (w.AttemptWork? && w.attempt in s.outbound)
  }

  /** The marks are what becomes of the tables, and none begins while draining. */
  ghost predicate SipMarked(s: S.Sip, s': S.Sip, marks: seq<Mark>) {
    && MarksOk(marks)
    && (forall w :: Moved(marks, w, SipBusy(s, w), SipBusy(s', w)))
    && (s.draining ==> forall w :: SipBusy(s', w) ==> SipBusy(s, w))
  }

  lemma InviteMarked(s: S.Sip, id: CallId, sipCallId: string, uuid: string, owner: Option<ConnectionId>, routed: bool)
    requires S.Inv(s)
    ensures SipMarked(s, S.InviteArrives(s, id, sipCallId, uuid, owner, routed), InviteMarks(s, id, sipCallId, uuid, routed))
  {
    if s.draining || !routed || !Reserves(CallIds.NormalizeCallId(sipCallId, uuid), S.Taken(s), id) { return; }
    S.ReservedIsFree(CallIds.NormalizeCallId(sipCallId, uuid), S.Taken(s), id);
    S.HandlersHold(s, id);
  }

  lemma ActionMarked(s: S.Sip, id: CallId, action: S.Action)
    ensures SipMarked(s, S.ActionArrives(s, id, action), ActionMarks(s, id, action))
  {
    if !S.GoesOnWith(s, id, action) { return; }
    if s.stopping || !action.Answer? { return; }
  }

  lemma UasMarked(s: S.Sip, id: CallId, dialog: Option<RecordId>)
    ensures SipMarked(s, S.UasReturns(s, id, dialog), UasMarks(s, id, dialog))
  {
    if id !in s.inbound || !s.inbound[id].phase.Answering? || (dialog.Some? && dialog.value in s.records) { return; }
    if s.stopping || dialog.None? { return; }
  }

  lemma UnwoundMarked(s: S.Sip, id: CallId)
    ensures SipMarked(s, S.InviteUnwound(s, id), UnwoundMarks(s, id))
  {
    if S.InviteUnwound(s, id) == s { return; }
  }

  lemma CreateMarked(s: S.Sip, a: S.AttemptId, owner: Option<ConnectionId>)
    ensures SipMarked(s, S.CreateOutbound(s, a, owner), CreateMarks(s, a))
  {
    if S.CreateOutbound(s, a, owner) == s { return; }
  }

  lemma UacMarked(s: S.Sip, a: S.AttemptId, r: RecordId, sipCallId: string, uuid: string, id: CallId)
    ensures SipMarked(s, S.UacReturns(s, a, r, sipCallId, uuid, id), UacMarks(s, a, r, sipCallId, uuid, id))
  {
    if a !in s.outbound || s.outbound[a].hanging || r in s.records { return; }
    if s.outbound[a].cancelled || s.stopping { return; }
  }

  lemma AttemptEndsMarked(s: S.Sip, a: S.AttemptId)
    ensures SipMarked(s, S.UacFails(s, a), UacFailsMarks(s, a)) && SipMarked(s, S.HungUp(s, a), HungUpMarks(s, a))
  {
    if a !in s.outbound { return; }
    if s.outbound[a].hanging { return; }
  }

  lemma SameWorkMarked(s: S.Sip, s': S.Sip)
    requires T.SameWork(s, s')
    ensures SipMarked(s, s', [])
  {
    assert forall a :: a in s'.outbound <==> a in s'.outbound.Keys;
  }

  /** Every SIP step begins and ends exactly the operations that its exit paths mark. */
  lemma SipMarksRight(s: S.Sip, e: S.Event)
    requires S.Inv(s)
    ensures SipMarked(s, S.Step(s, e), SipMarks(s, e))
  {
    match e {
      case EInvite(id, sipCallId, uuid, owner, routed) => InviteMarked(s, id, sipCallId, uuid, owner, routed); return;
      case EAction(id, action) => ActionMarked(s, id, action); return;
      case EUas(id, dialog) => UasMarked(s, id, dialog); return;
      case EUnwound(id) => UnwoundMarked(s, id); return;
      case ECreate(a, owner) => CreateMarked(s, a, owner); return;
      case EUacFails(a) => AttemptEndsMarked(s, a); return;
      case EUac(a, r, sipCallId, uuid, id) => UacMarked(s, a, r, sipCallId, uuid, id); return;
      case EHungUp(a) => AttemptEndsMarked(s, a); return;
      case _ =>
        T.TeardownSameWork(s, e);
        SameWorkMarked(s, S.Step(s, e));
        return;
    }
  }
}
