/** Which stretches of a session creation begin or finish its tracked operation, written down exit path by exit path,
    and that this is what becomes of the suspended creations. */
module MediaTracking {
  import opened Prelude
  import L = GatewayLifecycle
  import M = MediaSystem
  import MT = MediaTheorems
  import BackendPins
  import opened MediaPins
  import opened Tracking

  /** createSession is admitted before the backends are discovered. */
  function AdmitMarks(s: M.State, op: OpId): seq<Mark> {
    if !M.Fresh(s, op) || s.stopping then [] else [Begins(L.SessionWork(op))]
  }

  /** A failed pick ends it. */
  function PickMarks(s: M.State, op: OpId, backends: Option<seq<BackendPins.Backend>>, now: int): seq<Mark> {
    if op !in s.ops || !s.ops[op].Discovering? then []
    else if BackendPins.Pick(s.core.mgr, backends, None, s.ops[op].callId, now).1.Ok? then []
    else [Ends(L.SessionWork(op))]
  }

  /** registerCall throws when the call is pinned elsewhere by now. */
  function RegisterMarks(s: M.State, op: OpId, now: int): seq<Mark> {
    if op !in s.ops || !s.ops[op].Picked? || s.ops[op].callId.None? then []
    else if BackendPins.Register(s.core.mgr.pins, s.ops[op].callId.value, s.ops[op].backend, now).Ok? then []
    else [Ends(L.SessionWork(op))]
  }

  function OpenedMarks(s: M.State, op: OpId, ok: bool): seq<Mark> {
    if op !in s.ops || !s.ops[op].Opening? || ok then [] else [Ends(L.SessionWork(op))]
  }

  /** The creation is over with the published session, but not while an unwanted one is destroyed. */
  function ConfiguredMarks(s: M.State, op: OpId, ok: bool, sid: SessionId): seq<Mark> {
    if op !in s.ops || !s.ops[op].Configuring? || sid in s.core.records || !ok || s.stopping then [] else [Ends(L.SessionWork(op))]
  }

  function UnwindMarks(s: M.State, op: OpId): seq<Mark> {
    if op !in s.ops || !s.ops[op].Unwinding? then [] else [Ends(L.SessionWork(op))]
  }

  function MediaMarks(s: M.State, e: M.Event): seq<Mark> {
    match e
    case Admit(op, _, _) => AdmitMarks(s, op)
    case Pick(op, backends, now) => PickMarks(s, op, backends, now)
    case RegisterPick(op, now) => RegisterMarks(s, op, now)
    case Opened(op, ok, _, _) => OpenedMarks(s, op, ok)
    case Configured(op, ok, sid) => ConfiguredMarks(s, op, ok, sid)
    case Unwound(op, _, _) => UnwindMarks(s, op)
    case _ => []
  }

  // ----- the marks and the tables

  /** The session creation is suspended. */
  predicate MediaBusy(s: M.State, w: L.Token) {
    w.SessionWork? && w.op in s.ops && M.Creating(s.ops[w.op])
  }

  ghost predicate MediaMarked(s: M.State, s': M.State, marks: seq<Mark>) {
    MarksOk(marks) && forall w :: Moved(marks, w, MediaBusy(s, w), MediaBusy(s', w))
  }

  lemma CreateMediaMarked(s: M.State, e: M.Event)
    requires M.CreateEvent(e)
    ensures MediaMarked(s, M.StepCreate(s, e), MediaMarks(s, e))
  {
    match e {
      case Admit(_, _, _) => return;
      case Pick(_, _, _) => return;
      case RegisterPick(_, _) => return;
      case Opened(_, _, _, _) => return;
      case Configured(_, _, _) => return;
      case Unwound(_, _, _) => return;
      case SweepPins(_, _) => return;
    }
  }

  lemma SamePinOpsMarked(s: M.State, s': M.State)
    requires SamePinOps(s, s')
    ensures MediaMarked(s, s', [])
  {
  }

  /** Every media step begins and ends exactly the operations that its exit paths mark. */
  lemma MediaMarksRight(s: M.State, e: M.Event)
    ensures MediaMarked(s, M.Step(s, e), MediaMarks(s, e))
  {
    if M.CreateEvent(e) {
      CreateMediaMarked(s, e);
      return;
    }
    if M.EndpointEvent(e) {
      EndpointLeavesPinOps(s, e);
      SamePinOpsMarked(s, M.StepEndpoint(s, e));
      return;
    }
    if M.TeardownEvent(e) {
      TeardownLeavesPinOps(s, e);
      SamePinOpsMarked(s, M.StepTeardown(s, e));
      return;
    }
    ActionLeavesPinOps(s, e);
    SamePinOpsMarked(s, M.StepAction(s, e));
  }

  lemma OnlyAdmitsBegin(s: M.State, e: M.Event)
    requires |MediaMarks(s, e)| == 1 && MediaMarks(s, e)[0].Begins?
    ensures e.Admit? && !s.stopping && MediaMarks(s, e) == [Begins(L.SessionWork(e.op))]
  {
  }

  lemma MediaStopping(s: M.State, e: M.Event)
    requires !e.Stop?
    ensures M.Step(s, e).stopping == s.stopping
  {
    if M.EndpointEvent(e) {
      MT.EndpointKeepsClosing(s, e);
    } else if M.ActionEvent(e) {
      MT.ActionKeepsClosing(s, e);
    }
  }

  lemma MediaClosing(s: M.State, e: M.Event)
    requires s.stopping
    ensures M.Step(s, e).closing <= s.closing
  {
    if M.CreateEvent(e) {
      assert M.StepCreate(s, e).closing == s.closing;
      return;
    }
    if M.EndpointEvent(e) {
      MT.EndpointKeepsClosing(s, e);
      return;
    }
    if M.ActionEvent(e) {
      MT.ActionKeepsClosing(s, e);
      return;
    }
  }
}
