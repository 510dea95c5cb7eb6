/** The invariants of the media step system: what every reachable state keeps. */
module MediaInvariants {
  import opened Prelude
  import opened BackendPins
  import opened MediaCore
  import opened MediaTables
  import opened MediaSystem

  // ----- suspended operations

  /** What a suspended operation captured is still true of the tables when it resumes. */
  ghost predicate OpOk(s: State, o: OpId, op: Op) {
    match op
    case Adding(sid, _) => sid in s.core.records
    case Bridging(sid, tid) => sid != tid && sid in s.core.records && tid in s.core.records
    case Removing(sid, eid, captured) =>
      && eid in s.born && s.born[eid].0 == sid
      && if captured.Some? then captured.value == s.born[eid].1 else !Has(s.core, sid, eid)
    case Gathering(sid, eid, sensitive, _, _, phase) =>
      && sid in s.core.records && eid in s.born && s.born[eid].0 == sid
      && (phase.Collecting? ==> o in s.core.runs && s.core.runs[o].kind.Gather? && s.core.runs[o].endpoint == eid)
      && (phase.Enabling? || phase.Playing? ==> o !in s.core.runs)
      && (phase.Enabling? || phase.Disabling? ==> sensitive)
      && (phase.Disabling? ==> o in s.core.runs ==> s.core.runs[o].released)
    case Leaving(sid, eid) =>
      && sid in s.core.records && eid in s.born
      && o in s.core.runs && s.core.runs[o].kind.LeaveMessage? && s.core.runs[o].endpoint == eid && !s.core.runs[o].released
    case _ => true
  }

  predicate Owns(s: State, r: OpId) {
    r in s.ops && (s.ops[r].Leaving? || InPhase(s, r, Collecting))
  }

  /** Unreleased runs belong to an operation that will still release them. */
  ghost predicate OpsOk(s: State) {
    && (forall o :: o in s.ops ==> OpOk(s, o, s.ops[o]))
    && (forall r :: r in s.core.runs && !s.core.runs[r].released ==> Owns(s, r))
  }

  // ----- sensitive DTMF

  predicate Holder(op: Op, e: EndpointId) {
    op.Gathering? && op.sensitive && op.eid == e
  }

  ghost predicate Redacting(s: State) {
    && (forall o, e :: o in s.ops && Holder(s.ops[o], e) && Tracked(s.core, e) ==> e in s.core.sensitive)
    && (forall o, o', e :: o in s.ops && o' in s.ops && Holder(s.ops[o], e) && Holder(s.ops[o'], e) ==> o == o')
    && (forall e :: e in s.stuck && Tracked(s.core, e) ==> e in s.core.sensitive)
    && (forall o, e :: o in s.ops && Holder(s.ops[o], e) ==> e !in s.stuck)
    && (forall e :: e in s.core.sensitive ==> e in s.stuck || exists o :: o in s.ops && Holder(s.ops[o], e))
    && (forall e :: e in s.stuck ==> e in s.born)
  }

  // ----- shutdown

  ghost predicate ClosingOk(s: State) {
    s.stopping ==> s.core.live <= s.closing
  }

  // ----- pins

  predicate HoldsPin(op: Op, c: CallId) {
    (op.Opening? || op.Configuring? || op.Unwinding?) && op.callId == Some(c)
  }

  function OpHolders(ops: map<OpId, Op>, c: CallId): set<OpId> {
    set o | o in ops && HoldsPin(ops[o], c)
  }

  function LiveHolders(core: Core, c: CallId): set<SessionId> {
    set s | s in core.live && s in core.records && core.records[s].callId == Some(c)
  }

  function Refs(s: State, c: CallId): nat {
    |OpHolders(s.ops, c)| + |LiveHolders(s.core, c)|
  }

  /** The pin of a call counts exactly the clients registered for it and not yet unregistered, and
      they all use the pinned backend. */
  ghost predicate PinOk(s: State, c: CallId) {
    var pins := s.core.mgr.pins;
    && (Refs(s, c) > 0 ==> c in pins)
    && (c in pins ==> pins[c].refs == Refs(s, c))
    && (forall o :: o in OpHolders(s.ops, c) ==> c in pins && s.ops[o].backend == pins[c].backend)
    && (forall x :: x in LiveHolders(s.core, c) ==> c in pins && s.core.records[x].backend == pins[c].backend)
  }

  ghost predicate PinsOk(s: State) {
    forall c :: PinOk(s, c)
  }

  ghost predicate Inv(s: State) {
    TablesOk(s.core, s.born) && OpsOk(s) && Redacting(s) && ClosingOk(s) && PinsOk(s)
  }

  lemma InitInv()
    ensures Inv(INIT)
  {
  }

  // ----- tables

  lemma MgrKeepsTables(c: Core, born: Births, m: Manager)
    requires TablesOk(c, born)
    ensures TablesOk(c.(mgr := m), born)
  {
    var c' := c.(mgr := m);
    assert forall s, e :: Has(c', s, e) <==> Has(c, s, e);
    assert forall e :: Tracked(c', e) <==> Tracked(c, e);
    assert forall r :: HoldsClaim(c', r) <==> HoldsClaim(c, r);
  }

  lemma SensitiveKeepsTables(c: Core, born: Births, e: EndpointId, on: bool)
    requires TablesOk(c, born) && (on ==> Tracked(c, e))
    ensures TablesOk(c.(sensitive := if on then c.sensitive + {e} else c.sensitive - {e}), born)
  {
    var c' := c.(sensitive := if on then c.sensitive + {e} else c.sensitive - {e});
    assert forall s, e :: Has(c', s, e) <==> Has(c, s, e);
    assert forall e :: Tracked(c', e) <==> Tracked(c, e);
    assert forall r :: HoldsClaim(c', r) <==> HoldsClaim(c, r);
  }

  lemma CreateMovesMgrOnly(s: State, e: Event)
    requires CreateEvent(e) && !(e.Configured? && e.ok && !s.stopping)
    ensures var s' := StepCreate(s, e); s'.core == s.core.(mgr := s'.core.mgr) && s'.born == s.born
  {
    if StepCreate(s, e) == s { return; }
    match e {
      case Admit(_, _, _) => return;
      case Pick(_, _, _) => return;
      case RegisterPick(_, _) => return;
      case Opened(_, _, _, _) => return;
      case Configured(_, _, _) => return;
      case Unwound(_, _, _) => return;
      case SweepPins(_, _) => return;
    }
  }

  lemma TablesCreate(s: State, e: Event)
    requires Inv(s) && CreateEvent(e)
    ensures var s' := StepCreate(s, e); TablesOk(s'.core, s'.born)
  {
    var s' := StepCreate(s, e);
    if s' == s { return; }
    if e.Configured? && e.ok && !s.stopping {
      PublishKeepsTables(s.core, s.born, e.sid, s'.core.records[e.sid]);
      return;
    }
    CreateMovesMgrOnly(s, e);
    MgrKeepsTables(s.core, s.born, s'.core.mgr);
  }

  lemma TablesEndpoint(s: State, e: Event)
    requires Inv(s)
    requires EndpointEvent(e)
    ensures var s' := StepEndpoint(s, e); TablesOk(s'.core, s'.born)
  {
    var s' := StepEndpoint(s, e);
    if s' != s {
      match e
      case Added(op, eid) =>
        AddKeepsTables(s.core, s.born, s.ops[op].sid, eid, s.ops[op].kind);
      case Bridged(op, eid, teid) =>
        var (sid, tid) := (s.ops[op].sid, s.ops[op].tid);
        assert OpOk(s, op, s.ops[op]);
        if sid in s.core.live && tid in s.core.live {
          AddPairKeepsTables(s.core, s.born, sid, eid, tid, teid);
        }
      case BeginStop(op, eid) =>
        CancelKeepsTables(s.core, s.born, {eid});
      case Removed(op, ok) =>
        assert OpOk(s, op, s.ops[op]);
        RemoveKeepsTables(s.core, s.born, s.ops[op].sid, s.ops[op].eid, s.ops[op].captured);
      case _ =>
    }
  }

  lemma TablesTeardown(s: State, e: Event)
    requires Inv(s)
    requires TeardownEvent(e)
    ensures var s' := StepTeardown(s, e); TablesOk(s'.core, s'.born)
  {
    match e
    case Destroyed(op, active, now) =>
      if op in s.ops && s.ops[op].Destroying? { DropKeepsTables(s.core, s.born, s.ops[op].sid, active, now); }
    case SocketClosed(sid, active, now) => DropKeepsTables(s.core, s.born, sid, active, now);
    case OwnerLeft(_, order, active, now) => DropAllKeepsTables(s.core, s.born, order, active, now);
    case ShutdownDestroyed(sid, active, now) => DropKeepsTables(s.core, s.born, sid, active, now);
    case _ =>
  }

  lemma TablesTryCollect(s: State, op: OpId)
    requires TablesOk(s.core, s.born) && op in s.ops && s.ops[op].Gathering?
    requires op !in s.core.runs && s.ops[op].eid in s.born
    ensures var s' := TryCollect(s, op); TablesOk(s'.core, s'.born)
  {
    if s.ops[op].eid !in s.core.claims { ClaimKeepsTables(s.core, s.born, op, s.ops[op].eid, Gather); }
  }

  lemma TablesBeginGather(s: State, op: OpId, sid: SessionId, eid: EndpointId, sensitive: bool, play: bool, valid: bool)
    requires Inv(s)
    ensures var s' := StepAction(s, BeginGather(op, sid, eid, sensitive, play, valid)); TablesOk(s'.core, s'.born)
  {
    if Fresh(s, op) && InSession(s.core, sid, eid) {
      if sensitive {
        SensitiveKeepsTables(s.core, s.born, eid, true);
      } else {
        TablesTryCollect(s.(ops := s.ops[op := Gathering(sid, eid, sensitive, play, valid, Playing)]), op);
      }
    }
  }

  lemma TablesGatherRpc(s: State, e: Event)
    requires Inv(s) && (e.Enabled? || e.PlaybackReady?)
    ensures var s' := StepAction(s, e); TablesOk(s'.core, s'.born)
  {
    if InPhase(s, e.op, Enabling) || InPhase(s, e.op, Playing) {
      assert OpOk(s, e.op, s.ops[e.op]);
      if e.Enabled? {
        SensitiveKeepsTables(s.core, s.born, s.ops[e.op].eid, false);
        TablesTryCollect(s, e.op);
      } else if e.peid.Some? && e.peid.value !in s.born {
        AddKeepsTables(s.core, s.born, s.ops[e.op].sid, e.peid.value, File);
        TablesTryCollect(AddTo(s, s.ops[e.op].sid, e.peid.value, Plain(File)), e.op);
      }
    }
  }

  lemma TablesAction(s: State, e: Event)
    requires Inv(s)
    requires ActionEvent(e) && !e.BeginGather? && !e.Enabled? && !e.PlaybackReady?
    ensures var s' := StepAction(s, e); TablesOk(s'.core, s'.born)
  {
    match e
    case Collected(op, reason) =>
      if InPhase(s, op, Collecting) {
        assert OpOk(s, op, s.ops[op]);
        FinishKeepsTables(s.core, s.born, op, reason);
      }
    case Disabled(op, ok) =>
      if InPhase(s, op, Disabling) { SensitiveKeepsTables(s.core, s.born, s.ops[op].eid, false); }
    case BeginLeave(op, sid, eid) =>
      if Fresh(s, op) && InSession(s.core, sid, eid) && eid !in s.core.claims {
        ClaimKeepsTables(s.core, s.born, op, eid, LeaveMessage);
      }
    case EndLeave(op) =>
      if op in s.ops && s.ops[op].Leaving? {
        assert OpOk(s, op, s.ops[op]);
        ReleaseKeepsTables(s.core, s.born, op);
      }
    case _ =>
  }

  lemma TablesStep(s: State, e: Event)
    requires Inv(s)
    ensures TablesOk(Step(s, e).core, Step(s, e).born)
  {
    if CreateEvent(e) {
      TablesCreate(s, e);
    } else if EndpointEvent(e) {
      TablesEndpoint(s, e);
    } else if TeardownEvent(e) {
      TablesTeardown(s, e);
    } else if e.BeginGather? {
      TablesBeginGather(s, e.op, e.sid, e.eid, e.sensitive, e.play, e.valid);
    } else if e.Enabled? || e.PlaybackReady? {
      TablesGatherRpc(s, e);
    } else {
      TablesAction(s, e);
    }
  }

  // ----- suspended operations

  /** Tables only lose endpoints they already knew, and runs only move towards release; the run of
      operation `but` may be new or change freely. */
  ghost predicate Grows(c: Core, c': Core, born: Births, born': Births, but: Option<OpId>) {
    && c.records.Keys <= c'.records.Keys
    && (forall e :: e in born ==> e in born' && born'[e] == born[e])
    && (forall x, e :: e in born && Has(c', x, e) ==> Has(c, x, e))
    && (forall r :: r in c'.runs && r !in c.runs ==> but == Some(r))
    && (forall r :: r in c.runs ==>
                      && r in c'.runs && c'.runs[r].endpoint == c.runs[r].endpoint && c'.runs[r].kind == c.runs[r].kind
                      && (c.runs[r].released ==> c'.runs[r].released)
                      && (c.runs[r].kind.LeaveMessage? && but != Some(r) ==> c'.runs[r].released == c.runs[r].released))
  }

  ghost predicate OnlyOp(s: State, s': State, op: OpId) {
    forall o :: o != op ==> (o in s'.ops <==> o in s.ops) && (o in s.ops ==> s'.ops[o] == s.ops[o])
  }

  lemma OpsCarry(s: State, s': State, but: Option<OpId>)
    requires OpsOk(s) && Grows(s.core, s'.core, s.born, s'.born, but)
    requires forall o :: but != Some(o) ==> (o in s'.ops <==> o in s.ops) && (o in s.ops ==> s'.ops[o] == s.ops[o])
    requires but.Some? && but.value in s'.ops ==> OpOk(s', but.value, s'.ops[but.value])
    requires but.Some? && but.value in s'.core.runs && !s'.core.runs[but.value].released ==> Owns(s', but.value)
    ensures OpsOk(s')
  {
    forall o | o in s'.ops
      ensures OpOk(s', o, s'.ops[o])
    {
      if but != Some(o) {
        assert OpOk(s, o, s.ops[o]);
      }
    }
    forall r | r in s'.core.runs && !s'.core.runs[r].released
      ensures Owns(s', r)
    {
      if but != Some(r) {
        assert Owns(s, r);
      }
    }
  }

  lemma DropGrows(c: Core, born: Births, sid: SessionId, active: set<CallId>, now: int)
    requires TablesOk(c, born)
    ensures Grows(c, Drop(c, sid, active, now), born, born, None)
  {
  }

  lemma {:induction false} DropAllGrows(c: Core, born: Births, order: seq<SessionId>, active: set<CallId>, now: int)
    requires TablesOk(c, born)
    ensures Grows(c, DropAll(c, order, active, now), born, born, None)
    decreases |order|
  {
    if order != [] {
      var c1 := Drop(c, order[0], active, now);
      DropGrows(c, born, order[0], active, now);
      DropKeepsTables(c, born, order[0], active, now);
      DropAllGrows(c1, born, order[1..], active, now);
    }
  }

  lemma CreateOnlyOp(s: State, e: Event)
    requires CreateEvent(e) && !e.SweepPins?
    ensures OnlyOp(s, StepCreate(s, e), e.op)
  {
    if StepCreate(s, e) == s { return; }
    match e {
      case Admit(_, _, _) => return;
      case Pick(_, _, _) => return;
      case RegisterPick(_, _) => return;
      case Opened(_, _, _, _) => return;
      case Configured(_, _, _) => return;
      case Unwound(_, _, _) => return;
      case _ => return;
    }
  }

  lemma CreateGrows(s: State, e: Event, but: Option<OpId>)
    requires CreateEvent(e)
    ensures var s' := StepCreate(s, e); Grows(s.core, s'.core, s.born, s'.born, but) && s'.core.runs == s.core.runs
  {
    if e.Configured? && e.ok && !s.stopping {
      if StepCreate(s, e) == s { return; }
      return;
    }
    CreateMovesMgrOnly(s, e);
  }

  lemma OpsCreate(s: State, e: Event)
    requires OpsOk(s) && CreateEvent(e)
    ensures OpsOk(StepCreate(s, e))
  {
    var s' := StepCreate(s, e);
    if s' == s { return; }
    if e.SweepPins? {
      CreateGrows(s, e, None);
      OpsCarry(s, s', None);
      return;
    }
    CreateOnlyOp(s, e);
    CreateGrows(s, e, Some(e.op));
    assert e.op in s.core.runs && !s.core.runs[e.op].released ==> Owns(s, e.op);
    assert e.op in s'.ops ==> OpOk(s', e.op, s'.ops[e.op]);
    OpsCarry(s, s', Some(e.op));
  }

  lemma AddGrows(c: Core, born: Births, sid: SessionId, eid: EndpointId, ep: Endpoint)
    requires sid in c.records && eid !in born
    ensures Grows(c, Add(c, sid, eid, ep), born, born[eid := (sid, ep)], None)
  {
  }

  lemma RemoveGrows(c: Core, born: Births, sid: SessionId, eid: EndpointId, captured: Option<Endpoint>)
    requires sid in c.records && c.live <= c.records.Keys
    ensures Grows(c, Remove(c, sid, eid, captured), born, born, None)
  {
  }

  lemma GrowsTransitive(c0: Core, c1: Core, c2: Core, b0: Births, b1: Births, b2: Births, but: Option<OpId>)
    requires Grows(c0, c1, b0, b1, None) && Grows(c1, c2, b1, b2, but)
    ensures Grows(c0, c2, b0, b2, but)
  {
  }

  lemma GrowsBut(c: Core, c': Core, born: Births, born': Births, but: Option<OpId>)
    requires Grows(c, c', born, born', None)
    ensures Grows(c, c', born, born', but)
  {
  }

  lemma GrowsSame(c: Core, c': Core, born: Births, but: Option<OpId>)
    requires c'.records == c.records && c'.runs == c.runs
    ensures Grows(c, c', born, born, but)
  {
  }

  lemma OpsEndpoint(s: State, e: Event)
    requires OpsOk(s) && IndexOk(s.core, s.born) && EndpointEvent(e)
    ensures OpsOk(StepEndpoint(s, e))
  {
    match e
    case Added(op, eid) => OpsAdded(s, op, eid);
    case Bridged(op, eid, teid) => OpsBridged(s, op, eid, teid);
    case Removed(op, ok) => OpsRemoved(s, op, ok);
    case _ => OpsBeginEndpoint(s, e);
  }

  lemma OpsAdded(s: State, op: OpId, eid: EndpointId)
    requires OpsOk(s)
    ensures OpsOk(StepEndpoint(s, Added(op, eid)))
  {
    var s' := StepEndpoint(s, Added(op, eid));
    if s' != s {
      assert op in s.core.runs && !s.core.runs[op].released ==> Owns(s, op);
      AddGrows(s.core, s.born, s.ops[op].sid, eid, Plain(s.ops[op].kind));
      OpsCarry(s, s', Some(op));
    }
  }

  lemma OpsRemoved(s: State, op: OpId, ok: bool)
    requires OpsOk(s) && IndexOk(s.core, s.born)
    ensures OpsOk(StepEndpoint(s, Removed(op, ok)))
  {
    var s' := StepEndpoint(s, Removed(op, ok));
    if s' != s {
      assert op in s.core.runs && !s.core.runs[op].released ==> Owns(s, op);
      RemoveGrows(s.core, s.born, s.ops[op].sid, s.ops[op].eid, s.ops[op].captured);
      GrowsSame(s.core, s.core, s.born, None);
      OpsCarry(s, s', Some(op));
    }
  }

  lemma OpsBridged(s: State, op: OpId, eid: EndpointId, teid: EndpointId)
    requires OpsOk(s) && IndexOk(s.core, s.born)
    ensures OpsOk(StepEndpoint(s, Bridged(op, eid, teid)))
  {
    var s' := StepEndpoint(s, Bridged(op, eid, teid));
    if s' != s {
      var c, born := s.core, s.born;
      var (sid, tid) := (s.ops[op].sid, s.ops[op].tid);
      if s'.core == c {
        GrowsSame(c, c, born, None);
      } else {
        var (c1, b1) := (Add(c, sid, eid, Bridge(tid, teid)), born[eid := (sid, Bridge(tid, teid))]);
        AddGrows(c, born, sid, eid, Bridge(tid, teid));
        AddGrows(c1, b1, tid, teid, Bridge(sid, eid));
        GrowsTransitive(c, c1, s'.core, born, b1, s'.born, None);
      }
      GrowsBut(c, s'.core, born, s'.born, Some(op));
      assert op in c.runs && !c.runs[op].released ==> Owns(s, op);
      OpsCarry(s, s', Some(op));
    }
  }

  lemma OpsBeginEndpoint(s: State, e: Event)
    requires OpsOk(s) && IndexOk(s.core, s.born) && EndpointEvent(e) && !e.Added? && !e.Bridged? && !e.Removed?
    ensures OpsOk(StepEndpoint(s, e))
  {
    var s' := StepEndpoint(s, e);
    if s' != s {
      assert e.op in s.core.runs && !s.core.runs[e.op].released ==> Owns(s, e.op);
      OpsCarry(s, s', Some(e.op));
    }
  }

  lemma OpsTeardown(s: State, e: Event)
    requires Inv(s) && TeardownEvent(e)
    ensures OpsOk(StepTeardown(s, e))
  {
    var s' := StepTeardown(s, e);
    if s' == s { return; }
    match e {
      case BeginDestroy(op, _) =>
        OpsCarry(s, s', Some(op));
        return;
      case Destroyed(op, active, now) =>
        DropGrows(s.core, s.born, s.ops[op].sid, active, now);
        OpsCarry(s, s', Some(op));
        return;
      case SocketClosed(sid, active, now) =>
        DropGrows(s.core, s.born, sid, active, now);
        OpsCarry(s, s', None);
        return;
      case OwnerLeft(_, order, active, now) =>
        DropAllGrows(s.core, s.born, order, active, now);
        OpsCarry(s, s', None);
        return;
      case Stop =>
        OpsCarry(s, s', None);
        return;
      case ShutdownDestroyed(sid, active, now) =>
        DropGrows(s.core, s.born, sid, active, now);
        OpsCarry(s, s', None);
        return;
    }
  }

  lemma ClaimGrows(c: Core, born: Births, r: OpId, eid: EndpointId, kind: ActionKind)
    requires r !in c.runs
    ensures Grows(c, Claim(c, r, eid, kind), born, born, Some(r))
  {
  }

  lemma OpsTryCollect(s: State, s1: State, op: OpId)
    requires OpsOk(s) && op in s1.ops && s1.ops[op].Gathering? && op !in s1.core.runs && !s1.ops[op].phase.Collecting?
    requires s1.ops[op].eid in s1.born && s1.born[s1.ops[op].eid].0 == s1.ops[op].sid && s1.ops[op].sid in s1.core.records
    requires Grows(s.core, s1.core, s.born, s1.born, None)
    requires forall o :: o != op ==> (o in s1.ops <==> o in s.ops) && (o in s.ops ==> s1.ops[o] == s.ops[o])
    ensures OpsOk(TryCollect(s1, op))
  {
    var s' := TryCollect(s1, op);
    if s'.core == s1.core {
      GrowsBut(s.core, s'.core, s.born, s'.born, Some(op));
    } else {
      ClaimGrows(s1.core, s1.born, op, s1.ops[op].eid, Gather);
      GrowsTransitive(s.core, s1.core, s'.core, s.born, s1.born, s'.born, Some(op));
    }
    OpsCarry(s, s', Some(op));
  }

  lemma OpsBeginGather(s: State, op: OpId, sid: SessionId, eid: EndpointId, sensitive: bool, play: bool, valid: bool)
    requires OpsOk(s) && IndexOk(s.core, s.born)
    ensures OpsOk(StepAction(s, BeginGather(op, sid, eid, sensitive, play, valid)))
  {
    var s' := StepAction(s, BeginGather(op, sid, eid, sensitive, play, valid));
    if s' != s {
      GrowsSame(s.core, s'.core.(runs := s.core.runs), s.born, None);
      if sensitive || play {
        OpsCarry(s, s', Some(op));
      } else {
        OpsTryCollect(s, s.(ops := s.ops[op := Gathering(sid, eid, sensitive, play, valid, Playing)]), op);
      }
    }
  }

  lemma OpsGatherRpc(s: State, e: Event)
    requires OpsOk(s) && IndexOk(s.core, s.born) && (e.Enabled? || e.PlaybackReady?)
    ensures OpsOk(StepAction(s, e))
  {
    var s' := StepAction(s, e);
    if s' != s {
      assert OpOk(s, e.op, s.ops[e.op]);
      GrowsSame(s.core, s.core, s.born, None);
      if e.PlaybackReady? && e.peid.Some? {
        var ep := Plain(File);
        AddGrows(s.core, s.born, s.ops[e.op].sid, e.peid.value, ep);
        OpsTryCollect(s, AddTo(s, s.ops[e.op].sid, e.peid.value, ep), e.op);
      } else if e.Enabled? && e.ok && !s.ops[e.op].play {
        OpsTryCollect(s, s, e.op);
      } else {
        GrowsSame(s.core, s'.core, s.born, Some(e.op));
        OpsCarry(s, s', Some(e.op));
      }
    }
  }

  lemma OpsAction(s: State, e: Event)
    requires OpsOk(s) && TablesOk(s.core, s.born) && ActionEvent(e)
    ensures OpsOk(StepAction(s, e))
  {
    var s' := StepAction(s, e);
    if e.BeginGather? {
      OpsBeginGather(s, e.op, e.sid, e.eid, e.sensitive, e.play, e.valid);
    } else if e.Enabled? || e.PlaybackReady? {
      OpsGatherRpc(s, e);
    } else if e.Forward? {
      OpsCarry(s, s', None);
    } else {
      OpsRelease(s, e);
    }
  }

  lemma CollectedGrows(s: State, op: OpId, reason: Reason)
    requires OpsOk(s)
    ensures var s' := StepAction(s, Collected(op, reason)); Grows(s.core, s'.core, s.born, s'.born, Some(op))
  {
    if StepAction(s, Collected(op, reason)) == s { return; }
    assert OpOk(s, op, s.ops[op]);
  }

  lemma ReleaseGrows(s: State, e: Event)
    requires e.Collected? || e.Resume? || e.Disabled? || e.BeginLeave? || e.EndLeave?
    requires OpsOk(s) && (e.BeginLeave? ==> TablesOk(s.core, s.born))
    ensures var s' := StepAction(s, e); Grows(s.core, s'.core, s.born, s'.born, Some(e.op))
  {
    if StepAction(s, e) == s { return; }
    match e {
      case EndLeave(_) => return;
      case Collected(op, reason) => CollectedGrows(s, op, reason); return;
      case BeginLeave(op, sid, eid) => ClaimGrows(s.core, s.born, op, eid, LeaveMessage); return;
      case Resume(_) => GrowsSame(s.core, s.core, s.born, Some(e.op)); return;
      case Disabled(_, _) => GrowsSame(s.core, StepAction(s, e).core, s.born, Some(e.op)); return;
      case _ => return;
    }
  }

  /** What the step leaves of its own operation is in order. */
  lemma ReleaseOwn(s: State, e: Event)
    requires OpsOk(s) && TablesOk(s.core, s.born)
    requires e.Collected? || e.Resume? || e.Disabled? || e.BeginLeave? || e.EndLeave?
    ensures var s' := StepAction(s, e);
            && (e.op in s'.ops ==> OpOk(s', e.op, s'.ops[e.op]))
            && (e.op in s'.core.runs && !s'.core.runs[e.op].released ==> Owns(s', e.op))
  {
    if StepAction(s, e) == s { return; }
    if e.op in s.ops { assert OpOk(s, e.op, s.ops[e.op]); }
    assert e.op in s.core.runs && !s.core.runs[e.op].released ==> Owns(s, e.op);
    match e {
      case Collected(_, _) => return;
      case Resume(_) => return;
      case Disabled(_, _) => return;
      case BeginLeave(_, _, _) => return;
      case EndLeave(_) => return;
      case _ => return;
    }
  }

  lemma OpsRelease(s: State, e: Event)
    requires OpsOk(s) && TablesOk(s.core, s.born)
    requires e.Collected? || e.Resume? || e.Disabled? || e.BeginLeave? || e.EndLeave?
    ensures OpsOk(StepAction(s, e))
  {
    ReleaseGrows(s, e);
    ReleaseOwn(s, e);
    OnlyThisOp(s, e);
    OpsCarry(s, StepAction(s, e), Some(e.op));
  }

  // ----- sensitive DTMF

  /** No known endpoint becomes tracked, and those that stay tracked stay redacted. */
  ghost predicate Calm(c: Core, c': Core, born: Births) {
    && (forall e :: e in born && Tracked(c', e) ==> Tracked(c, e) && (e in c.sensitive ==> e in c'.sensitive))
    && c'.sensitive <= c.sensitive
  }

  lemma SameHolding(s: State, s': State)
    requires SameHolders(s, s')
    ensures forall o, e :: (o in s'.ops && Holder(s'.ops[o], e)) <==> (o in s.ops && Holder(s.ops[o], e))
  {
  }

  lemma HoldersBorn(s: State)
    requires OpsOk(s)
    ensures forall o, e :: o in s.ops && Holder(s.ops[o], e) ==> e in s.born
  {
    forall o, e | o in s.ops && Holder(s.ops[o], e)
      ensures e in s.born
    {
      assert OpOk(s, o, s.ops[o]);
    }
  }

  lemma RedactCarry(s: State, s': State)
    requires Redacting(s) && OpsOk(s) && Calm(s.core, s'.core, s.born)
    requires s'.stuck == s.stuck && s.born.Keys <= s'.born.Keys
    requires SameHolders(s, s')
    ensures Redacting(s')
  {
    SameHolding(s, s');
    HoldersBorn(s);
    forall e | e in s'.core.sensitive && e !in s'.stuck
      ensures exists o :: o in s'.ops && Holder(s'.ops[o], e)
    {
      var o :| o in s.ops && Holder(s.ops[o], e);
      assert o in s'.ops && Holder(s'.ops[o], e);
    }
  }

  lemma DropCalm(c: Core, born: Births, sid: SessionId, active: set<CallId>, now: int)
    requires TablesOk(c, born)
    ensures Calm(c, Drop(c, sid, active, now), born)
  {
    if sid in c.live { DropEffect(c, born, sid, active, now); }
  }

  lemma {:induction false} DropAllCalm(c: Core, born: Births, order: seq<SessionId>, active: set<CallId>, now: int)
    requires TablesOk(c, born)
    ensures Calm(c, DropAll(c, order, active, now), born)
    decreases |order|
  {
    if order != [] {
      var c1 := Drop(c, order[0], active, now);
      DropCalm(c, born, order[0], active, now);
      DropKeepsTables(c, born, order[0], active, now);
      DropAllCalm(c1, born, order[1..], active, now);
    }
  }

  lemma CreateCalm(s: State, e: Event)
    requires IndexOk(s.core, s.born) && CreateEvent(e)
    ensures Calm(s.core, StepCreate(s, e).core, s.born)
  {
    if StepCreate(s, e) == s { return; }
  }

  lemma EndpointCalm(s: State, e: Event)
    requires TablesOk(s.core, s.born) && OpsOk(s) && EndpointEvent(e)
    ensures Calm(s.core, StepEndpoint(s, e).core, s.born)
  {
    var s' := StepEndpoint(s, e);
    if e.Removed? && s' != s {
      assert OpOk(s, e.op, s.ops[e.op]);
      var _ := RemoveEffect(s.core, s.born, s.ops[e.op].sid, s.ops[e.op].eid, s.ops[e.op].captured);
    }
  }

  lemma TeardownCalm(s: State, e: Event)
    requires TablesOk(s.core, s.born) && TeardownEvent(e)
    ensures Calm(s.core, StepTeardown(s, e).core, s.born)
  {
    match e
    case Destroyed(op, active, now) =>
      if op in s.ops && s.ops[op].Destroying? { DropCalm(s.core, s.born, s.ops[op].sid, active, now); }
    case SocketClosed(sid, active, now) => DropCalm(s.core, s.born, sid, active, now);
    case OwnerLeft(_, order, active, now) => DropAllCalm(s.core, s.born, order, active, now);
    case ShutdownDestroyed(sid, active, now) => DropCalm(s.core, s.born, sid, active, now);
    case _ =>
  }

  predicate SameHolders(s: State, s': State) {
    && (forall o | o in s'.ops && s'.ops[o].Gathering? && s'.ops[o].sensitive ::
          o in s.ops && s.ops[o].Gathering? && s.ops[o].sensitive && s.ops[o].eid == s'.ops[o].eid)
    && (forall o | o in s.ops && s.ops[o].Gathering? && s.ops[o].sensitive ::
          o in s'.ops && s'.ops[o].Gathering? && s'.ops[o].sensitive && s.ops[o].eid == s'.ops[o].eid)
  }

  predicate HoldersKept(s: State, s': State) {
    SameHolders(s, s') && s'.stuck == s.stuck && s.born.Keys <= s'.born.Keys
  }

  lemma CreateHolders(s: State, e: Event)
    requires CreateEvent(e)
    ensures HoldersKept(s, StepCreate(s, e))
  {
    if StepCreate(s, e) == s { return; }
    match e {
      case Admit(_, _, _) => return;
      case Pick(_, _, _) => return;
      case RegisterPick(_, _) => return;
      case Opened(_, _, _, _) => return;
      case Configured(_, _, _) => return;
      case Unwound(_, _, _) => return;
      case SweepPins(_, _) => return;
    }
  }

  lemma EndpointHolders(s: State, e: Event)
    requires EndpointEvent(e)
    ensures HoldersKept(s, StepEndpoint(s, e))
  {
    if StepEndpoint(s, e) == s { return; }
  }

  lemma TeardownHolders(s: State, e: Event)
    requires TeardownEvent(e)
    ensures HoldersKept(s, StepTeardown(s, e))
  {
  }

  lemma RedactTables(s: State, e: Event)
    requires TablesOk(s.core, s.born) && OpsOk(s) && Redacting(s) && !ActionEvent(e)
    ensures Redacting(Step(s, e))
  {
    if CreateEvent(e) {
      CreateHolders(s, e);
      CreateCalm(s, e);
      RedactCarry(s, StepCreate(s, e));
    } else if EndpointEvent(e) {
      EndpointHolders(s, e);
      EndpointCalm(s, e);
      RedactCarry(s, StepEndpoint(s, e));
    } else {
      TeardownHolders(s, e);
      TeardownCalm(s, e);
      RedactCarry(s, StepTeardown(s, e));
    }
  }

  lemma TryCollectCalm(s: State, op: OpId)
    requires op in s.ops && s.ops[op].Gathering?
    ensures var s' := TryCollect(s, op);
            && s'.core.sensitive == s.core.sensitive && s'.stuck == s.stuck
            && s'.core.index == s.core.index && s'.core.live == s.core.live && s'.core.records == s.core.records
  {
  }

  lemma PlaybackCalm(s: State, op: OpId, peid: Option<EndpointId>)
    requires TablesOk(s.core, s.born) && OpsOk(s)
    ensures var s' := StepAction(s, PlaybackReady(op, peid)); Calm(s.core, s'.core, s.born) && s'.stuck == s.stuck
  {
    var s' := StepAction(s, PlaybackReady(op, peid));
    if s' == s || peid.None? { return; }
    TryCollectCalm(AddTo(s, s.ops[op].sid, peid.value, Plain(File)), op);
  }

  lemma GatherCalm(s: State, e: Event)
    requires (e.BeginGather? && !e.sensitive) || (e.Enabled? && e.ok)
    ensures var s' := StepAction(s, e); Calm(s.core, s'.core, s.born) && s'.stuck == s.stuck
  {
    var s' := StepAction(s, e);
    if s' == s { return; }
    if e.Enabled? {
      if !s.ops[e.op].play { TryCollectCalm(s, e.op); }
      return;
    }
    if !e.play {
      TryCollectCalm(s.(ops := s.ops[e.op := Gathering(e.sid, e.eid, e.sensitive, e.play, e.valid, Playing)]), e.op);
    }
  }

  lemma ActionCalm(s: State, e: Event)
    requires TablesOk(s.core, s.born) && OpsOk(s) && ActionEvent(e)
    requires !(e.BeginGather? && e.sensitive) && !(e.Enabled? && !e.ok) && !e.Disabled?
    ensures var s' := StepAction(s, e); Calm(s.core, s'.core, s.born) && s'.stuck == s.stuck
  {
    if StepAction(s, e) == s { return; }
    match e {
      case PlaybackReady(op, peid) => PlaybackCalm(s, op, peid); return;
      case BeginGather(_, _, _, _, _, _) => GatherCalm(s, e); return;
      case Enabled(_, _) => GatherCalm(s, e); return;
      case Collected(_, _) => return;
      case Resume(_) => return;
      case BeginLeave(_, _, _) => return;
      case EndLeave(_) => return;
      case Forward(_, _) => return;
      case _ => return;
    }
  }

  lemma ActionHolders(s: State, e: Event)
    requires ActionEvent(e)
    requires !(e.BeginGather? && e.sensitive) && !(e.Enabled? && !e.ok) && !e.Disabled?
    ensures SameHolders(s, StepAction(s, e))
  {
    if e.Forward? || StepAction(s, e) == s { return; }
    OnlyThisOp(s, e);
    OwnHolder(s, e);
  }

  predicate IsHolder(s: State, o: OpId) {
    o in s.ops && s.ops[o].Gathering? && s.ops[o].sensitive
  }

  lemma OwnHolder(s: State, e: Event)
    requires ActionEvent(e) && !e.Forward? && StepAction(s, e) != s
    requires !(e.BeginGather? && e.sensitive) && !(e.Enabled? && !e.ok) && !e.Disabled?
    ensures IsHolder(StepAction(s, e), e.op) <==> IsHolder(s, e.op)
    ensures IsHolder(s, e.op) ==> StepAction(s, e).ops[e.op].eid == s.ops[e.op].eid
  {
    match e {
      case BeginGather(_, _, _, _, _, _) => return;
      case Enabled(_, _) => return;
      case PlaybackReady(_, _) => return;
      case Collected(_, _) => return;
      case Resume(_) => return;
      case BeginLeave(_, _, _) => return;
      case EndLeave(_) => return;
      case _ => return;
    }
  }

  lemma OnlyThisOp(s: State, e: Event)
    requires ActionEvent(e) && !e.Forward?
    ensures forall o :: o != e.op ==>
                          && (o in StepAction(s, e).ops <==> o in s.ops)
                          && (o in s.ops ==> StepAction(s, e).ops[o] == s.ops[o])
  {
    if StepAction(s, e) == s { return; }
    match e {
      case BeginGather(_, _, _, _, _, _) => return;
      case Enabled(_, _) => return;
      case PlaybackReady(_, _) => return;
      case Collected(_, _) => return;
      case Resume(_) => return;
      case Disabled(_, _) => return;
      case BeginLeave(_, _, _) => return;
      case EndLeave(_) => return;
      case _ => return;
    }
  }

  lemma RedactAction(s: State, e: Event)
    requires TablesOk(s.core, s.born) && OpsOk(s) && Redacting(s) && ActionEvent(e)
    ensures Redacting(StepAction(s, e))
  {
    if e.BeginGather? && e.sensitive {
      RedactBegin(s, e);
    } else if (e.Enabled? && !e.ok) || e.Disabled? {
      RedactEnd(s, e);
    } else {
      ActionCalm(s, e);
      ActionHolders(s, e);
      RedactCarry(s, StepAction(s, e));
    }
  }

  lemma RedactBegin(s: State, e: Event)
    requires TablesOk(s.core, s.born) && OpsOk(s) && Redacting(s) && e.BeginGather? && e.sensitive
    ensures Redacting(StepAction(s, e))
  {
    var s' := StepAction(s, e);
    if s' != s {
      assert Tracked(s.core, e.eid);
      forall o, x | o in s'.ops && Holder(s'.ops[o], x)
        ensures (o == e.op && x == e.eid) || (o in s.ops && Holder(s.ops[o], x) && x != e.eid)
      {
      }
      assert Holder(s'.ops[e.op], e.eid);
      forall x | x in s'.core.sensitive && x !in s'.stuck
        ensures exists o :: o in s'.ops && Holder(s'.ops[o], x)
      {
        if x != e.eid {
          var o :| o in s.ops && Holder(s.ops[o], x);
          assert o in s'.ops && Holder(s'.ops[o], x);
        }
      }
    }
  }

  /** The sensitive gather of e.op is over, and it was the only one on its endpoint. */
  lemma HolderGone(s: State, e: Event)
    requires OpsOk(s) && Redacting(s) && ((e.Enabled? && !e.ok) || e.Disabled?) && StepAction(s, e) != s
    ensures e.op in s.ops && s.ops[e.op].Gathering? && s.ops[e.op].eid in s.born && Holder(s.ops[e.op], s.ops[e.op].eid)
    ensures var s' := StepAction(s, e);
            forall o, x :: (o in s'.ops && Holder(s'.ops[o], x)) <==> (o in s.ops && Holder(s.ops[o], x) && x != s.ops[e.op].eid)
  {
    assert OpOk(s, e.op, s.ops[e.op]);
    assert Holder(s.ops[e.op], s.ops[e.op].eid);
  }

  /** The sets after the end of a sensitive gather. */
  lemma EndedSets(s: State, e: Event)
    requires ((e.Enabled? && !e.ok) || e.Disabled?) && StepAction(s, e) != s
    ensures e.op in s.ops && s.ops[e.op].Gathering?
    ensures var s', eid := StepAction(s, e), s.ops[e.op].eid;
            && s'.born == s.born && s'.core.index == s.core.index && s'.core.live == s.core.live
            && (if e.ok || e.Enabled? then s'.core.sensitive == s.core.sensitive - {eid} && s'.stuck == s.stuck
                else s'.core.sensitive == s.core.sensitive && s'.stuck == s.stuck + {eid})
  {
  }

  lemma RedactEnd(s: State, e: Event)
    requires TablesOk(s.core, s.born) && OpsOk(s) && Redacting(s) && ((e.Enabled? && !e.ok) || e.Disabled?)
    ensures Redacting(StepAction(s, e))
  {
    var s' := StepAction(s, e);
    if s' == s { return; }
    HolderGone(s, e);
    EndedSets(s, e);
    var eid := s.ops[e.op].eid;
    forall x | x in s'.core.sensitive && x !in s'.stuck
      ensures exists o :: o in s'.ops && Holder(s'.ops[o], x)
    {
      var o :| o in s.ops && Holder(s.ops[o], x);
      assert o in s'.ops && Holder(s'.ops[o], x);
    }
  }
}
