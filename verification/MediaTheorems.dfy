/** What holds of the media sessions in every run, whatever the order of RPC answers, socket closes,
    owner disconnects and shutdown. */
module MediaTheorems {
  import opened Prelude
  import opened BackendPins
  import opened MediaCore
  import opened MediaSystem
  import opened MediaInvariants
  import opened MediaPins

  lemma {:induction false} DropAllLive(c: Core, order: seq<SessionId>, active: set<CallId>, now: int)
    requires c.live <= c.records.Keys
    ensures var c' := DropAll(c, order, active, now);
            && c'.live <= c.live && c'.records.Keys == c.records.Keys
            && (forall s :: s in c.records ==> c'.records[s].owner == c.records[s].owner)
    decreases |order|
  {
    if order != [] {
      DropKeepsLiveRecorded(c, order[0], active, now);
      DropAllLive(Drop(c, order[0], active, now), order[1..], active, now);
    }
  }

  lemma ClosingStep(s: State, e: Event)
    requires s.core.live <= s.core.records.Keys && ClosingOk(s)
    ensures ClosingOk(Step(s, e))
    ensures s.stopping ==> Step(s, e).stopping && Step(s, e).core.live <= s.core.live
  {
    if CreateEvent(e) {
      CreateShrinks(s, e);
    } else if EndpointEvent(e) {
      EndpointLeavesSessions(s, e);
      EndpointKeepsClosing(s, e);
    } else if TeardownEvent(e) {
      TeardownShrinks(s, e);
    } else {
      ActionLeavesSessions(s, e);
      ActionKeepsClosing(s, e);
    }
  }

  lemma EndpointKeepsClosing(s: State, e: Event)
    requires EndpointEvent(e)
    ensures var s' := StepEndpoint(s, e); s'.stopping == s.stopping && s'.closing == s.closing
  {
  }

  lemma ActionKeepsClosing(s: State, e: Event)
    requires ActionEvent(e)
    ensures var s' := StepAction(s, e); s'.stopping == s.stopping && s'.closing == s.closing
  {
  }

  lemma CreateShrinks(s: State, e: Event)
    requires ClosingOk(s) && CreateEvent(e)
    ensures var s' := StepCreate(s, e);
            ClosingOk(s') && s'.stopping == s.stopping && (s.stopping ==> s'.core.live == s.core.live)
  {
  }

  lemma TeardownShrinks(s: State, e: Event)
    requires s.core.live <= s.core.records.Keys && ClosingOk(s) && TeardownEvent(e)
    ensures var s' := StepTeardown(s, e);
            ClosingOk(s') && s'.core.live <= s.core.live && (s.stopping ==> s'.stopping)
  {
    if e.OwnerLeft? { DropAllLive(s.core, e.order, e.active, e.now); }
  }

  lemma InvStep(s: State, e: Event)
    requires Inv(s)
    ensures Inv(Step(s, e))
  {
    TablesStep(s, e);
    ClosingStep(s, e);
    if CreateEvent(e) {
      OpsCreate(s, e);
      RedactTables(s, e);
      PinsCreate(s, e);
    } else if EndpointEvent(e) {
      OpsEndpoint(s, e);
      RedactTables(s, e);
      PinsEndpoint(s, e);
    } else if TeardownEvent(e) {
      OpsTeardown(s, e);
      RedactTables(s, e);
      PinsTeardown(s, e);
    } else {
      OpsAction(s, e);
      RedactAction(s, e);
      PinsAction(s, e);
    }
  }

  lemma {:induction false} RunInv(events: seq<Event>)
    ensures Inv(StateAfter(events))
    decreases |events|
  {
    if events == [] {
      InitInv();
    } else {
      RunInv(events[..|events| - 1]);
      InvStep(StateAfter(events[..|events| - 1]), events[|events| - 1]);
    }
  }

  lemma RunSnoc(events: seq<Event>, e: Event)
    ensures StateAfter(events + [e]) == Step(StateAfter(events), e)
  {
    assert (events + [e])[..|events|] == events;
  }

  /** The last step of a continuation. */
  lemma RunSplit(events: seq<Event>, more: seq<Event>)
    requires more != []
    ensures var init, last := more[..|more| - 1], more[|more| - 1];
            StateAfter(events + more) == Step(StateAfter(events + init), last)
  {
    var init, last := more[..|more| - 1], more[|more| - 1];
    assert events + more == (events + init) + [last];
    RunSnoc(events + init, last);
  }

  // ----- pins

  /** For every call: with a registered client the pin is there, its count is the number of clients
      registered and not yet unregistered, and each of them uses the pinned backend. */
  lemma PinCountsClients(events: seq<Event>, c: CallId)
    ensures var s := StateAfter(events);
            var clients := |OpHolders(s.ops, c)| + |LiveHolders(s.core, c)|;
            && (clients > 0 ==> c in s.core.mgr.pins)
            && (c in s.core.mgr.pins ==>
                  var pin := s.core.mgr.pins[c];
                  && pin.refs == clients
                  && (forall o :: o in OpHolders(s.ops, c) ==> s.ops[o].backend == pin.backend)
                  && (forall x :: x in LiveHolders(s.core, c) ==> s.core.records[x].backend == pin.backend))
  {
    RunInv(events);
    assert PinOk(StateAfter(events), c);
  }

  /** Sessions of one call never meet the cross-backend refusal of bridge. */
  lemma OneCallOneBackend(events: seq<Event>, a: SessionId, b: SessionId)
    requires var c := StateAfter(events).core;
             a in c.live && b in c.live && a in c.records && b in c.records
             && c.records[a].callId.Some? && c.records[a].callId == c.records[b].callId
    ensures var c := StateAfter(events).core;
            c.records[a].backend == c.records[b].backend && BridgeRefusal(c, a, b) == if a == b then Some(SelfBridge) else None
  {
    RunInv(events);
    var s := StateAfter(events);
    var call := s.core.records[a].callId.value;
    assert PinOk(s, call);
    assert a in LiveHolders(s.core, call) && b in LiveHolders(s.core, call);
  }

  lemma HeldPin(s: State, c: CallId)
    requires Inv(s) && Refs(s, c) > 0
    ensures c in s.core.mgr.pins && s.core.mgr.pins[c].refs > 0
  {
    assert PinOk(s, c);
  }

  /** While a call has clients its pin does not move to another backend. */
  lemma {:induction false} PinDoesNotMove(events: seq<Event>, e: Event, c: CallId)
    requires var s := StateAfter(events); Refs(s, c) > 0 && Refs(Step(s, e), c) > 0
    ensures var s := StateAfter(events);
            var pins, pins' := s.core.mgr.pins, Step(s, e).core.mgr.pins;
            c in pins && c in pins' && pins'[c].backend == pins[c].backend
  {
    var s := StateAfter(events);
    RunInv(events);
    InvStep(s, e);
    HeldPin(s, c);
    HeldPin(Step(s, e), c);
    PinsAfterStep(s, e, c);
  }

  /** A step changes the backend of an existing pin only by deleting it first. */
  lemma PinsAfterStep(s: State, e: Event, c: CallId)
    requires s.core.live <= s.core.records.Keys && c in s.core.mgr.pins && c in Step(s, e).core.mgr.pins
    ensures Step(s, e).core.mgr.pins[c].backend == s.core.mgr.pins[c].backend
  {
    if CreateEvent(e) {
      CreatePins(s, e, c);
    } else if EndpointEvent(e) {
      EndpointLeavesSessions(s, e);
    } else if TeardownEvent(e) {
      TeardownPins(s, e, c);
    } else {
      ActionLeavesSessions(s, e);
    }
  }

  lemma CreatePins(s: State, e: Event, c: CallId)
    requires CreateEvent(e) && c in s.core.mgr.pins && c in StepCreate(s, e).core.mgr.pins
    ensures StepCreate(s, e).core.mgr.pins[c].backend == s.core.mgr.pins[c].backend
  {
    if e.Pick? && StepCreate(s, e) != s { PickHonoursPin(s.core.mgr, e.backends, None, s.ops[e.op].callId, e.now); }
  }

  lemma TeardownPins(s: State, e: Event, c: CallId)
    requires s.core.live <= s.core.records.Keys && TeardownEvent(e)
    requires c in s.core.mgr.pins && c in StepTeardown(s, e).core.mgr.pins
    ensures StepTeardown(s, e).core.mgr.pins[c].backend == s.core.mgr.pins[c].backend
  {
    if e.OwnerLeft? && StepTeardown(s, e) != s { DropAllPins(s.core, e.order, e.active, e.now, c); }
  }

  lemma {:induction false} DropAllPins(core: Core, order: seq<SessionId>, active: set<CallId>, now: int, c: CallId)
    requires core.live <= core.records.Keys && c in DropAll(core, order, active, now).mgr.pins
    ensures c in core.mgr.pins && DropAll(core, order, active, now).mgr.pins[c].backend == core.mgr.pins[c].backend
    decreases |order|
  {
    if order != [] {
      DropKeepsLiveRecorded(core, order[0], active, now);
      DropAllPins(Drop(core, order[0], active, now), order[1..], active, now, c);
    }
  }

  // ----- endpoint index and bridges

  /** For live sessions the index is the exact inverse of the endpoint maps. */
  lemma {:induction false} IndexIsInverse(events: seq<Event>, sid: SessionId, eid: EndpointId)
    requires sid in StateAfter(events).core.live
    ensures var c := StateAfter(events).core; Has(c, sid, eid) <==> eid in c.index && c.index[eid] == sid
  {
    RunInv(events);
    var c := StateAfter(events).core;
    if eid in c.index && c.index[eid] == sid { assert Tracked(c, eid); }
  }

  /** Each live bridge endpoint names an endpoint of another live session that names it back. */
  lemma {:induction false} BridgesArePaired(events: seq<Event>, sid: SessionId, eid: EndpointId)
    requires var c := StateAfter(events).core; sid in c.live && Has(c, sid, eid) && c.records[sid].endpoints[eid].Bridge?
    ensures var c := StateAfter(events).core;
            var ep := c.records[sid].endpoints[eid];
            && ep.peerSession != sid && ep.peerSession in c.live && Has(c, ep.peerSession, ep.peerEndpoint)
            && c.records[ep.peerSession].endpoints[ep.peerEndpoint] == Bridge(sid, eid)
  {
    RunInv(events);
    var s := StateAfter(events);
    assert s.born[eid] == (sid, s.core.records[sid].endpoints[eid]);
  }

  /** The index is exact for live sessions only: an endpoint whose RPC answers after its session went
      is indexed all the same. */
  lemma LateEndpointIsIndexed() returns (events: seq<Event>)
    ensures var c := StateAfter(events).core; 7 in c.index && c.index[7] !in c.live
  {
    var one := OneLiveSession();
    var e1 := one + [BeginAdd(1, 5, Webrtc)];
    var e2 := e1 + [SocketClosed(5, {}, 0)];
    events := e2 + [Added(1, 7)];
    RunSnoc(one, BeginAdd(1, 5, Webrtc));
    RunSnoc(e1, SocketClosed(5, {}, 0));
    RunSnoc(e2, Added(1, 7));
    AddedLate(StateAfter(one));
  }

  lemma AddedLate(s: State)
    requires s.ops == map[] && s.born == map[] && s.core.runs == map[] && s.core.live == s.core.records.Keys == {5}
    ensures var c := Step(Step(Step(s, BeginAdd(1, 5, Webrtc)), SocketClosed(5, {}, 0)), Added(1, 7)).core;
            7 in c.index && c.index[7] !in c.live
  {
    var asked := s.(ops := map[1 := Adding(5, Webrtc)]);
    assert Step(s, BeginAdd(1, 5, Webrtc)) == asked;
    DropKeepsLiveRecorded(s.core, 5, {}, 0);
    var closed := asked.(core := Drop(s.core, 5, {}, 0));
    assert Step(asked, SocketClosed(5, {}, 0)) == closed;
    AnsweredLate(closed);
  }

  lemma AnsweredLate(s: State)
    requires s.ops == map[1 := Adding(5, Webrtc)] && s.born == map[] && 5 in s.core.records && s.core.live == {}
    ensures var c := Step(s, Added(1, 7)).core; 7 in c.index && c.index[7] !in c.live
  {
  }

  lemma OneLiveSession() returns (events: seq<Event>)
    ensures var s := StateAfter(events);
            s.ops == map[] && s.born == map[] && s.core.runs == map[] && s.core.live == s.core.records.Keys == {5}
  {
    var waiting := OpenedFor(None);
    events := waiting + [Configured(0, true, 5)];
    RunSnoc(waiting, Configured(0, true, 5));
  }

  /** A session creation that has its client and waits for session.create. */
  lemma OpenedFor(owner: Option<ConnectionId>) returns (events: seq<Event>)
    ensures |events| == 4 && StateAfter(events) == INIT.(ops := map[0 := Configuring(None, owner, 1)])
  {
    var b := Some([Backend(1, None)]);
    var admitted := [Admit(0, None, owner)];
    var e1 := admitted + [Pick(0, b, 0)];
    var e2 := e1 + [RegisterPick(0, 0)];
    events := e2 + [Opened(0, true, {}, 0)];
    assert Accepting(b.value) == b.value;
    RunSnoc([], Admit(0, None, owner));
    assert StateAfter(admitted) == INIT.(ops := map[0 := Discovering(None, owner)]);
    RunSnoc(admitted, Pick(0, b, 0));
    assert StateAfter(e1) == INIT.(ops := map[0 := Picked(None, owner, 1)]);
    RunSnoc(e1, RegisterPick(0, 0));
    RunSnoc(e2, Opened(0, true, {}, 0));
  }

  // ----- endpoint actions

  /** At most one unreleased run per tracked endpoint, and it is the one that holds the claim. */
  lemma {:induction false} OneClaimPerEndpoint(events: seq<Event>, r: OpId, r': OpId)
    requires var c := StateAfter(events).core;
             && r in c.runs && r' in c.runs && !c.runs[r].released && !c.runs[r'].released
             && c.runs[r].endpoint == c.runs[r'].endpoint && Tracked(c, c.runs[r].endpoint)
    ensures r == r' && HoldsClaim(StateAfter(events).core, r)
  {
    RunInv(events);
  }

  /** Every claim and every unreleased run belongs to an operation that is still under way: once an
      operation is over, on whatever path, its claim is gone. */
  lemma FinishedRunsRelease(events: seq<Event>, r: OpId)
    requires r !in StateAfter(events).ops
    ensures var c := StateAfter(events).core;
            (r in c.runs ==> c.runs[r].released) && forall e :: e in c.claims ==> c.claims[e] != r
  {
    RunInv(events);
    var s := StateAfter(events);
    assert r in s.core.runs && !s.core.runs[r].released ==> Owns(s, r);
  }

  // ----- sensitive DTMF

  predicate Shields(s: State, e: EndpointId) {
    e in s.stuck || exists o | o in s.ops :: Holder(s.ops[o], e)
  }

  /** From the start of a sensitive gather until rtpbridge confirms that sensitive mode is off, every
      DTMF digit published for a tracked endpoint is masked. */
  lemma {:induction false} SensitiveDigitsAreMasked(events: seq<Event>, e: EndpointId, sid: SessionId, digit: string, flagged: bool)
    requires Shields(StateAfter(events), e) && Tracked(StateAfter(events).core, e)
    requires sid in StateAfter(events).core.records
    ensures var s := StateAfter(events);
            var s' := Step(s, Forward(sid, Dtmf(Some(e), digit, flagged)));
            var owner := s.core.records[sid].owner;
            s'.published == s.published + if owner.Some? then [(owner.value, Dtmf(Some(e), "~", true))] else []
  {
    RunInv(events);
  }

  /** Masking touches nothing else: events of other kinds and digits of endpoints that nobody shields
      go out as they came. */
  lemma OtherDigitsPass(events: seq<Event>, ev: BridgeEvent)
    requires ev.Dtmf? ==> !ev.flagged && (ev.endpoint.Some? ==> !Shields(StateAfter(events), ev.endpoint.value))
    ensures Redact(ev, StateAfter(events).core.sensitive) == ev
  {
    RunInv(events);
  }

  /** What rtpbridge itself flags is masked, with or without a sensitive gather here, and whether or not the event
      names its endpoint. */
  lemma FlaggedDigitsAreMasked(events: seq<Event>, sid: SessionId, owner: ConnectionId, ep: Option<EndpointId>, digit: string)
    requires sid in StateAfter(events).core.records && StateAfter(events).core.records[sid].owner == Some(owner)
    ensures var s := StateAfter(events);
            Step(s, Forward(sid, Dtmf(ep, digit, true))) == s.(published := s.published + [(owner, Dtmf(ep, "~", true))])
  {
  }

  /** An event of a session makes one event for its owner and changes nothing else. It arrives as it came, unless it is
      a digit that is flagged or whose endpoint is in the sensitive set; sessions without an owner tell nobody. */
  lemma ForwardedOnce(events: seq<Event>, sid: SessionId, ev: BridgeEvent)
    requires sid in StateAfter(events).core.records
    ensures var s, s' := StateAfter(events), Step(StateAfter(events), Forward(sid, ev));
            var owner := s.core.records[sid].owner;
            if owner.None? then s' == s
            else
              && |s'.published| == |s.published| + 1 && s'.published[..|s.published|] == s.published
              && s' == s.(published := s'.published) && s'.published[|s.published|].0 == owner.value
              && var sent := s'.published[|s.published|].1;
              if ev.Dtmf? && (ev.flagged || (ev.endpoint.Some? && ev.endpoint.value in s.core.sensitive))
              then sent == Dtmf(ev.endpoint, "~", true) else sent == ev
  {
    var s := StateAfter(events);
    if s.core.records[sid].owner.None? { return; }
    assert Step(s, Forward(sid, ev)).published[..|s.published|] == s.published;
  }

  /** No digit in clear: in every run, what was ever sent as a digit other than `~` was not flagged. */
  lemma {:induction false} ClearDigitsWereNotFlagged(events: seq<Event>, i: nat)
    requires i < |StateAfter(events).published| && StateAfter(events).published[i].1.Dtmf?
    ensures StateAfter(events).published[i].1.digit != "~" ==> !StateAfter(events).published[i].1.flagged
    decreases |events|
  {
    var init, last := events[..|events| - 1], events[|events| - 1];
    var s := StateAfter(init);
    if i < |s.published| {
      PublishedStays(s, last);
      ClearDigitsWereNotFlagged(init, i);
      return;
    }
    PublishedStays(s, last);
    ForwardedOnce(init, last.sid, last.ev);
  }

  lemma PublishedStays(s: State, e: Event)
    ensures s.published <= Step(s, e).published
    ensures |Step(s, e).published| > |s.published| ==>
              e.Forward? && e.sid in s.core.records && |Step(s, e).published| == |s.published| + 1
  {
    if CreateEvent(e) { return; }
    if EndpointEvent(e) { return; }
    if TeardownEvent(e) { return; }
    ActionPublishes(s, e);
  }

  lemma ActionPublishes(s: State, e: Event)
    requires ActionEvent(e)
    ensures s.published <= StepAction(s, e).published
    ensures |StepAction(s, e).published| > |s.published| ==>
              e.Forward? && e.sid in s.core.records && |StepAction(s, e).published| == |s.published| + 1
  {
    match e {
      case BeginGather(_, _, _, _, _, _) => return;
      case Enabled(_, _) => return;
      case PlaybackReady(_, _) => return;
      case _ => return;
    }
  }

  lemma {:induction false} OneSensitiveHolder(events: seq<Event>, o: OpId, o': OpId, e: EndpointId)
    requires var s := StateAfter(events); o in s.ops && o' in s.ops && Holder(s.ops[o], e) && Holder(s.ops[o'], e)
    ensures o == o'
  {
    RunInv(events);
  }

  lemma {:induction false} StuckStays(events: seq<Event>, more: seq<Event>, e: EndpointId)
    requires e in StateAfter(events).stuck
    ensures e in StateAfter(events + more).stuck
    decreases |more|
  {
    if more == [] {
      assert events + more == events;
    } else {
      var init, last := more[..|more| - 1], more[|more| - 1];
      StuckStays(events, init, e);
      RunSplit(events, more);
      StuckStep(StateAfter(events + init), last);
    }
  }

  lemma StuckStep(s: State, e: Event)
    ensures s.stuck <= Step(s, e).stuck
  {
    if CreateEvent(e) {
      CreateHolders(s, e);
    } else if EndpointEvent(e) {
      EndpointHolders(s, e);
    } else if TeardownEvent(e) {
      TeardownHolders(s, e);
    }
  }

  /** Fail closed: when switching sensitive mode off fails, digits of the endpoint stay masked in every
      continuation for as long as the endpoint is tracked. */
  lemma FailedDisableKeepsMasking(events: seq<Event>, op: OpId, more: seq<Event>, sid: SessionId, digit: string)
    requires InPhase(StateAfter(events), op, Disabling)
    requires var e := StateAfter(events).ops[op].eid;
             var c := StateAfter(events + [Disabled(op, false)] + more).core;
             Tracked(c, e) && sid in c.records && c.records[sid].owner.Some?
    ensures var e := StateAfter(events).ops[op].eid;
            var s := StateAfter(events + [Disabled(op, false)] + more);
            Step(s, Forward(sid, Dtmf(Some(e), digit, false))).published
            == s.published + [(s.core.records[sid].owner.value, Dtmf(Some(e), "~", true))]
  {
    var e := StateAfter(events).ops[op].eid;
    RunSnoc(events, Disabled(op, false));
    StuckStays(events + [Disabled(op, false)], more, e);
    SensitiveDigitsAreMasked(events + [Disabled(op, false)] + more, e, sid, digit, false);
  }

  // ----- owners and shutdown

  lemma OwnerLeftTakes(s: State, owner: ConnectionId, order: seq<SessionId>, active: set<CallId>, now: int)
    requires Inv(s) && OwnedOrder(s.core, owner, order)
    ensures var c' := Step(s, OwnerLeft(owner, order, active, now)).core;
            && c'.live == s.core.live - (set x | x in order) && c'.live <= c'.records.Keys
            && forall x :: x in c'.live ==> c'.records[x].owner != Some(owner)
  {
    DropAllLive(s.core, order, active, now);
    assert forall x :: x in s.core.live ==> x in s.core.records;
  }

  /** When a control connection goes, none of its sessions is live any more at the end of the step. */
  lemma {:induction false} OwnerTakesItsSessions(
    events: seq<Event>, owner: ConnectionId, order: seq<SessionId>, active: set<CallId>, now: int)
    requires OwnedOrder(StateAfter(events).core, owner, order)
    ensures var c := StateAfter(events).core;
            var c' := Step(StateAfter(events), OwnerLeft(owner, order, active, now)).core;
            && c'.live == c.live - (set x | x in order) && c'.live <= c'.records.Keys
            && forall x :: x in c'.live ==> c'.records[x].owner != Some(owner)
  {
    RunInv(events);
    OwnerLeftTakes(StateAfter(events), owner, order, active, now);
  }

  lemma CreateNewSession(s: State, e: Event, x: SessionId)
    requires CreateEvent(e) && s.core.live <= s.core.records.Keys && x !in s.core.live
    ensures x in StepCreate(s, e).core.live <==> Publishes(s, e, x)
    ensures Publishes(s, e, x) ==> x in StepCreate(s, e).core.records && StepCreate(s, e).core.records[x].owner == s.ops[e.op].owner
  {
    if StepCreate(s, e) == s { return; }
  }

  /** The last await of a session creation ends well on a running gateway. */
  predicate Publishes(s: State, e: Event, x: SessionId) {
    e.Configured? && e.ok && !s.stopping && e.sid == x && x !in s.core.records && e.op in s.ops && s.ops[e.op].Configuring?
  }

  lemma TeardownNewSession(s: State, e: Event, x: SessionId)
    requires TeardownEvent(e) && s.core.live <= s.core.records.Keys && x !in s.core.live
    ensures x !in StepTeardown(s, e).core.live
  {
    if e.OwnerLeft? {
      DropAllLive(s.core, e.order, e.active, e.now);
      return;
    }
    if StepTeardown(s, e) == s { return; }
  }

  /** A session appears exactly when the creation of its own owner completes on a running gateway. */
  lemma {:induction false} NewSessionsComeFromCreations(events: seq<Event>, e: Event, x: SessionId)
    requires x !in StateAfter(events).core.live
    ensures var s, s' := StateAfter(events), Step(StateAfter(events), e);
            && (x in s'.core.live <==> Publishes(s, e, x))
            && (x in s'.core.live ==> x in s'.core.records && s'.core.records[x].owner == s.ops[e.op].owner)
  {
    var s := StateAfter(events);
    RunInv(events);
    if CreateEvent(e) {
      CreateNewSession(s, e, x);
      return;
    }
    if EndpointEvent(e) {
      EndpointLeavesSessions(s, e);
      return;
    }
    if TeardownEvent(e) {
      TeardownNewSession(s, e, x);
      return;
    }
    ActionLeavesSessions(s, e);
  }

  /** A creation in flight is not checked again: its session appears after its owner has gone. */
  lemma CreationOutlivesOwner() returns (events: seq<Event>)
    ensures var s := StateAfter(events); 5 in s.core.live && 5 in s.core.records && s.core.records[5].owner == Some(9)
    ensures |events| == 6 && events[4] == OwnerLeft(9, [], {}, 0)
  {
    var waiting := OpenedFor(Some(9));
    var left := waiting + [OwnerLeft(9, [], {}, 0)];
    events := left + [Configured(0, true, 5)];
    RunSnoc(waiting, OwnerLeft(9, [], {}, 0));
    RunSnoc(left, Configured(0, true, 5));
  }

  /** Once the gateway is stopping no session is ever added, whatever was in flight. */
  lemma {:induction false} StoppingAddsNoSession(events: seq<Event>, e: Event)
    requires StateAfter(events).stopping
    ensures StateAfter(events + [e]).stopping && StateAfter(events + [e]).core.live <= StateAfter(events).core.live
  {
    RunInv(events);
    RunSnoc(events, e);
    ClosingStep(StateAfter(events), e);
  }

  /** When the shutdown has destroyed the sessions it listed there is no session left. */
  lemma {:induction false} ShutdownLeavesNoSession(events: seq<Event>)
    requires StateAfter(events).stopping && StateAfter(events).closing == {}
    ensures StateAfter(events).core.live == {}
  {
    RunInv(events);
  }
}
