/** A run of the whole gateway is a run of each of its parts: what is proved of the lifecycle, of SIP calls and of media
    sessions alone holds in the gateway. And what the parts bring about together: when an idle gateway stops, what a
    lost control connection takes, and what is admitted. */
module GatewayRuns {
  import opened Prelude
  import L = GatewayLifecycle
  import S = SipCalls
  import SO = SipOrigins
  import M = MediaSystem
  import MediaCore
  import MT = MediaTheorems
  import I = MediaInvariants
  import MP = MediaPins
  import BackendPins
  import opened Gateway
  import opened GatewayTheorems
  import opened Tracking
  import opened SipTracking
  import opened MediaTracking

  // ----- the parts of a step

  function MarkEvents(marks: seq<Mark>): seq<L.Event> {
    if marks == [] then []
    else [if marks[0].Begins? then L.BeginOperation(marks[0].token) else L.FinishOperation(marks[0].token)] + MarkEvents(marks[1..])
  }

  function TimerEvent(g: Gateway, e: Event): L.Event {
    if e.Poll? then L.PollFires(Resources(g)) else L.DeadlineFires(Resources(g))
  }

  predicate StopsAt(g: Gateway, e: Event) {
    (e.Poll? || e.Deadline?) && L.Step(g.life, TimerEvent(g, e)).isStopping && !g.life.isStopping
  }

  ghost function LifePart(g: Gateway, e: Event): seq<L.Event> {
    match e
    case Calls(call) => if call.EDrain? || call.EStop? || call.EOwnerLeft? then [] else MarkEvents(SipMarks(g.sip, call))
    case Sessions(session) =>
      if session.Stop? || session.OwnerLeft? || !Admitted(g, session) then [] else MarkEvents(MediaMarks(g.media, session))
    case OtherBegins(n) => [L.BeginOperation(L.OtherWork(n))]
    case OtherEnds(n) => [L.FinishOperation(L.OtherWork(n))]
    case Drain => [L.StartDrain]
    case Poll => [TimerEvent(g, e)]
    case Deadline => [TimerEvent(g, e)]
    case StopSettles => if g.life.cleanup.None? || !Settled(g) then [] else [L.CleanupSettles]
    case StopTimesOut => [L.CleanupTimesOut]
    case Clock(to) => [L.Advance(to)]
    case Disconnect(_, _, _) => []
  }

  ghost function SipPart(g: Gateway, e: Event): seq<S.Event> {
    match e
    case Calls(call) => if call.EDrain? || call.EStop? || call.EOwnerLeft? then [] else [call]
    case Drain => [S.EDrain]
    case Poll => if StopsAt(g, e) then [S.EStop] else []
    case Deadline => if StopsAt(g, e) then [S.EStop] else []
    case Disconnect(connection, order, _) =>
      if MediaCore.OwnedOrder(g.media.core, connection, order) then [S.EOwnerLeft(connection)] else []
    case _ => []
  }

  ghost function MediaPart(g: Gateway, e: Event): seq<M.Event> {
    match e
    case Sessions(session) =>
      if session.Stop? || session.OwnerLeft? || !Admitted(g, session) then [] else [WithActive(session, S.Taken(g.sip))]
    case Poll => if StopsAt(g, e) then [M.Stop] else []
    case Deadline => if StopsAt(g, e) then [M.Stop] else []
    case Disconnect(connection, order, now) =>
      if MediaCore.OwnedOrder(g.media.core, connection, order) then [MediaLoses(g, connection, order, now)] else []
    case _ => []
  }

  ghost function LifeEvents(start: Gateway, events: seq<Event>): seq<L.Event> {
    if events == [] then []
    else LifeEvents(start, events[..|events| - 1]) + LifePart(StateAfter(start, events[..|events| - 1]), events[|events| - 1])
  }

  ghost function SipEvents(start: Gateway, events: seq<Event>): seq<S.Event> {
    if events == [] then []
    else SipEvents(start, events[..|events| - 1]) + SipPart(StateAfter(start, events[..|events| - 1]), events[|events| - 1])
  }

  ghost function MediaEvents(start: Gateway, events: seq<Event>): seq<M.Event> {
    if events == [] then []
    else MediaEvents(start, events[..|events| - 1]) + MediaPart(StateAfter(start, events[..|events| - 1]), events[|events| - 1])
  }

  // ----- every run is a run of each part

  lemma {:induction false} MarksAreEvents(life: L.Lifecycle, marks: seq<Mark>)
    ensures L.StateAfter(life, MarkEvents(marks)) == Track(life, marks)
    decreases |marks|
  {
    if marks == [] { return; }
    var first := if marks[0].Begins? then L.BeginOperation(marks[0].token) else L.FinishOperation(marks[0].token);
    L.RunGoesOn(life, [first], MarkEvents(marks[1..]));
    OneLifeEvent(life, first);
    MarksAreEvents(L.Step(life, first), marks[1..]);
  }

  lemma OneLifeEvent(life: L.Lifecycle, e: L.Event)
    ensures L.StateAfter(life, [e]) == L.Step(life, e)
  {
    assert [e][..0] == [];
  }

  lemma LifeStep(g: Gateway, e: Event)
    ensures L.StateAfter(g.life, LifePart(g, e)) == Step(g, e).life
  {
    match e {
      case Calls(call) =>
        MarksAreEvents(g.life, SipMarks(g.sip, call));
        return;
      case Sessions(session) =>
        MarksAreEvents(g.life, MediaMarks(g.media, session));
        return;
      case OtherBegins(n) => OneLifeEvent(g.life, L.BeginOperation(L.OtherWork(n))); return;
      case OtherEnds(n) => OneLifeEvent(g.life, L.FinishOperation(L.OtherWork(n))); return;
      case Drain => OneLifeEvent(g.life, L.StartDrain); return;
      case Poll => OneLifeEvent(g.life, TimerEvent(g, e)); return;
      case Deadline => OneLifeEvent(g.life, TimerEvent(g, e)); return;
      case StopSettles => OneLifeEvent(g.life, L.CleanupSettles); return;
      case StopTimesOut => OneLifeEvent(g.life, L.CleanupTimesOut); return;
      case Clock(to) => OneLifeEvent(g.life, L.Advance(to)); return;
      case Disconnect(_, _, _) => return;
    }
  }

  lemma SipStep(g: Gateway, e: Event)
    ensures Step(g, e).sip == if SipPart(g, e) == [] then g.sip else S.Step(g.sip, SipPart(g, e)[0])
    ensures |SipPart(g, e)| <= 1
  {
  }

  lemma MediaStep(g: Gateway, e: Event)
    ensures Step(g, e).media == if MediaPart(g, e) == [] then g.media else M.Step(g.media, MediaPart(g, e)[0])
    ensures |MediaPart(g, e)| <= 1
  {
  }

  /** The lifecycle, the calls and the sessions of the gateway are each where a run of their own has led. */
  lemma {:induction false} PartsRun(now: int, maxWaitMs: nat, cleanupMs: nat, events: seq<Event>)
    ensures var start := Fresh(now, maxWaitMs, cleanupMs);
            var g := StateAfter(start, events);
            && g.life == L.StateAfter(L.Fresh(now, maxWaitMs, cleanupMs), LifeEvents(start, events))
            && g.sip == S.StateAfter(SipEvents(start, events))
            && g.media == M.StateAfter(MediaEvents(start, events))
    decreases |events|
  {
    if events == [] { return; }
    var start, init, last := Fresh(now, maxWaitMs, cleanupMs), events[..|events| - 1], events[|events| - 1];
    PartsRun(now, maxWaitMs, cleanupMs, init);
    var g := StateAfter(start, init);
    LifeStep(g, last);
    L.RunGoesOn(L.Fresh(now, maxWaitMs, cleanupMs), LifeEvents(start, init), LifePart(g, last));
    SipGoesOn(start, init, last);
    MediaGoesOn(start, init, last);
    assert events == init + [last];
  }

  lemma SipGoesOn(start: Gateway, init: seq<Event>, last: Event)
    requires StateAfter(start, init).sip == S.StateAfter(SipEvents(start, init))
    ensures Step(StateAfter(start, init), last).sip == S.StateAfter(SipEvents(start, init) + SipPart(StateAfter(start, init), last))
  {
    var g, so := StateAfter(start, init), SipEvents(start, init);
    var part := SipPart(g, last);
    SipStep(g, last);
    if part == [] {
      assert so + part == so;
      return;
    }
    assert part == [part[0]];
    S.RunSnoc(so, part[0]);
  }

  lemma MediaGoesOn(start: Gateway, init: seq<Event>, last: Event)
    requires StateAfter(start, init).media == M.StateAfter(MediaEvents(start, init))
    ensures Step(StateAfter(start, init), last).media
         == M.StateAfter(MediaEvents(start, init) + MediaPart(StateAfter(start, init), last))
  {
    var g, so := StateAfter(start, init), MediaEvents(start, init);
    var part := MediaPart(g, last);
    MediaStep(g, last);
    if part == [] {
      assert so + part == so;
      return;
    }
    assert part == [part[0]];
    MT.RunSnoc(so, part[0]);
  }

  // ----- an idle gateway stops

  lemma Grouped<T>(a: seq<T>, b: seq<T>, c: seq<T>)
    ensures a + b + c == a + (b + c)
  {
  }

  lemma {:induction false} LifeEventsGoOn(start: Gateway, events: seq<Event>, more: seq<Event>) returns (rest: seq<L.Event>)
    ensures LifeEvents(start, events + more) == LifeEvents(start, events) + rest
    decreases |more|
  {
    hide Step, LifePart, StateAfter;
    if more == [] {
      assert events + more == events;
      assert LifeEvents(start, events) + [] == LifeEvents(start, events);
      return [];
    }
    var init, last := more[..|more| - 1], more[|more| - 1];
    var before := LifeEventsGoOn(start, events, init);
    var part := LifePart(StateAfter(start, events + init), last);
    assert events + more == events + init + [last];
    LifeEventsSnoc(start, events + init, last);
    Grouped(LifeEvents(start, events), before, part);
    return before + part;
  }

  lemma LifeEventsSnoc(start: Gateway, events: seq<Event>, e: Event)
    ensures LifeEvents(start, events + [e]) == LifeEvents(start, events) + LifePart(StateAfter(start, events), e)
  {
    hide Step, LifePart, StateAfter;
    assert (events + [e])[..|events|] == events;
  }

  lemma OneMore(start: Gateway, events: seq<Event>, e: Event)
    ensures StateAfter(start, events + [e]) == Step(StateAfter(start, events), e)
  {
    hide Step;
    assert (events + [e])[..|events|] == events;
  }

  /** Nothing is open: no operation under way, no call, no reservation, no session. */
  predicate NothingOpen(g: Gateway) {
    g.life.open == {} && g.sip.calls == map[] && g.sip.reservations == {} && g.media.core.live == {}
  }

  lemma ResourcesOfNothing(g: Gateway)
    ensures Resources(g) == 0 <==> g.sip.calls == map[] && g.sip.reservations == {} && g.media.core.live == {}
  {
    assert |g.sip.calls| == 0 <==> g.sip.calls == map[];
  }

  lemma PollTakes(g: Gateway)
    ensures Step(g, Poll).life == L.Step(g.life, L.PollFires(Resources(g))) && LifePart(g, Poll) == [L.PollFires(Resources(g))]
  {
  }

  /** The lifecycle before the poll, after it, and later. */
  lemma LifeOfPoll(now: int, maxWaitMs: nat, cleanupMs: nat, events: seq<Event>, more: seq<Event>) returns (rest: seq<L.Event>)
    ensures var start, life := Fresh(now, maxWaitMs, cleanupMs), L.Fresh(now, maxWaitMs, cleanupMs);
            var g := StateAfter(start, events);
            var look := L.PollFires(Resources(g));
            && g.life == L.StateAfter(life, LifeEvents(start, events))
            && StateAfter(start, events + [Poll]).life == L.Step(g.life, look)
            && StateAfter(start, events + ([Poll] + more)).life == L.StateAfter(life, LifeEvents(start, events) + ([look] + rest))
  {
    hide Step, LifePart, L.Step;
    var start := Fresh(now, maxWaitMs, cleanupMs);
    var look := L.PollFires(Resources(StateAfter(start, events)));
    PartsRun(now, maxWaitMs, cleanupMs, events);
    PartsRun(now, maxWaitMs, cleanupMs, events + ([Poll] + more));
    OneMore(start, events, Poll);
    PollTakes(StateAfter(start, events));
    rest := LifeEventsGoOn(start, events + [Poll], more);
    LifeEventsSnoc(start, events, Poll);
    Grouped(events, [Poll], more);
    Grouped(LifeEvents(start, events), [look], rest);
  }

  /** When the poll of a draining gateway comes and nothing is open, it is stopping from that moment on, in all its
      parts and without force, and the drain is over within the clean-up limit; when something is open it is not
      stopped by the poll. */
  lemma {:induction false} IdleGatewayStops(now: int, maxWaitMs: nat, cleanupMs: nat, events: seq<Event>, more: seq<Event>)
    requires var g := StateAfter(Fresh(now, maxWaitMs, cleanupMs), events); g.life.poll == Some(g.life.now)
    ensures var start := Fresh(now, maxWaitMs, cleanupMs);
            var g, next := StateAfter(start, events), StateAfter(start, events + [Poll]);
            && (next.life.isStopping <==> NothingOpen(g))
            && (next.life.isStopping ==> next.sip.stopping && next.media.stopping)
            && var later := StateAfter(start, events + ([Poll] + more)).life;
            NothingOpen(g) ==>
              && later.isStopping && later.stops == [L.StopRun(false, g.life.now, 0, 0)]
              && (later.completedAt.None? ==> later.now <= g.life.now + cleanupMs)
              && (later.completedAt.Some? ==> later.completedAt.value <= g.life.now + cleanupMs)
  {
    hide Step;
    var start := Fresh(now, maxWaitMs, cleanupMs);
    var g := StateAfter(start, events);
    var rest := LifeOfPoll(now, maxWaitMs, cleanupMs, events, more);
    L.IdleLookStops(now, maxWaitMs, cleanupMs, LifeEvents(start, events), Resources(g), rest);
    ResourcesOfNothing(g);
    RunFlags(now, maxWaitMs, cleanupMs, events + [Poll]);
  }

  lemma NothingToWaitFor(g: Gateway)
    requires g == Fresh(0, 1000, 500)
    ensures var waited := Step(Step(g, Drain), Clock(100));
            NothingOpen(waited) && waited.life.poll == Some(100) && waited.life.now == 100
  {
  }

  /** A gateway with nothing to do that is told to drain is gone after 100 ms. */
  lemma IdleDrainIsGraceful() returns (events: seq<Event>)
    ensures var g := StateAfter(Fresh(0, 1000, 500), events); Graceful(g.life) && g.life.now == 100 && g.sip.stopping && g.media.stopping
  {
    hide Step;
    var start := Fresh(0, 1000, 500);
    var drained := [] + [Drain];
    var waited := drained + [Clock(100)];
    events := waited + [Poll];
    OneMore(start, [], Drain);
    OneMore(start, drained, Clock(100));
    OneMore(start, waited, Poll);
    NothingToWaitFor(start);
    PollTakes(StateAfter(start, waited));
    var more: seq<Event> := [];
    IdleGatewayStops(0, 1000, 500, waited, more);
    assert [Poll] + more == [Poll];
  }

  // ----- what a lost control connection takes

  /** A call of an attempt that the connection created, whatever its record says, is not registered after the loss. */
  lemma DisconnectTakesItsAttempts(now: int, maxWaitMs: nat, cleanupMs: nat, events: seq<Event>,
                                   connection: ConnectionId, order: seq<SessionId>, at: int, n: nat, a: S.AttemptId, id: CallId)
    requires var start := Fresh(now, maxWaitMs, cleanupMs);
             && MediaCore.OwnedOrder(StateAfter(start, events).media.core, connection, order)
             && SO.CreatedAs(SipEvents(start, events), n, a, Some(connection))
             && id in Step(StateAfter(start, events), Disconnect(connection, order, at)).sip.calls
    ensures var sip := Step(StateAfter(Fresh(now, maxWaitMs, cleanupMs), events), Disconnect(connection, order, at)).sip;
            sip.calls[id] in sip.records && sip.records[sip.calls[id]].origin != Some(n)
  {
    hide Step;
    PartsRun(now, maxWaitMs, cleanupMs, events);
    CallsLost(StateAfter(Fresh(now, maxWaitMs, cleanupMs), events), connection, order, at);
    SO.OwnerLeftTakesItsAttempts(SipEvents(Fresh(now, maxWaitMs, cleanupMs), events), connection, n, a, id);
  }

  lemma CallsLost(g: Gateway, connection: ConnectionId, order: seq<SessionId>, at: int)
    requires MediaCore.OwnedOrder(g.media.core, connection, order)
    ensures Step(g, Disconnect(connection, order, at)).sip == S.Step(g.sip, S.EOwnerLeft(connection))
  {
  }

  // ----- admission

  /** A session creation gets under way exactly when the gateway does not stop and, if it drains, the creation is for a
      call that is registered or reserved. */
  lemma {:induction false} CreationAdmittedIff(
    now: int, maxWaitMs: nat, cleanupMs: nat, events: seq<Event>, op: OpId, callId: Option<CallId>, owner: Option<ConnectionId>)
    requires M.Fresh(StateAfter(Fresh(now, maxWaitMs, cleanupMs), events).media, op)
    ensures var g := StateAfter(Fresh(now, maxWaitMs, cleanupMs), events);
            var admitted := !g.life.isStopping
                            && (g.life.isDraining ==>
                                  callId.Some? && (callId.value in g.sip.calls || callId.value in g.sip.reservations));
            Busy(Step(g, Sessions(M.Admit(op, callId, owner))), L.SessionWork(op)) <==> admitted
  {
    RunFlags(now, maxWaitMs, cleanupMs, events);
    AdmittedIff(StateAfter(Fresh(now, maxWaitMs, cleanupMs), events), op, callId, owner);
  }

  lemma AdmittedIff(g: Gateway, op: OpId, callId: Option<CallId>, owner: Option<ConnectionId>)
    requires FlagsOk(g) && M.Fresh(g.media, op)
    ensures Busy(Step(g, Sessions(M.Admit(op, callId, owner))), L.SessionWork(op)) <==> Admitted(g, M.Admit(op, callId, owner))
  {
  }

  lemma RunFlags(now: int, maxWaitMs: nat, cleanupMs: nat, events: seq<Event>)
    ensures FlagsOk(StateAfter(Fresh(now, maxWaitMs, cleanupMs), events))
  {
    GatewayTheorems.RunInv(now, maxWaitMs, cleanupMs, events);
  }

  // ----- the pin of a call that is over

  /** When the last client of a call goes and the call is neither registered nor reserved, its pin goes too. */
  lemma {:induction false} PinGoesWithItsCall(
    now: int, maxWaitMs: nat, cleanupMs: nat, events: seq<Event>, x: SessionId, c: CallId, active: set<CallId>, at: int)
    requires var g := StateAfter(Fresh(now, maxWaitMs, cleanupMs), events);
             && x in g.media.core.live && x in g.media.core.records && g.media.core.records[x].callId == Some(c)
             && I.Refs(g.media, c) == 1 && c !in g.sip.calls && c !in g.sip.reservations
    ensures var g := StateAfter(Fresh(now, maxWaitMs, cleanupMs), events);
            c in g.media.core.mgr.pins && c !in Step(g, Sessions(M.SocketClosed(x, active, at))).media.core.mgr.pins
  {
    hide Step;
    MediaInv(now, maxWaitMs, cleanupMs, events);
    var g := StateAfter(Fresh(now, maxWaitMs, cleanupMs), events);
    LastClientGoes(g.media, x, c, S.Taken(g.sip), at);
    SocketCloses(g, x, active, at);
  }

  lemma MediaInv(now: int, maxWaitMs: nat, cleanupMs: nat, events: seq<Event>)
    ensures I.Inv(StateAfter(Fresh(now, maxWaitMs, cleanupMs), events).media)
  {
    GatewayTheorems.RunInv(now, maxWaitMs, cleanupMs, events);
  }

  lemma SocketCloses(g: Gateway, x: SessionId, active: set<CallId>, at: int)
    ensures Step(g, Sessions(M.SocketClosed(x, active, at))).media == M.Step(g.media, M.SocketClosed(x, S.Taken(g.sip), at))
  {
  }

  lemma LastClientGoes(s: M.State, x: SessionId, c: CallId, active: set<CallId>, at: int)
    requires I.Inv(s) && x in s.core.live && x in s.core.records && s.core.records[x].callId == Some(c)
    requires I.Refs(s, c) == 1 && c !in active
    ensures c in s.core.mgr.pins && c !in M.Step(s, M.SocketClosed(x, active, at)).core.mgr.pins
  {
    assert I.PinOk(s, c);
    assert x in I.LiveHolders(s.core, c);
    MP.DropSessions(s.core, x, active, at);
    BackendPins.UnregisterCounts(s.core.mgr.pins, c, Some(s.core.records[x].backend), false, at);
  }
}
