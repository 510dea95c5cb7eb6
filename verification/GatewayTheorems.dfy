/** What holds of the whole gateway in every run: tracked operations, graceful and forced shutdown, lost
    control connections, and the backend of a call. */
module GatewayTheorems {
  import opened Prelude
  import L = GatewayLifecycle
  import S = SipCalls
  import T = SipTheorems
  import M = MediaSystem
  import I = MediaInvariants
  import MT = MediaTheorems
  import MediaCore
  import opened BackendPins
  import opened MediaPins
  import opened Gateway
  import opened Tracking
  import opened SipTracking
  import opened MediaTracking

  // ----- invariants

  /** The three parts agree on whether the gateway drains or stops. */
  predicate FlagsOk(g: Gateway) {
    && g.sip.draining == g.life.isDraining
    && g.sip.stopping == g.media.stopping == g.life.isStopping
  }

  /** Every INVITE handler, outbound attempt and session creation under way holds one open operation. */
  ghost predicate TokensOk(g: Gateway) {
    forall w: L.Token :: !w.OtherWork? ==> (w in g.life.open <==> Busy(g, w))
  }

  ghost predicate Idle(g: Gateway) {
    && g.sip.calls == map[] && g.sip.reservations == {} && g.media.core.live == {}
    && forall w :: !Busy(g, w)
  }

  predicate Graceful(l: L.Lifecycle) {
    l.isStopping && |l.stops| > 0 && !l.stops[0].forced
  }

  ghost predicate Inv(g: Gateway) {
    && L.Inv(g.life) && S.Inv(g.sip) && I.Inv(g.media)
    && FlagsOk(g) && TokensOk(g)
    && (Graceful(g.life) ==> Idle(g))
    && (g.clean ==> Settled(g))
  }

  // ----- lifecycle

  /** The lifecycle after the marks of a step: only the open operations move. */
  ghost predicate LifeMoves(l: L.Lifecycle, l': L.Lifecycle, marks: seq<Mark>) {
    && L.Inv(l') && l' == l.(open := l'.open, pendingOperations := l'.pendingOperations)
    && forall w :: Moved(marks, w, w in l.open, w in l'.open)
  }

  /** Work that begins is not under way yet, work that ends is, and none begins on a stopping gateway. */
  predicate MarksFit(g: Gateway, marks: seq<Mark>) {
    && MarksOk(marks)
    && (|marks| == 1 ==> (Busy(g, marks[0].token) <==> marks[0].Ends?))
    && (|marks| == 1 && marks[0].Begins? ==> !g.life.isStopping)
  }

  lemma LifeTracks(g: Gateway, marks: seq<Mark>)
    requires L.Inv(g.life) && TokensOk(g) && MarksFit(g, marks)
    ensures LifeMoves(g.life, Track(g.life, marks), marks)
  {
    assert !Busy(g, L.PassingWork);
    if |marks| == 1 { assert marks[0].token in g.life.open <==> Busy(g, marks[0].token); }
    TrackMoves(g.life, marks);
  }

  /** The tokens follow the marks, and so do the tables: they go on agreeing. */
  lemma TokensFollow(g: Gateway, g': Gateway, marks: seq<Mark>)
    requires TokensOk(g) && LifeMoves(g.life, g'.life, marks) && MarksOk(marks)
    requires forall w :: Moved(marks, w, Busy(g, w), Busy(g', w))
    ensures TokensOk(g')
  {
    forall w: L.Token | !w.OtherWork?
      ensures w in g'.life.open <==> Busy(g', w)
    {
      assert Moved(marks, w, w in g.life.open, w in g'.life.open);
      assert Moved(marks, w, Busy(g, w), Busy(g', w));
    }
  }

  // ----- one lemma per kind of step

  /** What every SIP step except the start of drain and stop does to the rest of the gateway. */
  ghost predicate SipMoves(s: S.Sip, s': S.Sip, marks: seq<Mark>) {
    && S.Inv(s') && SipMarked(s, s', marks) && T.SameFlags(s, s')
    && (s.stopping ==> T.FewerCalls(s.calls, s'.calls) && s'.closing.Keys <= s.closing.Keys && s'.closingOut <= s.closingOut)
  }

  lemma SipStepMoves(s: S.Sip, e: S.Event)
    requires S.Inv(s) && !e.EDrain? && !e.EStop?
    ensures SipMoves(s, S.Step(s, e), SipMarks(s, e))
  {
    S.InvStep(s, e);
    SipMarksRight(s, e);
    T.FlagsUntouched(s, e);
    if T.Adding(e) {
      T.AddingStep(s, e);
      return;
    }
    T.RoutineStep(s, e);
  }

  lemma SipStaysIdle(g: Gateway, s': S.Sip, marks: seq<Mark>)
    requires Idle(g) && FlagsOk(g) && L.Inv(g.life) && g.life.isStopping && SipMoves(g.sip, s', marks)
    ensures Idle(g.(sip := s'))
  {
    var g1 := g.(sip := s');
    assert forall id :: id !in s'.calls;
    forall x
      ensures !Busy(g1, x)
    {
      assert !Busy(g, x);
    }
  }

  lemma SipMarksFit(g: Gateway, s': S.Sip, marks: seq<Mark>)
    requires FlagsOk(g) && L.Inv(g.life) && SipMarked(g.sip, s', marks)
    ensures MarksFit(g, marks) && forall w :: Moved(marks, w, Busy(g, w), Busy(g.(sip := s'), w))
  {
    if |marks| == 1 {
      var w := marks[0].token;
      assert Moved(marks, w, SipBusy(g.sip, w), SipBusy(s', w));
      assert SipBusy(g.sip, w) || SipBusy(s', w);
      assert !w.SessionWork?;
    }
    forall w
      ensures Moved(marks, w, Busy(g, w), Busy(g.(sip := s'), w))
    {
      assert Moved(marks, w, SipBusy(g.sip, w), SipBusy(s', w));
    }
  }

  lemma SipMovesInv(g: Gateway, s': S.Sip, marks: seq<Mark>)
    requires Inv(g) && SipMoves(g.sip, s', marks)
    ensures Inv(g.(sip := s', life := Track(g.life, marks)))
  {
    var g' := g.(sip := s', life := Track(g.life, marks));
    SipMarksFit(g, s', marks);
    LifeTracks(g, marks);
    TokensFollow(g, g', marks);
    if Graceful(g.life) { SipStaysIdle(g, s', marks); }
    assert g.clean ==> s'.closing.Keys == {};
  }

  ghost predicate MediaMoves(s: M.State, s': M.State, marks: seq<Mark>) {
    && I.Inv(s') && MediaMarked(s, s', marks) && s'.stopping == s.stopping
    && (s.stopping ==> s'.closing <= s.closing && s'.core.live <= s.core.live)
  }

  lemma MediaStepMoves(s: M.State, e: M.Event)
    requires I.Inv(s) && !e.Stop?
    ensures MediaMoves(s, M.Step(s, e), MediaMarks(s, e))
  {
    MT.InvStep(s, e);
    MediaMarksRight(s, e);
    MediaStopping(s, e);
    if s.stopping {
      MediaClosing(s, e);
      MT.ClosingStep(s, e);
    }
  }

  /** A stopping gateway begins nothing. */
  predicate NoneBegins(marks: seq<Mark>, stopping: bool) {
    stopping && |marks| == 1 ==> marks[0].Ends?
  }

  lemma MediaMarksFit(g: Gateway, s': M.State, marks: seq<Mark>)
    requires MediaMarked(g.media, s', marks) && NoneBegins(marks, g.life.isStopping)
    ensures MarksFit(g, marks) && forall w :: Moved(marks, w, Busy(g, w), Busy(g.(media := s'), w))
  {
    if |marks| == 1 {
      var w := marks[0].token;
      assert Moved(marks, w, MediaBusy(g.media, w), MediaBusy(s', w));
      assert MediaBusy(g.media, w) || MediaBusy(s', w);
      assert w.SessionWork?;
    }
    forall w
      ensures Moved(marks, w, Busy(g, w), Busy(g.(media := s'), w))
    {
      assert Moved(marks, w, MediaBusy(g.media, w), MediaBusy(s', w));
    }
  }

  lemma MediaStaysIdle(g: Gateway, s': M.State, marks: seq<Mark>)
    requires Idle(g) && FlagsOk(g) && g.life.isStopping && MediaMoves(g.media, s', marks) && NoneBegins(marks, true)
    ensures Idle(g.(media := s'))
  {
    forall w
      ensures !Busy(g.(media := s'), w)
    {
      assert !Busy(g, w);
      assert Moved(marks, w, MediaBusy(g.media, w), MediaBusy(s', w));
    }
  }

  lemma MediaMovesInv(g: Gateway, s': M.State, marks: seq<Mark>)
    requires Inv(g) && MediaMoves(g.media, s', marks) && NoneBegins(marks, g.life.isStopping)
    ensures Inv(g.(media := s', life := Track(g.life, marks)))
  {
    var g' := g.(media := s', life := Track(g.life, marks));
    MediaMarksFit(g, s', marks);
    LifeTracks(g, marks);
    TokensFollow(g, g', marks);
    if Graceful(g.life) { MediaStaysIdle(g, s', marks); }
  }

  lemma CallsInv(g: Gateway, call: S.Event)
    requires Inv(g)
    ensures Inv(Step(g, Calls(call)))
  {
    if call.EDrain? || call.EStop? || call.EOwnerLeft? { return; }
    SipStepMoves(g.sip, call);
    SipMovesInv(g, S.Step(g.sip, call), SipMarks(g.sip, call));
  }

  /** Who is active matters to no exit path. */
  lemma SameMarks(s: M.State, e: M.Event, active: set<CallId>)
    ensures MediaMarks(s, WithActive(e, active)) == MediaMarks(s, e)
    ensures (WithActive(e, active).Stop? <==> e.Stop?) && (WithActive(e, active).OwnerLeft? <==> e.OwnerLeft?)
  {
  }

  lemma AdmittedBegins(g: Gateway, session: M.Event)
    requires Admitted(g, session)
    ensures NoneBegins(MediaMarks(g.media, session), g.life.isStopping)
  {
    var marks := MediaMarks(g.media, session);
    if |marks| == 1 && marks[0].Begins? { OnlyAdmitsBegin(g.media, session); }
  }

  lemma AdmittedInv(g: Gateway, session: M.Event, e: M.Event)
    requires Inv(g) && Admitted(g, session) && !session.Stop? && e == WithActive(session, S.Taken(g.sip))
    ensures Inv(g.(media := M.Step(g.media, e), life := Track(g.life, MediaMarks(g.media, session))))
  {
    SameMarks(g.media, session, S.Taken(g.sip));
    MediaStepMoves(g.media, e);
    AdmittedBegins(g, session);
    MediaMovesInv(g, M.Step(g.media, e), MediaMarks(g.media, session));
  }

  lemma SessionsTake(g: Gateway, session: M.Event)
    ensures Step(g, Sessions(session))
         == if session.Stop? || session.OwnerLeft? || !Admitted(g, session) then g
            else g.(media := M.Step(g.media, WithActive(session, S.Taken(g.sip))), life := Track(g.life, MediaMarks(g.media, session)))
  {
  }

  lemma SessionsInv(g: Gateway, session: M.Event)
    requires Inv(g)
    ensures Inv(Step(g, Sessions(session)))
  {
    SessionsTake(g, session);
    if session.Stop? || session.OwnerLeft? || !Admitted(g, session) { return; }
    AdmittedInv(g, session, WithActive(session, S.Taken(g.sip)));
  }

  lemma SipDisconnect(g: Gateway, connection: ConnectionId)
    requires Inv(g)
    ensures Inv(g.(sip := S.Step(g.sip, S.EOwnerLeft(connection))))
  {
    SipStepMoves(g.sip, S.EOwnerLeft(connection));
    SipMovesInv(g, S.Step(g.sip, S.EOwnerLeft(connection)), []);
  }

  lemma MediaDisconnect(g: Gateway, e: M.Event)
    requires Inv(g) && e.OwnerLeft?
    ensures Inv(g.(media := M.Step(g.media, e)))
  {
    MediaStepMoves(g.media, e);
    MediaMovesInv(g, M.Step(g.media, e), []);
  }

  lemma DisconnectInv(g: Gateway, connection: ConnectionId, order: seq<SessionId>, now: int)
    requires Inv(g)
    ensures Inv(Step(g, Disconnect(connection, order, now)))
  {
    if !MediaCore.OwnedOrder(g.media.core, connection, order) { return; }
    var e := MediaLoses(g, connection, order, now);
    var g1 := g.(sip := Lost(g, connection));
    BothLost(g, connection, order, now);
    SipDisconnect(g, connection);
    MediaDisconnect(g1, e);
  }

  lemma BothLost(g: Gateway, connection: ConnectionId, order: seq<SessionId>, now: int)
    requires MediaCore.OwnedOrder(g.media.core, connection, order)
    ensures var g1 := g.(sip := S.Step(g.sip, S.EOwnerLeft(connection)));
            Step(g, Disconnect(connection, order, now)) == g1.(media := M.Step(g1.media, MediaLoses(g, connection, order, now)))
  {
  }

  // ----- draining and stopping

  ghost predicate SipStops(s: S.Sip, s': S.Sip) {
    && S.Inv(s') && SipMarked(s, s', []) && s'.draining && s'.stopping && s'.calls == s.calls && s'.reservations <= s.reservations
  }

  lemma SipStopStep(s: S.Sip)
    requires S.Inv(s) && s.draining && !s.stopping
    ensures SipStops(s, S.Step(s, S.EStop))
  {
    S.InvStep(s, S.EStop);
    SipMarksRight(s, S.EStop);
    T.StopRoutine(s);
    assert S.Step(s, S.EStop) == S.Stop(s);
  }

  ghost predicate MediaStops(s: M.State, s': M.State) {
    I.Inv(s') && MediaMarked(s, s', []) && s'.stopping && s'.core.live == s.core.live
  }

  lemma MediaStopStep(s: M.State)
    requires I.Inv(s) && !s.stopping
    ensures MediaStops(s, M.Step(s, M.Stop))
  {
    MT.InvStep(s, M.Stop);
    MediaMarksRight(s, M.Stop);
    assert M.Step(s, M.Stop) == s.(stopping := true, closing := s.core.live);
  }

  lemma StopsInv(g: Gateway, life: L.Lifecycle, sip: S.Sip, media: M.State)
    requires Inv(g) && L.Inv(life) && !g.life.isStopping && life.isStopping && life.open == g.life.open
    requires SipStops(g.sip, sip) && MediaStops(g.media, media)
    requires Graceful(life) ==> Idle(g)
    ensures Inv(Gateway(life, sip, media, g.clean))
  {
    var g' := Gateway(life, sip, media, g.clean);
    forall w
      ensures Busy(g', w) <==> Busy(g, w)
    {
      assert Moved([], w, SipBusy(g.sip, w), SipBusy(sip, w));
      assert Moved([], w, MediaBusy(g.media, w), MediaBusy(media, w));
    }
  }

  lemma FireInv(g: Gateway, e: L.Event)
    requires Inv(g) && (e == L.PollFires(Resources(g)) || e == L.DeadlineFires(Resources(g)))
    ensures Inv(Fire(g, e))
  {
    var life := L.Step(g.life, e);
    L.InvStep(g.life, e);
    if life.isStopping && !g.life.isStopping {
      FireStops(g, e);
      return;
    }
  }

  lemma FireStops(g: Gateway, e: L.Event)
    requires Inv(g) && (e == L.PollFires(Resources(g)) || e == L.DeadlineFires(Resources(g)))
    requires L.Step(g.life, e).isStopping && !g.life.isStopping && L.Inv(L.Step(g.life, e))
    ensures Inv(Fire(g, e))
  {
    var life := L.Step(g.life, e);
    SipStopStep(g.sip);
    MediaStopStep(g.media);
    if Graceful(life) { NothingLeft(g); }
    StopsInv(g, life, S.Step(g.sip, S.EStop), M.Step(g.media, M.Stop));
  }

  /** Without an open operation and without resources there is no work and nothing to close. */
  lemma NothingLeft(g: Gateway)
    requires Inv(g) && g.life.pendingOperations == 0 && Resources(g) == 0
    ensures Idle(g)
  {
    assert g.life.open == {};
    assert g.sip.calls.Keys == {};
  }

  predicate LifeEvent(e: L.Event) {
    || e.Advance? || e.CleanupTimesOut? || e.CleanupSettles?
    || (e.BeginOperation? && e.token.OtherWork?) || (e.FinishOperation? && e.token.OtherWork?)
  }

  lemma LifeTokens(g: Gateway, e: L.Event)
    requires TokensOk(g) && LifeEvent(e)
    ensures TokensOk(g.(life := L.Step(g.life, e)))
  {
  }

  lemma LifeFlags(l: L.Lifecycle, e: L.Event)
    requires LifeEvent(e)
    ensures var l' := L.Step(l, e); l'.isDraining == l.isDraining && l'.isStopping == l.isStopping && l'.stops == l.stops
  {
    if L.Step(l, e) == l { return; }
  }

  lemma LifeInv(g: Gateway, e: L.Event)
    requires Inv(g) && LifeEvent(e)
    ensures Inv(g.(life := L.Step(g.life, e)))
  {
    L.InvStep(g.life, e);
    LifeTokens(g, e);
    LifeFlags(g.life, e);
    if Graceful(g.life) { StillIdle(g, g.(life := L.Step(g.life, e))); }
  }

  lemma StillIdle(g: Gateway, g': Gateway)
    requires Idle(g) && g'.sip == g.sip && g'.media == g.media
    ensures Idle(g')
  {
    forall w
      ensures !Busy(g', w)
    {
      assert !Busy(g, w);
    }
  }

  lemma DrainTokens(g: Gateway)
    requires TokensOk(g)
    ensures TokensOk(Step(g, Drain))
  {
    assert L.Drained(g.life).open == g.life.open;
    forall w
      ensures Busy(Step(g, Drain), w) <==> Busy(g, w)
    {
    }
  }

  lemma DrainFlags(g: Gateway)
    requires FlagsOk(g)
    ensures var g' := Step(g, Drain); FlagsOk(g') && (Graceful(g'.life) <==> Graceful(g.life))
  {
  }

  lemma DrainIdle(g: Gateway)
    requires Idle(g)
    ensures Idle(Step(g, Drain))
  {
    forall w
      ensures !Busy(Step(g, Drain), w)
    {
      assert !Busy(g, w);
    }
  }

  lemma DrainInv(g: Gateway)
    requires Inv(g)
    ensures Inv(Step(g, Drain))
  {
    L.InvStep(g.life, L.StartDrain);
    S.InvStep(g.sip, S.EDrain);
    DrainTokens(g);
    DrainFlags(g);
    if Graceful(g.life) { DrainIdle(g); }
  }

  lemma InvStep(g: Gateway, e: Event)
    requires Inv(g)
    ensures Inv(Step(g, e))
  {
    match e {
      case Calls(call) => CallsInv(g, call); return;
      case Sessions(session) => SessionsInv(g, session); return;
      case OtherBegins(n) => LifeInv(g, L.BeginOperation(L.OtherWork(n))); return;
      case OtherEnds(n) => LifeInv(g, L.FinishOperation(L.OtherWork(n))); return;
      case Drain => DrainInv(g); return;
      case Poll => FireInv(g, L.PollFires(Resources(g))); return;
      case Deadline => FireInv(g, L.DeadlineFires(Resources(g))); return;
      case StopSettles =>
        if g.life.cleanup.None? || !Settled(g) { return; }
        LifeInv(g, L.CleanupSettles);
        return;
      case StopTimesOut => LifeInv(g, L.CleanupTimesOut); return;
      case Clock(to) => LifeInv(g, L.Advance(to)); return;
      case Disconnect(connection, order, now) => DisconnectInv(g, connection, order, now); return;
    }
  }

  lemma FreshTokens(now: int, maxWaitMs: nat, cleanupMs: nat)
    ensures var g := Fresh(now, maxWaitMs, cleanupMs); TokensOk(g) && FlagsOk(g) && L.Inv(g.life)
  {
  }

  lemma FreshInv(now: int, maxWaitMs: nat, cleanupMs: nat)
    ensures Inv(Fresh(now, maxWaitMs, cleanupMs))
  {
    I.InitInv();
    S.InitInv();
    FreshTokens(now, maxWaitMs, cleanupMs);
  }

  lemma {:induction false} RunInv(now: int, maxWaitMs: nat, cleanupMs: nat, events: seq<Event>)
    ensures Inv(StateAfter(Fresh(now, maxWaitMs, cleanupMs), events))
    decreases |events|
  {
    if events == [] {
      FreshInv(now, maxWaitMs, cleanupMs);
      return;
    }
    RunInv(now, maxWaitMs, cleanupMs, events[..|events| - 1]);
    InvStep(StateAfter(Fresh(now, maxWaitMs, cleanupMs), events[..|events| - 1]), events[|events| - 1]);
  }

  // ----- tracked work

  /** The operation counter is the number of operations under way: an INVITE, an outbound attempt or a session
      creation holds its token for exactly as long as it is in the tables. */
  lemma {:induction false} OpenOperationsAreWorkUnderWay(now: int, maxWaitMs: nat, cleanupMs: nat, events: seq<Event>, w: L.Token)
    ensures var g := StateAfter(Fresh(now, maxWaitMs, cleanupMs), events);
            && g.life.pendingOperations == |g.life.open|
            && (!w.OtherWork? ==> (w in g.life.open <==> Busy(g, w)))
  {
    RunInv(now, maxWaitMs, cleanupMs, events);
  }

  /** A draining gateway takes on nothing but sessions of calls that it already has. */
  lemma {:induction false} DrainingAdmitsKnownCallsOnly(
    now: int, maxWaitMs: nat, cleanupMs: nat, events: seq<Event>, e: Event, w: L.Token)
    ensures var g := StateAfter(Fresh(now, maxWaitMs, cleanupMs), events);
            g.life.isDraining && Busy(Step(g, e), w) && !Busy(g, w) ==>
              && !g.life.isStopping && e.Sessions? && e.session.Admit? && w == L.SessionWork(e.session.op)
              && e.session.callId.Some? && e.session.callId.value in S.Taken(g.sip)
  {
    var g := StateAfter(Fresh(now, maxWaitMs, cleanupMs), events);
    RunInv(now, maxWaitMs, cleanupMs, events);
    if g.life.isDraining && Busy(Step(g, e), w) && !Busy(g, w) { NewWork(g, e, w); }
  }

  /** Nothing becomes busy. */
  ghost predicate NoNewWork(g: Gateway, g': Gateway) {
    forall w :: Busy(g', w) ==> Busy(g, w)
  }

  lemma SipNoNewWork(g: Gateway, e: S.Event)
    requires S.Inv(g.sip) && (g.sip.draining || SipMarks(g.sip, e) == [])
    ensures forall w :: SipBusy(S.Step(g.sip, e), w) ==> SipBusy(g.sip, w)
  {
    SipMarksRight(g.sip, e);
    forall w | SipBusy(S.Step(g.sip, e), w)
      ensures SipBusy(g.sip, w)
    {
      assert Moved(SipMarks(g.sip, e), w, SipBusy(g.sip, w), SipBusy(S.Step(g.sip, e), w));
    }
  }

  lemma MediaNoNewWork(g: Gateway, e: M.Event)
    requires MediaMarks(g.media, e) == []
    ensures forall w :: MediaBusy(M.Step(g.media, e), w) ==> MediaBusy(g.media, w)
  {
    MediaMarksRight(g.media, e);
    forall w | MediaBusy(M.Step(g.media, e), w)
      ensures MediaBusy(g.media, w)
    {
      assert Moved([], w, MediaBusy(g.media, w), MediaBusy(M.Step(g.media, e), w));
    }
  }

  lemma CallsNoNewWork(g: Gateway, call: S.Event)
    requires S.Inv(g.sip) && g.sip.draining
    ensures NoNewWork(g, Step(g, Calls(call)))
  {
    if call.EDrain? || call.EStop? || call.EOwnerLeft? { return; }
    SipNoNewWork(g, call);
  }

  lemma SessionsNewWork(g: Gateway, session: M.Event, w: L.Token)
    requires Busy(Step(g, Sessions(session)), w) && !Busy(g, w)
    ensures session.Admit? && w == L.SessionWork(session.op) && Admitted(g, session)
  {
    if session.Stop? || session.OwnerLeft? || !Admitted(g, session) { return; }
    var e := WithActive(session, S.Taken(g.sip));
    MediaMarksRight(g.media, e);
    SameMarks(g.media, session, S.Taken(g.sip));
    assert Moved(MediaMarks(g.media, e), w, MediaBusy(g.media, w), MediaBusy(M.Step(g.media, e), w));
    OnlyAdmitsBegin(g.media, session);
  }

  lemma DisconnectNoNewWork(g: Gateway, connection: ConnectionId, order: seq<SessionId>, now: int)
    requires S.Inv(g.sip)
    ensures NoNewWork(g, Step(g, Disconnect(connection, order, now)))
  {
    if !MediaCore.OwnedOrder(g.media.core, connection, order) { return; }
    SipNoNewWork(g, S.EOwnerLeft(connection));
    MediaNoNewWork(g, MediaLoses(g, connection, order, now));
  }

  lemma FireNoNewWork(g: Gateway, e: L.Event)
    requires S.Inv(g.sip)
    ensures NoNewWork(g, Fire(g, e))
  {
    SipNoNewWork(g, S.EStop);
    MediaNoNewWork(g, M.Stop);
  }

  lemma NewWork(g: Gateway, e: Event, w: L.Token)
    requires S.Inv(g.sip) && g.sip.draining && Busy(Step(g, e), w) && !Busy(g, w)
    ensures e.Sessions? && e.session.Admit? && w == L.SessionWork(e.session.op) && Admitted(g, e.session)
  {
    match e {
      case Calls(call) => CallsNoNewWork(g, call); return;
      case Sessions(session) => SessionsNewWork(g, session, w); return;
      case Drain => SipNoNewWork(g, S.EDrain); return;
      case Poll => FireNoNewWork(g, L.PollFires(Resources(g))); return;
      case Deadline => FireNoNewWork(g, L.DeadlineFires(Resources(g))); return;
      case Disconnect(connection, order, now) => DisconnectNoNewWork(g, connection, order, now); return;
      case _ => return;
    }
  }

  // ----- shutdown

  /** After a graceful stop the gateway is idle for good: no call, no reservation, no session, and no INVITE,
      attempt or session creation under way. */
  lemma {:induction false} GracefulStopLeavesNothing(now: int, maxWaitMs: nat, cleanupMs: nat, events: seq<Event>)
    requires Graceful(StateAfter(Fresh(now, maxWaitMs, cleanupMs), events).life)
    ensures Idle(StateAfter(Fresh(now, maxWaitMs, cleanupMs), events))
  {
    RunInv(now, maxWaitMs, cleanupMs, events);
  }

  /** Once stopping, whether forced or not and whatever was in flight, no step adds a call or a session. */
  lemma {:induction false} StoppingAddsNothing(now: int, maxWaitMs: nat, cleanupMs: nat, events: seq<Event>, e: Event)
    requires StateAfter(Fresh(now, maxWaitMs, cleanupMs), events).life.isStopping
    ensures var g := StateAfter(Fresh(now, maxWaitMs, cleanupMs), events); OnlyLeaves(g, Step(g, e))
  {
    RunInv(now, maxWaitMs, cleanupMs, events);
    StoppingStep(StateAfter(Fresh(now, maxWaitMs, cleanupMs), events), e);
  }

  ghost predicate OnlyLeaves(g: Gateway, g': Gateway) {
    g'.life.isStopping && T.FewerCalls(g.sip.calls, g'.sip.calls) && g'.media.core.live <= g.media.core.live
  }

  lemma CallsOnlyLeave(s: S.Sip, e: S.Event)
    requires s.stopping
    ensures T.FewerCalls(s.calls, S.Step(s, e).calls)
  {
    if T.Adding(e) {
      T.AddingStep(s, e);
      return;
    }
    T.RoutineStep(s, e);
  }

  ghost predicate Stopping(g: Gateway) {
    && g.life.isStopping && g.sip.stopping && g.media.stopping
    && g.media.core.live <= g.media.core.records.Keys && I.ClosingOk(g.media)
  }

  lemma StoppingCalls(g: Gateway, call: S.Event)
    requires Stopping(g)
    ensures OnlyLeaves(g, Step(g, Calls(call)))
  {
    if call.EDrain? || call.EStop? || call.EOwnerLeft? { return; }
    CallsOnlyLeave(g.sip, call);
    TrackKeepsFlags(g.life, SipMarks(g.sip, call));
  }

  lemma StoppingSessions(g: Gateway, session: M.Event)
    requires Stopping(g)
    ensures OnlyLeaves(g, Step(g, Sessions(session)))
  {
    if session.Stop? || session.OwnerLeft? || !Admitted(g, session) { return; }
    MT.ClosingStep(g.media, WithActive(session, S.Taken(g.sip)));
    TrackKeepsFlags(g.life, MediaMarks(g.media, session));
  }

  lemma StoppingDisconnect(g: Gateway, connection: ConnectionId, order: seq<SessionId>, now: int)
    requires Stopping(g)
    ensures OnlyLeaves(g, Step(g, Disconnect(connection, order, now)))
  {
    if !MediaCore.OwnedOrder(g.media.core, connection, order) { return; }
    CallsOnlyLeave(g.sip, S.EOwnerLeft(connection));
    MT.ClosingStep(g.media, MediaLoses(g, connection, order, now));
  }

  lemma StoppingStep(g: Gateway, e: Event)
    requires Stopping(g)
    ensures OnlyLeaves(g, Step(g, e))
  {
    match e {
      case Calls(call) => StoppingCalls(g, call); return;
      case Sessions(session) => StoppingSessions(g, session); return;
      case Disconnect(connection, order, now) => StoppingDisconnect(g, connection, order, now); return;
      case _ => return;
    }
  }

  /** When the stop hook settles before its time limit there are no sessions, reservations or attempts from
      then on, and every call that is left is one whose BYE failed. */
  lemma {:induction false} CleanShutdownLeavesFailedByes(now: int, maxWaitMs: nat, cleanupMs: nat, events: seq<Event>)
    requires StateAfter(Fresh(now, maxWaitMs, cleanupMs), events).clean
    ensures var g := StateAfter(Fresh(now, maxWaitMs, cleanupMs), events);
            && g.media.core.live == {} && g.sip.reservations == {} && g.sip.outbound == map[]
            && forall id :: id in g.sip.calls ==> g.sip.calls[id] in g.sip.byeFailed
  {
    RunInv(now, maxWaitMs, cleanupMs, events);
    var s := StateAfter(Fresh(now, maxWaitMs, cleanupMs), events).sip;
    assert forall a :: a !in s.outbound;
  }

  // ----- a lost control connection

  /** The step in which a control connection is lost leaves no session, no registered call and no uncancelled
      attempt of that owner, and takes nothing of anybody else. */
  lemma {:induction false} DisconnectTakesEverything(now: int, maxWaitMs: nat, cleanupMs: nat, events: seq<Event>,
                                                     connection: ConnectionId, order: seq<SessionId>, at: int)
    requires MediaCore.OwnedOrder(StateAfter(Fresh(now, maxWaitMs, cleanupMs), events).media.core, connection, order)
    ensures OwnsNothing(Step(StateAfter(Fresh(now, maxWaitMs, cleanupMs), events), Disconnect(connection, order, at)), connection)
    ensures TakesItsOwn(StateAfter(Fresh(now, maxWaitMs, cleanupMs), events),
                        Step(StateAfter(Fresh(now, maxWaitMs, cleanupMs), events), Disconnect(connection, order, at)), connection)
  {
    RunInv(now, maxWaitMs, cleanupMs, events);
    DisconnectTakes(StateAfter(Fresh(now, maxWaitMs, cleanupMs), events), connection, order, at);
  }

  ghost predicate OwnsNothing(g: Gateway, connection: ConnectionId) {
    var core, sip := g.media.core, g.sip;
    && (forall x :: x in core.live ==> x in core.records && core.records[x].owner != Some(connection))
    && (forall id :: id in sip.calls ==> sip.calls[id] in sip.records && sip.records[sip.calls[id]].owner != Some(connection))
    && (forall a :: a in sip.outbound && sip.outbound[a].owner == Some(connection) ==> sip.outbound[a].cancelled)
  }

  /** The sessions that go are those of the owner, and so are the calls that go and the attempts that are cancelled. */
  ghost predicate TakesItsOwn(g: Gateway, g': Gateway, connection: ConnectionId) {
    var core := g.media.core;
    && (forall x :: x in g'.media.core.live <==> x in core.live && !(x in core.records && core.records[x].owner == Some(connection)))
    && T.TakesExactly(g.sip, g'.sip, connection) && g'.life == g.life
  }

  lemma DisconnectTakes(g: Gateway, connection: ConnectionId, order: seq<SessionId>, at: int)
    requires S.Inv(g.sip) && I.Inv(g.media) && MediaCore.OwnedOrder(g.media.core, connection, order)
    ensures OwnsNothing(Step(g, Disconnect(connection, order, at)), connection)
    ensures TakesItsOwn(g, Step(g, Disconnect(connection, order, at)), connection)
  {
    SipLoses(g, connection);
    T.OwnerLeftExactly(g.sip, connection);
    MediaLosesSessions(g, connection, order, at);
    SplitsUp(g, connection, order, at);
  }

  lemma SplitsUp(g: Gateway, connection: ConnectionId, order: seq<SessionId>, at: int)
    requires MediaCore.OwnedOrder(g.media.core, connection, order)
    ensures Step(g, Disconnect(connection, order, at))
         == g.(sip := Lost(g, connection), media := M.Step(g.media, MediaLoses(g, connection, order, at)))
  {
  }

  lemma SipLoses(g: Gateway, connection: ConnectionId)
    requires S.Inv(g.sip)
    ensures var sip := Lost(g, connection);
            && (forall id :: id in sip.calls ==> sip.calls[id] in sip.records && sip.records[sip.calls[id]].owner != Some(connection))
            && (forall a :: a in sip.outbound && sip.outbound[a].owner == Some(connection) ==> sip.outbound[a].cancelled)
  {
    T.OwnerLeftTakes(g.sip, connection);
  }

  lemma MediaLosesSessions(g: Gateway, connection: ConnectionId, order: seq<SessionId>, at: int)
    requires I.Inv(g.media) && MediaCore.OwnedOrder(g.media.core, connection, order)
    ensures var core := M.Step(g.media, MediaLoses(g, connection, order, at)).core;
            && core.live == g.media.core.live - (set x | x in order)
            && forall x :: x in core.live ==> x in core.records && core.records[x].owner != Some(connection)
  {
    MT.OwnerLeftTakes(g.media, connection, order, S.Taken(Lost(g, connection)), at);
  }

  /** Such an order always exists, so the step is never blocked. */
  lemma OwnedOrderExists(c: MediaCore.Core, connection: ConnectionId) returns (order: seq<SessionId>)
    ensures MediaCore.OwnedOrder(c, connection, order)
  {
    var todo := set x | x in c.live && x in c.records && c.records[x].owner == Some(connection);
    order := [];
    while todo != {}
      invariant forall i, j :: 0 <= i < j < |order| ==> order[i] != order[j]
      invariant forall x :: x in order ==> x !in todo
      invariant forall x :: x in order || x in todo <==> x in c.live && x in c.records && c.records[x].owner == Some(connection)
      decreases |todo|
    {
      var x := Member(todo);
      todo := todo - {x};
      order := order + [x];
    }
  }

  // ----- the backend of a call

  /** The events that ask whether a call is active are told that c is. */
  predicate KnowsActive(e: M.Event, c: CallId) {
    e.Opened? || e.Unwound? || e.SweepPins? || e.Destroyed? || e.SocketClosed? || e.OwnerLeft? || e.ShutdownDestroyed? ==>
      c in e.active
  }

  predicate PinStays(mgr: Manager, mgr': Manager, c: CallId) {
    c in mgr.pins ==> c in mgr'.pins && mgr'.pins[c].backend == mgr.pins[c].backend
  }

  lemma {:induction false} DropAllKeepsPin(core: MediaCore.Core, order: seq<SessionId>, active: set<CallId>, now: int, c: CallId)
    requires core.live <= core.records.Keys && c in active
    ensures PinStays(core.mgr, MediaCore.DropAll(core, order, active, now).mgr, c)
    decreases |order|
  {
    if order == [] { return; }
    MediaCore.DropKeepsLiveRecorded(core, order[0], active, now);
    DropAllKeepsPin(MediaCore.Drop(core, order[0], active, now), order[1..], active, now, c);
  }

  lemma CreateKeepsPin(s: M.State, e: M.Event, c: CallId)
    requires M.CreateEvent(e) && KnowsActive(e, c)
    ensures PinStays(s.core.mgr, M.StepCreate(s, e).core.mgr, c)
  {
    if M.StepCreate(s, e) == s { return; }
    match e {
      case Admit(_, _, _) => return;
      case Pick(op, backends, now) => PickHonoursPin(s.core.mgr, backends, None, s.ops[op].callId, now); return;
      case RegisterPick(_, _) => return;
      case Opened(_, _, _, _) => return;
      case Configured(_, _, _) => return;
      case Unwound(_, _, _) => return;
      case SweepPins(_, _) => return;
    }
  }

  lemma TeardownKeepsPin(s: M.State, e: M.Event, c: CallId)
    requires s.core.live <= s.core.records.Keys && M.TeardownEvent(e) && KnowsActive(e, c)
    ensures PinStays(s.core.mgr, M.StepTeardown(s, e).core.mgr, c)
  {
    if M.StepTeardown(s, e) == s { return; }
    match e {
      case BeginDestroy(_, _) => return;
      case Destroyed(_, _, _) => return;
      case SocketClosed(_, _, _) => return;
      case OwnerLeft(_, order, active, now) => DropAllKeepsPin(s.core, order, active, now, c); return;
      case Stop => return;
      case ShutdownDestroyed(_, _, _) => return;
    }
  }

  lemma MediaKeepsPin(s: M.State, e: M.Event, c: CallId)
    requires s.core.live <= s.core.records.Keys && KnowsActive(e, c)
    ensures PinStays(s.core.mgr, M.Step(s, e).core.mgr, c)
  {
    if M.CreateEvent(e) {
      CreateKeepsPin(s, e, c);
    } else if M.EndpointEvent(e) {
      EndpointLeavesSessions(s, e);
    } else if M.TeardownEvent(e) {
      TeardownKeepsPin(s, e, c);
    } else {
      ActionLeavesSessions(s, e);
    }
  }

  lemma PinSessions(g: Gateway, session: M.Event, c: CallId)
    requires g.media.core.live <= g.media.core.records.Keys && c in S.Taken(g.sip)
    ensures PinStays(g.media.core.mgr, Step(g, Sessions(session)).media.core.mgr, c)
  {
    if session.Stop? || session.OwnerLeft? || !Admitted(g, session) { return; }
    MediaKeepsPin(g.media, WithActive(session, S.Taken(g.sip)), c);
  }

  lemma PinDisconnect(g: Gateway, connection: ConnectionId, order: seq<SessionId>, now: int, c: CallId)
    requires g.media.core.live <= g.media.core.records.Keys && c in S.Taken(Step(g, Disconnect(connection, order, now)).sip)
    ensures PinStays(g.media.core.mgr, Step(g, Disconnect(connection, order, now)).media.core.mgr, c)
  {
    if !MediaCore.OwnedOrder(g.media.core, connection, order) { return; }
    MediaKeepsPin(g.media, MediaLoses(g, connection, order, now), c);
  }

  lemma PinStep(g: Gateway, e: Event, c: CallId)
    requires g.media.core.live <= g.media.core.records.Keys && c in S.Taken(g.sip) && c in S.Taken(Step(g, e).sip)
    ensures PinStays(g.media.core.mgr, Step(g, e).media.core.mgr, c)
  {
    match e {
      case Sessions(session) => PinSessions(g, session, c); return;
      case Disconnect(connection, order, now) => PinDisconnect(g, connection, order, now, c); return;
      case Poll => MediaKeepsPin(g.media, M.Stop, c); return;
      case Deadline => MediaKeepsPin(g.media, M.Stop, c); return;
      case _ => return;
    }
  }

  lemma RunLiveRecorded(now: int, maxWaitMs: nat, cleanupMs: nat, events: seq<Event>)
    ensures var core := StateAfter(Fresh(now, maxWaitMs, cleanupMs), events).media.core; core.live <= core.records.Keys
  {
    RunInv(now, maxWaitMs, cleanupMs, events);
  }

  /** As long as a call is registered or reserved its pin stays on one backend, also while it has no media
      session and however long that lasts. */
  lemma {:induction false} CallKeepsItsBackend(
    now: int, maxWaitMs: nat, cleanupMs: nat, events: seq<Event>, more: seq<Event>, c: CallId)
    requires var start := Fresh(now, maxWaitMs, cleanupMs);
             forall k :: 0 <= k <= |more| ==> c in S.Taken(StateAfter(start, events + more[..k]).sip)
    ensures var start := Fresh(now, maxWaitMs, cleanupMs);
            PinStays(StateAfter(start, events).media.core.mgr, StateAfter(start, events + more).media.core.mgr, c)
    decreases |more|
  {
    var start := Fresh(now, maxWaitMs, cleanupMs);
    if more == [] {
      assert events + more == events;
      return;
    }
    var init, last := more[..|more| - 1], more[|more| - 1];
    TakenThroughout(start, events, more, c);
    CallKeepsItsBackend(now, maxWaitMs, cleanupMs, events, init, c);
    RunLiveRecorded(now, maxWaitMs, cleanupMs, events + init);
    RunSplit(start, events, more);
    PinStep(StateAfter(start, events + init), last, c);
  }

  /** The last step of a continuation. */
  lemma RunSplit(start: Gateway, events: seq<Event>, more: seq<Event>)
    requires more != []
    ensures StateAfter(start, events + more) == Step(StateAfter(start, events + more[..|more| - 1]), more[|more| - 1])
  {
    assert (events + more)[..|events + more| - 1] == events + more[..|more| - 1];
  }

  lemma TakenThroughout(start: Gateway, events: seq<Event>, more: seq<Event>, c: CallId)
    requires more != [] && forall k :: 0 <= k <= |more| ==> c in S.Taken(StateAfter(start, events + more[..k]).sip)
    ensures var init := more[..|more| - 1];
            && (forall k :: 0 <= k <= |init| ==> c in S.Taken(StateAfter(start, events + init[..k]).sip))
            && c in S.Taken(StateAfter(start, events + init).sip) && c in S.Taken(StateAfter(start, events + more).sip)
  {
    var init := more[..|more| - 1];
    forall k | 0 <= k <= |init|
      ensures c in S.Taken(StateAfter(start, events + init[..k]).sip)
    {
      assert init[..k] == more[..k];
    }
    assert init[..|init|] == init && more[..|more|] == more;
  }
}
