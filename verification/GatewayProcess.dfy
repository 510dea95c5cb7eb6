/** The objects as src/index.ts wires them: one lifecycle, which counts the operations and the resources of the SIP
    gateway and of the media sessions, and whose stop hook shuts both down; one handler for lost control
    connections. Each method takes the step of the whole gateway that its contract names. */
module GatewayProcess {
  import opened Prelude
  import L = GatewayLifecycle
  import S = SipCalls
  import M = MediaSystem
  import D = DrachtioGateway
  import O = MediaOperations
  import MediaCore
  import G = Gateway
  import SipTracking

  lemma DrainKeepsCalls(life: L.Lifecycle, s: S.Sip)
    requires D.Sound(life, s)
    ensures D.Sound(L.Drained(life), s.(draining := true)) && S.Step(s, S.EDrain) == s.(draining := true)
  {
    L.InvStep(life, L.StartDrain);
    S.DrainInv(s);
    assert L.Drained(life).open == life.open;
    forall w: L.Token | w.InviteWork? || w.AttemptWork?
      ensures w in life.open <==> SipTracking.SipBusy(s.(draining := true), w)
    {
    }
  }

  lemma DrainKeepsSessions(life: L.Lifecycle, s: M.State)
    requires O.Sound(life, s)
    ensures O.Sound(L.Drained(life), s)
  {
    L.InvStep(life, L.StartDrain);
  }

  /** The timers move no operation; they stop the gateway or leave its flags alone. */
  lemma TimerMoves(life: L.Lifecycle, s: S.Sip, m: M.State, e: L.Event)
    requires D.Sound(life, s) && O.Sound(life, m) && (e.PollFires? || e.DeadlineFires?)
    ensures var life' := L.Step(life, e);
            && life'.open == life.open && (life.isStopping ==> life'.isStopping)
            && (life'.isStopping == life.isStopping ==> D.Sound(life', s) && O.Sound(life', m))
            && (life'.isStopping != life.isStopping ==> D.StopsNow(life', s.(stopping := true)))
  {
    L.InvStep(life, e);
    if L.Step(life, e).isStopping != life.isStopping {
      assert s.(stopping := true).(stopping := false) == s;
      forall w: L.Token
        ensures SipTracking.SipBusy(s.(stopping := true), w) <==> SipTracking.SipBusy(s, w)
      {
      }
    }
  }

  function TimerEvent(g: G.Gateway, e: G.Event): L.Event {
    if e.Poll? then L.PollFires(G.Resources(g)) else L.DeadlineFires(G.Resources(g))
  }

  lemma TimerTakes(g: G.Gateway, e: G.Event)
    requires (e.Poll? || e.Deadline?) && !g.life.isStopping
    ensures var life := L.Step(g.life, TimerEvent(g, e));
            G.Step(g, e) == if life.isStopping then G.Gateway(life, S.Step(g.sip, S.EStop), M.Step(g.media, M.Stop), g.clean)
            else g.(life := life)
  {
  }

  lemma DisconnectTakes(g: G.Gateway, connection: ConnectionId, order: seq<SessionId>, now: int)
    requires MediaCore.OwnedOrder(g.media.core, connection, order)
    ensures var sip := S.Step(g.sip, S.EOwnerLeft(connection));
            G.Step(g, G.Disconnect(connection, order, now))
            == g.(sip := sip, media := M.Step(g.media, M.OwnerLeft(connection, order, S.Taken(sip), now)))
  {
  }

  class GatewayProcess {
    const lifecycle: L.GatewayLifecycle
    const gateway: D.DrachtioGateway
    const media: O.MediaOperations
    /** Whether the stop hook has settled before its time limit. */
    ghost var clean: bool

    ghost function Model(): G.Gateway
      reads this, lifecycle, gateway, gateway.registry, gateway.lifecycle, media
    {
      G.Gateway(lifecycle.Model(), gateway.Model(), media.state, clean)
    }

    ghost predicate Valid()
      reads this, lifecycle, gateway, gateway.registry, gateway.lifecycle
      reads media, media.service, media.service.known.Values, media.service.mediaServers, media.lifecycle
    {
      gateway.lifecycle == lifecycle && media.lifecycle == lifecycle && gateway.Valid() && media.Valid()
    }

    constructor (lifecycle: L.GatewayLifecycle, gateway: D.DrachtioGateway, media: O.MediaOperations)
      requires gateway.lifecycle == lifecycle && media.lifecycle == lifecycle && gateway.Valid() && media.Valid()
      ensures Valid() && this.lifecycle == lifecycle && this.gateway == gateway && this.media == media && !clean
    {
      this.lifecycle, this.gateway, this.media, clean := lifecycle, gateway, media, false;
    }

    method FireDrain(now: int)
      requires Valid() && now == lifecycle.clock
      modifies lifecycle
      ensures lifecycle.Model() == L.Drained(old(lifecycle.Model()))
      ensures gateway.Model() == old(gateway.Model()).(draining := true)
      ensures media.Tabled() && O.Reached(media.events, media.state) && media.state == old(media.state)
    {
      lifecycle.Drain(now);
    }

    /** SIGTERM, SIGINT or the HTTP request. */
    method Drain(now: int)
      requires Valid() && now == lifecycle.clock
      modifies lifecycle
      ensures Valid() && Model() == G.Step(old(Model()), G.Drain)
    {
      hide M.StateAfter;
      DrainKeepsCalls(lifecycle.Model(), gateway.Model());
      DrainKeepsSessions(lifecycle.Model(), media.state);
      FireDrain(now);
    }

    /** activeResources. */
    method ActiveResources() returns (n: nat)
      requires Valid()
      ensures n == G.Resources(Model())
      ensures n == 0 <==> gateway.registry.calls == map[] && gateway.registry.reservations == {} && media.service.sessions == map[]
    {
      assert |media.service.sessions| == |media.service.sessions.Keys| == |media.state.core.live|;
      n := |gateway.registry.calls| + |gateway.registry.reservations| + |media.service.sessions|;
    }

    method StopCalls()
      requires gateway.lifecycle == lifecycle && D.StopsNow(lifecycle.Model(), gateway.Model())
      requires media.Tabled() && O.Reached(media.events, media.state)
      modifies gateway, gateway.registry
      ensures gateway.Valid() && gateway.Model() == S.Step(old(gateway.Model()).(stopping := false), S.EStop)
      ensures media.Tabled() && O.Reached(media.events, media.state) && lifecycle.Model() == old(lifecycle.Model())
    {
      hide M.StateAfter;
      gateway.Shutdown();
    }

    /** The stop hook of the lifecycle up to its await. */
    method RunStopHook()
      requires gateway.lifecycle == lifecycle && media.lifecycle == lifecycle
      requires D.StopsNow(lifecycle.Model(), gateway.Model())
      requires media.Tabled() && O.Reached(media.events, media.state) && !media.state.stopping
      requires O.Counted(lifecycle.unfinished, media.state)
      modifies gateway, gateway.registry, media
      ensures Valid() && gateway.Model() == S.Step(old(gateway.Model()).(stopping := false), S.EStop)
      ensures media.state == M.Step(old(media.state), M.Stop) && lifecycle.Model() == old(lifecycle.Model())
    {
      StopCalls();
      media.Shutdown();
    }

    /** What a timer of the lifecycle leads to, from the running gateway g before it. */
    method AfterTimer(ghost g: G.Gateway, ghost e: G.Event)
      requires gateway.lifecycle == lifecycle && media.lifecycle == lifecycle && (e.Poll? || e.Deadline?)
      requires D.Sound(g.life, g.sip) && O.Sound(g.life, g.media) && !g.life.isStopping
      requires lifecycle.Model() == L.Step(g.life, TimerEvent(g, e)) && gateway.Model() == g.sip.(stopping := lifecycle.isStopping)
      requires media.Tabled() && O.Reached(media.events, media.state) && media.state == g.media && clean == g.clean
      modifies gateway, gateway.registry, media
      ensures Valid() && Model() == G.Step(g, e)
    {
      TimerMoves(g.life, g.sip, g.media, TimerEvent(g, e));
      TimerTakes(g, e);
      assert g.sip.(stopping := true).(stopping := false) == g.sip;
      if lifecycle.isStopping { RunStopHook(); }
    }

    /** The poll of the lifecycle itself. */
    method FirePoll(resources: nat, now: int)
      requires Valid() && now == lifecycle.clock && lifecycle.pollTimer == Some(now)
      modifies lifecycle
      ensures lifecycle.Model() == L.Step(old(lifecycle.Model()), L.PollFires(resources))
      ensures lifecycle.isStopping <==> old(lifecycle.isStopping) || (old(lifecycle.pendingOperations) == 0 && resources == 0)
      ensures lifecycle.isStopping ==> lifecycle.stops == [L.StopRun(false, now, 0, 0)]
      ensures gateway.Model() == old(gateway.Model()).(stopping := lifecycle.isStopping)
      ensures media.Tabled() && O.Reached(media.events, media.state) && media.state == old(media.state)
    {
      lifecycle.OnPoll(resources, now);
    }

    /** The timer of a drain that polls, with the stop hook. */
    method OnPoll(now: int)
      requires Valid() && now == lifecycle.clock && lifecycle.pollTimer == Some(now)
      modifies lifecycle, gateway, gateway.registry, media
      ensures Valid() && Model() == G.Step(old(Model()), G.Poll)
      ensures lifecycle.isStopping <==> old(lifecycle.pendingOperations == 0 && gateway.registry.calls == map[]
                                            && gateway.registry.reservations == {} && media.service.sessions == map[])
      ensures lifecycle.isStopping ==> lifecycle.stops == [L.StopRun(false, now, 0, 0)] && media.state.stopping
    {
      hide M.StateAfter;
      ghost var g := Model();
      var resources := ActiveResources();
      FirePoll(resources, now);
      AfterTimer(g, G.Poll);
    }

    method FireDeadline(resources: nat, now: int)
      requires Valid() && now == lifecycle.clock && lifecycle.deadlineTimer == Some(now)
      modifies lifecycle
      ensures lifecycle.Model() == L.Step(old(lifecycle.Model()), L.DeadlineFires(resources))
      ensures gateway.Model() == old(gateway.Model()).(stopping := lifecycle.isStopping)
      ensures media.Tabled() && O.Reached(media.events, media.state) && media.state == old(media.state)
    {
      lifecycle.OnDeadline(resources, now);
    }

    method OnDeadline(now: int)
      requires Valid() && now == lifecycle.clock && lifecycle.deadlineTimer == Some(now)
      modifies lifecycle, gateway, gateway.registry, media
      ensures Valid() && Model() == G.Step(old(Model()), G.Deadline)
    {
      ghost var g := Model();
      var resources := ActiveResources();
      FireDeadline(resources, now);
      AfterTimer(g, G.Deadline);
    }

    lemma CleanupKeeps(life: L.Lifecycle)
      requires life.cleanup.Some? && D.Sound(life, gateway.Model()) && O.Sound(life, media.state)
      ensures D.Sound(L.Completed(life), gateway.Model()) && O.Sound(L.Completed(life), media.state)
    {
      L.InvStep(life, L.CleanupSettles);
    }

    /** The stop hook has settled. */
    method OnStopSettled(now: int)
      requires Valid() && now == lifecycle.clock && lifecycle.cleanupTimer.Some? && G.Settled(Model())
      modifies lifecycle, this`clean
      ensures Valid() && Model() == G.Step(old(Model()), G.StopSettles)
    {
      CleanupKeeps(lifecycle.Model());
      lifecycle.OnCleanup(now);
      clean := true;
    }

    /** Or its time limit has come first. */
    method OnStopTimesOut(now: int)
      requires Valid() && now == lifecycle.clock && lifecycle.cleanupTimer == Some(now)
      modifies lifecycle
      ensures Valid() && Model() == G.Step(old(Model()), G.StopTimesOut)
    {
      CleanupKeeps(lifecycle.Model());
      lifecycle.OnCleanup(now);
    }

    method LoseCalls(connection: ConnectionId)
      requires Valid()
      modifies gateway, gateway.registry
      ensures Valid() && gateway.Model() == S.Step(old(gateway.Model()), S.EOwnerLeft(connection))
      ensures lifecycle.Model() == old(lifecycle.Model())
    {
      gateway.TerminateCallsForControlConnection(connection);
    }

    method LoseSessions(connection: ConnectionId, active: set<CallId>, now: int) returns (ghost order: seq<SessionId>)
      requires Valid()
      modifies media, media.service, media.service.known.Values, media.service.mediaServers
      ensures Valid() && MediaCore.OwnedOrder(old(media.state).core, connection, order)
      ensures media.state == M.Step(old(media.state), M.OwnerLeft(connection, order, active, now))
      ensures lifecycle.Model() == old(lifecycle.Model()) && gateway.Model() == old(gateway.Model())
    {
      order := media.DestroySessionsForOwner(connection, active, now);
    }

    /** The clean-up after a lost control connection up to its first await: first the calls, then the sessions. */
    method OnDisconnect(connection: ConnectionId, now: int) returns (ghost order: seq<SessionId>)
      requires Valid()
      modifies gateway, gateway.registry, media, media.service, media.service.known.Values, media.service.mediaServers
      ensures Valid() && MediaCore.OwnedOrder(old(Model()).media.core, connection, order)
      ensures Model() == G.Step(old(Model()), G.Disconnect(connection, order, now))
    {
      hide M.StateAfter;
      ghost var g := Model();
      LoseCalls(connection);
      order := LoseSessions(connection, gateway.registry.calls.Keys + gateway.registry.reservations, now);
      DisconnectTakes(g, connection, order, now);
    }
  }
}
