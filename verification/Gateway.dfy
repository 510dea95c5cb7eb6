/** The whole gateway: lifecycle, SIP calls and media sessions in one step system, wired as in src/index.ts.
    The resources that the lifecycle counts, the calls that keep a pin alive, the stop hook and the clean-up
    after a lost control connection all span the three parts. */
module Gateway {
  import opened Prelude
  import L = GatewayLifecycle
  import S = SipCalls
  import M = MediaSystem
  import MediaCore
  import opened Tracking
  import opened SipTracking
  import opened MediaTracking

  /** `clean` once the stop hook has settled before its time limit. */
  datatype Gateway = Gateway(life: L.Lifecycle, sip: S.Sip, media: M.State, clean: bool)

  datatype Event =
    | Calls(call: S.Event)
    | Sessions(session: M.Event)
    | OtherBegins(n: int)
    | OtherEnds(n: int)
    | Drain
    | Poll
    | Deadline
    | StopSettles
    | StopTimesOut
    | Clock(to: int)
    | Disconnect(connection: ConnectionId, order: seq<SessionId>, now: int)

  function Fresh(now: int, maxWaitMs: nat, cleanupMs: nat): Gateway {
    Gateway(L.Fresh(now, maxWaitMs, cleanupMs), S.INIT, M.INIT, false)
  }

  // ----- what spans the parts

  /** The resources whose end a drain waits for. */
  function Resources(g: Gateway): nat {
    |g.sip.calls| + |g.sip.reservations| + |g.media.core.live|
  }

  /** The operation is under way. */
  predicate Busy(g: Gateway, w: L.Token) {
    SipBusy(g.sip, w) || MediaBusy(g.media, w)
  }

  /** isCallActive is answered by the call registry. */
  function WithActive(e: M.Event, active: set<CallId>): M.Event {
    match e
    case Opened(op, ok, _, now) => M.Opened(op, ok, active, now)
    case Unwound(op, _, now) => M.Unwound(op, active, now)
    case SweepPins(_, now) => M.SweepPins(active, now)
    case Destroyed(op, _, now) => M.Destroyed(op, active, now)
    case SocketClosed(sid, _, now) => M.SocketClosed(sid, active, now)
    case ShutdownDestroyed(sid, _, now) => M.ShutdownDestroyed(sid, active, now)
    case _ => e
  }

  /** Operations are refused by a stopping gateway; a draining one opens sessions for known calls only. */
  predicate Admitted(g: Gateway, e: M.Event) {
    e.Admit? ==> !g.life.isStopping && (g.life.isDraining ==> e.callId.Some? && e.callId.value in S.Taken(g.sip))
  }

  /** A timer of the lifecycle; when it stops the gateway both parts start to shut down in the same step. */
  ghost function Fire(g: Gateway, e: L.Event): Gateway {
    var life := L.Step(g.life, e);
    if life.isStopping && !g.life.isStopping
    then Gateway(life, S.Step(g.sip, S.EStop), M.Step(g.media, M.Stop), g.clean)
    else g.(life := life)
  }

  /** A lost control connection takes its calls first, then its sessions. */
  ghost function Lost(g: Gateway, connection: ConnectionId): S.Sip {
    S.Step(g.sip, S.EOwnerLeft(connection))
  }

  ghost function MediaLoses(g: Gateway, connection: ConnectionId, order: seq<SessionId>, now: int): M.Event {
    M.OwnerLeft(connection, order, S.Taken(Lost(g, connection)), now)
  }

  predicate Settled(g: Gateway) {
    g.sip.stopping && g.sip.closing == map[] && g.sip.closingOut == {} && g.media.stopping && g.media.closing == {}
  }

  ghost function Step(g: Gateway, e: Event): Gateway {
    match e
    case Calls(call) =>
      if call.EDrain? || call.EStop? || call.EOwnerLeft? then g
      else
        g.(sip := S.Step(g.sip, call), life := Track(g.life, SipMarks(g.sip, call)))
    case Sessions(session) =>
      if session.Stop? || session.OwnerLeft? || !Admitted(g, session) then g
      else
        g.(media := M.Step(g.media, WithActive(session, S.Taken(g.sip))), life := Track(g.life, MediaMarks(g.media, session)))
    case OtherBegins(n) => g.(life := L.Begun(g.life, L.OtherWork(n)))
    case OtherEnds(n) => g.(life := L.Ended(g.life, L.OtherWork(n)))
    case Drain => g.(life := L.Drained(g.life), sip := S.Step(g.sip, S.EDrain))
    case Poll => Fire(g, L.PollFires(Resources(g)))
    case Deadline => Fire(g, L.DeadlineFires(Resources(g)))
    case StopSettles => if g.life.cleanup.None? || !Settled(g) then g else g.(life := L.Step(g.life, L.CleanupSettles), clean := true)
    case StopTimesOut => g.(life := L.Step(g.life, L.CleanupTimesOut))
    case Clock(to) => g.(life := L.Step(g.life, L.Advance(to)))
    case Disconnect(connection, order, now) =>
      if !MediaCore.OwnedOrder(g.media.core, connection, order) then g
      else g.(sip := Lost(g, connection), media := M.Step(g.media, MediaLoses(g, connection, order, now)))
  }

  ghost function StateAfter(start: Gateway, events: seq<Event>): Gateway {
    if events == [] then start else Step(StateAfter(start, events[..|events| - 1]), events[|events| - 1])
  }
}
