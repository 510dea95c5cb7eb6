/** Control connections with their routes, outstanding requests and event sequences (src/control-hub.ts). */
module ControlHub {
  import opened Prelude
  import opened RequestTable

  datatype Match = Exact | UserPrefix

  /** A route with its normalized value. */
  datatype Route = Route(kind: Match, value: string)

  datatype Failure = TimedOut | NotOpen | SendFailed | Refused | ConnectionClosed

  datatype Outcome = Resolved(from: ConnectionId) | Rejected(failure: Failure)

  /** What becomes of an event handed to a socket: ws.send may throw, or report an error to its callback. */
  datatype Fate = Arrives | Throws | Fails

  datatype Sent = Sent(connection: ConnectionId, session: string, sequence: nat, fate: Fate)

  datatype Connection = Connection(open: bool, routes: seq<Route>, sequences: map<string, nat>)

  /** `owner` remembers the connection of every request ever made, `seen` every connection. */
  datatype Hub = Hub(connections: map<ConnectionId, Connection>, table: Table<Outcome>, owner: map<RequestId, ConnectionId>,
                     seen: set<ConnectionId>, events: seq<Sent>)

  const INIT := Hub(map[], Table({}, {}, []), map[], {}, [])

  // ----- routes

  function MatchName(m: Match): string {
    match m
    case Exact => "exact"
    case UserPrefix => "userPrefix"
  }

  function RouteKey(r: Route): string {
    MatchName(r.kind) + ":" + r.value
  }

  /** Different routes never share a key, whatever characters their values contain. */
  lemma RouteKeyInjective(a: Route, b: Route)
    requires RouteKey(a) == RouteKey(b)
    ensures a == b
  {
    assert RouteKey(a)[0] == RouteKey(b)[0];
    assert a.kind == b.kind;
    var n := |MatchName(a.kind)| + 1;
    assert a.value == RouteKey(a)[n..] == RouteKey(b)[n..] == b.value;
  }

  predicate NoDuplicates(routes: seq<Route>) {
    forall i, j :: 0 <= i < j < |routes| ==> routes[i] != routes[j]
  }

  /** No route is listed twice and none belongs to another connection. */
  predicate Available(connections: map<ConnectionId, Connection>, c: ConnectionId, routes: seq<Route>) {
    && NoDuplicates(routes)
    && (forall other | other in connections && other != c :: forall r | r in routes :: r !in connections[other].routes)
  }

  // ----- synchronous pieces

  function SettleOne(h: Hub, id: RequestId, outcome: Outcome): Hub {
    h.(table := Settle(h.table, id, outcome))
  }

  function SetRoutes(h: Hub, c: ConnectionId, routes: seq<Route>): Hub {
    if c !in h.connections || !Available(h.connections, c, routes) then h
    else h.(connections := h.connections[c := h.connections[c].(routes := routes)])
  }

  /** A request up to its return: it stays pending only when it was handed to an open socket. */
  function Ask(h: Hub, id: RequestId, c: ConnectionId, throws: bool): Hub {
    if c !in h.connections || id in h.owner then h
    else
      var h1 := h.(table := Enter(h.table, id), owner := h.owner[id := c]);
      if !h.connections[c].open then SettleOne(h1, id, Rejected(NotOpen))
      else if throws then SettleOne(h1, id, Rejected(SendFailed))
      else h1
  }

  function Respond(h: Hub, c: ConnectionId, id: RequestId, ok: bool): Hub {
    if id !in h.table.pending || id !in h.owner || h.owner[id] != c then h
    else SettleOne(h, id, if ok then Resolved(c) else Rejected(Refused))
  }

  function Counter(connection: Connection, session: string): nat {
    if session in connection.sequences then connection.sequences[session] else 0
  }

  function SendEvent(h: Hub, c: ConnectionId, session: string, fate: Fate): Hub {
    if c !in h.connections || !h.connections[c].open then h
    else
      var next := Counter(h.connections[c], session) + 1;
      h.(connections := h.connections[c := h.connections[c].(sequences := h.connections[c].sequences[session := next])],
      events := h.events + [Sent(c, session, next, fate)])
  }

  /** The requests that wait for a connection. */
  function WaitingFor(h: Hub, c: ConnectionId): set<RequestId> {
    set id | id in h.table.pending && id in h.owner && h.owner[id] == c
  }

  function RemoveConnection(h: Hub, c: ConnectionId, order: seq<RequestId>): Hub {
    h.(connections := h.connections - {c}, table := SettleAll(h.table, order, Rejected(ConnectionClosed)))
  }

  // ----- one step each

  /** `order` is the order of the pending table. */
  datatype Event =
    | Connect(connection: ConnectionId)
    | SocketState(connection: ConnectionId, open: bool)
    | Register(connection: ConnectionId, routes: seq<Route>)
    | Request(id: RequestId, connection: ConnectionId, throws: bool)
    | SendFails(id: RequestId)
    | TimerFires(id: RequestId)
    | Response(connection: ConnectionId, id: RequestId, ok: bool)
    | Emit(connection: ConnectionId, session: string, fate: Fate)
    | Disconnect(connection: ConnectionId, order: seq<RequestId>)

  function Step(h: Hub, e: Event): Hub {
    match e
    case Connect(c) =>
      if c in h.seen then h else h.(connections := h.connections[c := Connection(true, [], map[])], seen := h.seen + {c})
    case SocketState(c, open) =>
      if c !in h.connections then h else h.(connections := h.connections[c := h.connections[c].(open := open)])
    case Register(c, routes) => SetRoutes(h, c, routes)
    case Request(id, c, throws) => Ask(h, id, c, throws)
    case SendFails(id) => SettleOne(h, id, Rejected(SendFailed))
    case TimerFires(id) => SettleOne(h, id, Rejected(TimedOut))
    case Response(c, id, ok) => Respond(h, c, id, ok)
    case Emit(c, session, fate) => SendEvent(h, c, session, fate)
    case Disconnect(c, order) => if c !in h.connections || !Lists(order, WaitingFor(h, c)) then h else RemoveConnection(h, c, order)
  }

  function StateAfter(events: seq<Event>): Hub {
    if events == [] then INIT else Step(StateAfter(events[..|events| - 1]), events[|events| - 1])
  }

  lemma RunSnoc(events: seq<Event>, e: Event)
    ensures StateAfter(events + [e]) == Step(StateAfter(events), e)
  {
    assert (events + [e])[..|events|] == events;
  }

  // ----- requests

  /** A pending request has a live connection, and only its own connection can have resolved a request. */
  ghost predicate RequestsOk(h: Hub) {
    && TableOk(h.table) && h.table.asked == h.owner.Keys
    && (forall id :: id in h.table.pending ==> h.owner[id] in h.connections)
    && (forall i :: 0 <= i < |h.table.settled| && h.table.settled[i].outcome.Resolved? ==>
                      h.table.settled[i].outcome.from == h.owner[h.table.settled[i].request])
  }

  lemma SettleRequests(h: Hub, id: RequestId, outcome: Outcome)
    requires RequestsOk(h)
    requires outcome.Resolved? && id in h.table.pending ==> h.owner[id] == outcome.from
    ensures RequestsOk(SettleOne(h, id, outcome))
  {
    SettleKeeps(h.table, id, outcome);
  }

  lemma AskRequests(h: Hub, id: RequestId, c: ConnectionId, throws: bool)
    requires RequestsOk(h)
    ensures RequestsOk(Ask(h, id, c, throws))
  {
    if c !in h.connections || id in h.owner { return; }
    var h1 := h.(table := Enter(h.table, id), owner := h.owner[id := c]);
    EnterKeeps(h.table, id);
    assert RequestsOk(h1);
    SettleRequests(h1, id, Rejected(NotOpen));
    SettleRequests(h1, id, Rejected(SendFailed));
  }

  lemma DisconnectRequests(h: Hub, c: ConnectionId, order: seq<RequestId>)
    requires RequestsOk(h) && Lists(order, WaitingFor(h, c))
    ensures RequestsOk(RemoveConnection(h, c, order))
  {
    var h' := RemoveConnection(h, c, order);
    SettleAllKeeps(h.table, order, Rejected(ConnectionClosed));
    SettleAllAdds(h.table, order, Rejected(ConnectionClosed));
    forall id | id in h'.table.pending
      ensures h'.owner[id] in h'.connections
    {
      assert id !in WaitingFor(h, c);
    }
    assert forall i :: 0 <= i < |h.table.settled| ==> h'.table.settled[i] == h.table.settled[i];
  }

  lemma RequestsStep(h: Hub, e: Event)
    requires RequestsOk(h)
    ensures RequestsOk(Step(h, e))
  {
    match e {
      case Request(id, c, throws) => AskRequests(h, id, c, throws); return;
      case SendFails(id) => SettleRequests(h, id, Rejected(SendFailed)); return;
      case TimerFires(id) => SettleRequests(h, id, Rejected(TimedOut)); return;
      case Response(c, id, ok) =>
        if id !in h.table.pending || h.owner[id] != c { return; }
        SettleRequests(h, id, if ok then Resolved(c) else Rejected(Refused));
        return;
      case Disconnect(c, order) =>
        if c !in h.connections || !Lists(order, WaitingFor(h, c)) { return; }
        DisconnectRequests(h, c, order);
        return;
      case Connect(_) => return;
      case SocketState(_, _) => return;
      case Register(_, _) => return;
      case Emit(_, _, _) => return;
    }
  }

  // ----- routes of different connections

  ghost predicate RoutesOk(h: Hub) {
    && (forall c :: c in h.connections ==> NoDuplicates(h.connections[c].routes))
    && (forall c, c' :: c in h.connections && c' in h.connections && c != c' ==>
                          forall r :: r in h.connections[c].routes ==> r !in h.connections[c'].routes)
  }

  lemma RoutesCarry(h: Hub, h': Hub)
    requires RoutesOk(h)
    requires forall c :: c in h'.connections ==> c in h.connections && h'.connections[c].routes == h.connections[c].routes
    ensures RoutesOk(h')
  {
  }

  lemma RoutesStep(h: Hub, e: Event)
    requires RoutesOk(h)
    ensures RoutesOk(Step(h, e))
  {
    if e.Register? || e.Connect? { return; }
    if Step(h, e) == h { return; }
    RoutesCarry(h, Step(h, e));
  }

  // ----- event sequences

  /** The events handed to one connection about one session, in order. */
  function About(events: seq<Sent>, c: ConnectionId, session: string): seq<Sent> {
    if events == [] then []
    else
      var before := About(events[..|events| - 1], c, session);
      var last := events[|events| - 1];
      if last.connection == c && last.session == session then before + [last] else before
  }

  predicate Numbered(about: seq<Sent>) {
    forall i :: 0 <= i < |about| ==> about[i].sequence == i + 1
  }

  ghost predicate CountedOk(h: Hub, c: ConnectionId, session: string) {
    var about := About(h.events, c, session);
    Numbered(about) && (c in h.connections ==> Counter(h.connections[c], session) == |about|) && (c !in h.seen ==> about == [])
  }

  ghost predicate SequencesOk(h: Hub) {
    && h.connections.Keys <= h.seen
    && forall c, session :: CountedOk(h, c, session)
  }

  lemma AboutSnoc(events: seq<Sent>, e: Sent, c: ConnectionId, session: string)
    ensures About(events + [e], c, session)
         == About(events, c, session) + if e.connection == c && e.session == session then [e] else []
  {
    assert (events + [e])[..|events|] == events;
  }

  lemma EmitCounts(h: Hub, c: ConnectionId, session: string, fate: Fate)
    requires SequencesOk(h)
    ensures SequencesOk(SendEvent(h, c, session, fate))
  {
    if c !in h.connections || !h.connections[c].open { return; }
    var h' := SendEvent(h, c, session, fate);
    var e := h'.events[|h.events|];
    forall x, y
      ensures CountedOk(h', x, y)
    {
      assert CountedOk(h, x, y);
      AboutSnoc(h.events, e, x, y);
    }
  }

  lemma CountsCarry(h: Hub, h': Hub)
    requires SequencesOk(h) && h'.events == h.events && h.seen <= h'.seen && h'.connections.Keys <= h'.seen
    requires forall c :: c in h'.connections ==>
                           if c in h.connections then h'.connections[c].sequences == h.connections[c].sequences
                           else c !in h.seen && h'.connections[c].sequences == map[]
    ensures SequencesOk(h')
  {
    forall c, session
      ensures CountedOk(h', c, session)
    {
      assert CountedOk(h, c, session);
    }
  }

  lemma CountsStep(h: Hub, e: Event)
    requires SequencesOk(h)
    ensures SequencesOk(Step(h, e))
  {
    if e.Emit? {
      EmitCounts(h, e.connection, e.session, e.fate);
      return;
    }
    if Step(h, e) == h { return; }
    CountsCarry(h, Step(h, e));
  }

  // ----- every run

  ghost predicate Inv(h: Hub) {
    RequestsOk(h) && RoutesOk(h) && SequencesOk(h)
  }

  lemma InvStep(h: Hub, e: Event)
    requires Inv(h)
    ensures Inv(Step(h, e))
  {
    RequestsStep(h, e);
    RoutesStep(h, e);
    CountsStep(h, e);
  }

  lemma {:induction false} RunInv(events: seq<Event>)
    ensures Inv(StateAfter(events))
    decreases |events|
  {
    if events == [] { return; }
    RunInv(events[..|events| - 1]);
    InvStep(StateAfter(events[..|events| - 1]), events[|events| - 1]);
  }

  /** Each request settles exactly once: it is pending on a live connection, or there is one and only one
      settlement of it, and if that is a result it came from the connection that was asked. */
  lemma {:induction false} EachRequestSettlesOnce(events: seq<Event>, id: RequestId)
    requires id in StateAfter(events).owner
    ensures var h := StateAfter(events);
            if id in h.table.pending then h.owner[id] in h.connections && !IsSettled(h.table.settled, id)
            else
              exists i :: 0 <= i < |h.table.settled| && h.table.settled[i].request == id
                          && (h.table.settled[i].outcome.Resolved? ==> h.table.settled[i].outcome.from == h.owner[id])
                          && forall j :: 0 <= j < |h.table.settled| && h.table.settled[j].request == id ==> j == i
  {
    RunInv(events);
    SettledOnce(StateAfter(events).table, id);
  }

  /** A step settles and enters requests of live connections only. */
  ghost predicate LiveOnly(h: Hub, h': Hub) {
    && h.table.settled <= h'.table.settled
    && (forall i :: |h.table.settled| <= i < |h'.table.settled| ==>
                      h'.table.settled[i].request in h'.owner && h'.owner[h'.table.settled[i].request] in h.connections)
    && (forall id :: id in h'.owner ==> if id in h.owner then h'.owner[id] == h.owner[id] else h'.owner[id] in h.connections)
    && (forall c :: c in h'.connections ==> c in h.connections || c !in h.seen) && h.seen <= h'.seen
  }

  lemma StepLiveOnly(h: Hub, e: Event)
    requires RequestsOk(h)
    ensures LiveOnly(h, Step(h, e))
  {
    if e.Disconnect? && Step(h, e) != h {
      SettleAllAdds(h.table, e.order, Rejected(ConnectionClosed));
      return;
    }
    if e.Request? { return; }
  }

  predicate AskedOf(h: Hub, id: RequestId, c: ConnectionId) {
    id in h.owner && h.owner[id] == c
  }

  /** Since h0 the connection is gone: it is asked nothing, and what was asked of it before is rejected if it was not
      settled yet. */
  ghost predicate Silenced(h0: Hub, h: Hub, c: ConnectionId) {
    && c in h.seen && c !in h.connections && h0.table.settled <= h.table.settled
    && (forall id :: AskedOf(h, id, c) ==> id in h0.owner)
    && (forall i :: |h0.table.settled| <= i < |h.table.settled| && AskedOf(h, h.table.settled[i].request, c) ==>
                      h.table.settled[i].outcome == Rejected(ConnectionClosed))
  }

  lemma StaysSilenced(h0: Hub, h: Hub, h': Hub, c: ConnectionId)
    requires RequestsOk(h) && Silenced(h0, h, c) && LiveOnly(h, h')
    ensures Silenced(h0, h', c)
  {
    forall i | |h0.table.settled| <= i < |h'.table.settled| && AskedOf(h', h'.table.settled[i].request, c)
      ensures h'.table.settled[i].outcome == Rejected(ConnectionClosed)
    {
      if i < |h.table.settled| { assert h'.table.settled[i] == h.table.settled[i]; }
    }
  }

  lemma LossSilences(h: Hub, c: ConnectionId, order: seq<RequestId>)
    requires Inv(h) && c in h.connections && Lists(order, WaitingFor(h, c))
    ensures Silenced(h, Step(h, Disconnect(c, order)), c)
  {
    SettleAllAdds(h.table, order, Rejected(ConnectionClosed));
  }

  lemma {:induction false} SilencedRun(events: seq<Event>, c: ConnectionId, order: seq<RequestId>, more: seq<Event>)
    requires c in StateAfter(events).connections && Lists(order, WaitingFor(StateAfter(events), c))
    ensures Silenced(StateAfter(events), StateAfter(events + [Disconnect(c, order)] + more), c)
    decreases |more|
  {
    var left := events + [Disconnect(c, order)];
    if more == [] {
      assert left + more == left;
      RunSnoc(events, Disconnect(c, order));
      RunInv(events);
      LossSilences(StateAfter(events), c, order);
      return;
    }
    var init, last := more[..|more| - 1], more[|more| - 1];
    SilencedRun(events, c, order, init);
    assert left + more == (left + init) + [last];
    RunSnoc(left + init, last);
    RunInv(left + init);
    StepLiveOnly(StateAfter(left + init), last);
    StaysSilenced(StateAfter(events), StateAfter(left + init), StateAfter(left + more), c);
  }

  /** A lost connection never answers: in every continuation a request that was asked of it no longer waits, was asked
      before the loss, and if it was settled since then, it was rejected because of the loss. */
  lemma {:induction false} LostConnectionNeverAnswers(
    events: seq<Event>, c: ConnectionId, order: seq<RequestId>, more: seq<Event>, id: RequestId)
    requires c in StateAfter(events).connections && Lists(order, WaitingFor(StateAfter(events), c))
    requires AskedOf(StateAfter(events + [Disconnect(c, order)] + more), id, c)
    ensures var h0, h := StateAfter(events), StateAfter(events + [Disconnect(c, order)] + more);
            && id in h0.owner && id !in h.table.pending
            && forall i :: |h0.table.settled| <= i < |h.table.settled| && h.table.settled[i].request == id ==>
                             h.table.settled[i].outcome == Rejected(ConnectionClosed)
  {
    SilencedRun(events, c, order, more);
    RunInv(events + [Disconnect(c, order)] + more);
  }

  // ----- what a settlement says

  /** The event that a settlement comes from: an answer that said ok resolves, all else rejects, each for its reason. */
  ghost predicate Because(past: set<Event>, owner: map<RequestId, ConnectionId>, s: Settlement<Outcome>) {
    s.request in owner
    && match s.outcome
       case Resolved(c) => c == owner[s.request] && Response(c, s.request, true) in past
       case Rejected(Refused) => Response(owner[s.request], s.request, false) in past
       case Rejected(TimedOut) => TimerFires(s.request) in past
       case Rejected(SendFailed) => SendFails(s.request) in past || Request(s.request, owner[s.request], true) in past
       case Rejected(NotOpen) => exists throws :: Request(s.request, owner[s.request], throws) in past
       case Rejected(ConnectionClosed) => exists order :: Disconnect(owner[s.request], order) in past
  }

  ghost predicate AllBecause(past: set<Event>, h: Hub) {
    forall i :: 0 <= i < |h.table.settled| ==> Because(past, h.owner, h.table.settled[i])
  }

  ghost function Past(events: seq<Event>): set<Event> {
    set e | e in events
  }

  lemma BecauseStays(past: set<Event>, e: Event, owner: map<RequestId, ConnectionId>, owner': map<RequestId, ConnectionId>, s: Settlement<Outcome>)
    requires Because(past, owner, s) && s.request in owner' && owner'[s.request] == owner[s.request]
    ensures Because(past + {e}, owner', s)
  {
    match s.outcome {
      case Resolved(_) => return;
      case Rejected(NotOpen) =>
        var throws :| Request(s.request, owner[s.request], throws) in past;
        assert Request(s.request, owner[s.request], throws) in past + {e};
        return;
      case Rejected(ConnectionClosed) =>
        var order :| Disconnect(owner[s.request], order) in past;
        assert Disconnect(owner[s.request], order) in past + {e};
        return;
      case _ => return;
    }
  }

  lemma AskBecause(past: set<Event>, h: Hub, e: Event, i: nat)
    requires RequestsOk(h) && e.Request? && |h.table.settled| <= i < |Step(h, e).table.settled|
    ensures Because(past + {e}, Step(h, e).owner, Step(h, e).table.settled[i])
  {
    assert Request(e.id, e.connection, e.throws) in past + {e};
  }

  lemma DisconnectBecause(past: set<Event>, h: Hub, e: Event, i: nat)
    requires RequestsOk(h) && e.Disconnect? && |h.table.settled| <= i < |Step(h, e).table.settled|
    ensures Because(past + {e}, Step(h, e).owner, Step(h, e).table.settled[i])
  {
    SettleAllAdds(h.table, e.order, Rejected(ConnectionClosed));
    assert Disconnect(e.connection, e.order) in past + {e};
  }

  lemma NewBecause(past: set<Event>, h: Hub, e: Event, i: nat)
    requires RequestsOk(h) && |h.table.settled| <= i < |Step(h, e).table.settled|
    ensures Because(past + {e}, Step(h, e).owner, Step(h, e).table.settled[i])
  {
    if e.Request? {
      AskBecause(past, h, e, i);
      return;
    }
    if e.Disconnect? {
      DisconnectBecause(past, h, e, i);
      return;
    }
    assert e in past + {e};
  }

  lemma BecauseStep(past: set<Event>, h: Hub, e: Event)
    requires RequestsOk(h) && AllBecause(past, h)
    ensures AllBecause(past + {e}, Step(h, e))
  {
    StepLiveOnly(h, e);
    var h' := Step(h, e);
    forall i | 0 <= i < |h'.table.settled|
      ensures Because(past + {e}, h'.owner, h'.table.settled[i])
    {
      if i < |h.table.settled| {
        BecauseStays(past, e, h.owner, h'.owner, h.table.settled[i]);
      } else {
        NewBecause(past, h, e, i);
      }
    }
  }

  /** In every run a request was resolved only by an answer of its own connection that said ok, refused only by one that
      did not, and rejected otherwise only by its timer, its send, or the state or loss of its connection. */
  lemma {:induction false} SettledForItsReason(events: seq<Event>)
    ensures AllBecause(Past(events), StateAfter(events))
    decreases |events|
  {
    if events == [] { return; }
    var init, last := events[..|events| - 1], events[|events| - 1];
    SettledForItsReason(init);
    RunInv(init);
    BecauseStep(Past(init), StateAfter(init), last);
    assert Past(events) == Past(init) + {last};
  }

  /** And such an answer does settle a request that waits: with its result when it said ok, and else as refused. */
  lemma AnswerSettles(events: seq<Event>, id: RequestId, ok: bool)
    requires id in StateAfter(events).table.pending
    ensures var h := StateAfter(events);
            && id in h.owner
            && var h' := Step(h, Response(h.owner[id], id, ok));
            && h'.table.pending == h.table.pending - {id}
            && h'.table.settled == h.table.settled + [Settlement(id, if ok then Resolved(h.owner[id]) else Rejected(Refused))]
  {
    RunInv(events);
  }

  /** A connection may always register again what it has, and a subset of it; of what is free it may take any list. */
  lemma OwnRoutesStayAvailable(events: seq<Event>, c: ConnectionId, routes: seq<Route>)
    requires c in StateAfter(events).connections && NoDuplicates(routes)
    requires forall r | r in routes ::
               forall d | d in StateAfter(events).connections && r in StateAfter(events).connections[d].routes :: d == c
    ensures var h' := Step(StateAfter(events), Register(c, routes)); c in h'.connections && h'.connections[c].routes == routes
  {
  }

  /** No route key is held twice: neither by two connections nor twice by one. */
  lemma {:induction false} RouteKeysAreUnique(events: seq<Event>, c: ConnectionId, c': ConnectionId, i: nat, j: nat)
    requires var cs := StateAfter(events).connections;
             && c in cs && c' in cs && i < |cs[c].routes| && j < |cs[c'].routes|
             && RouteKey(cs[c].routes[i]) == RouteKey(cs[c'].routes[j])
    ensures c == c' && i == j
  {
    RunInv(events);
    var cs := StateAfter(events).connections;
    RouteKeyInjective(cs[c].routes[i], cs[c'].routes[j]);
    assert cs[c].routes[i] in cs[c].routes && cs[c'].routes[j] in cs[c'].routes;
  }

  /** The events that a connection is handed about a session are numbered 1, 2, 3 and so on. */
  lemma {:induction false} SessionEventsAreNumbered(events: seq<Event>, c: ConnectionId, session: string)
    ensures Numbered(About(StateAfter(events).events, c, session))
  {
    RunInv(events);
    assert CountedOk(StateAfter(events), c, session);
  }

  // ----- what arrives

  function Arrived(about: seq<Sent>): seq<Sent> {
    if about == [] then []
    else
      var before := Arrived(about[..|about| - 1]);
      if about[|about| - 1].fate.Arrives? then before + [about[|about| - 1]] else before
  }

  predicate Increasing(d: seq<Sent>, limit: nat) {
    && (forall i :: 0 <= i < |d| ==> d[i].sequence <= limit)
    && (forall i, j :: 0 <= i < j < |d| ==> d[i].sequence < d[j].sequence)
  }

  lemma {:induction false} ArrivedIncrease(about: seq<Sent>)
    requires Numbered(about)
    ensures Increasing(Arrived(about), |about|)
    decreases |about|
  {
    if about == [] { return; }
    var init := about[..|about| - 1];
    assert Numbered(init) && about[|about| - 1].sequence == |about|;
    ArrivedIncrease(init);
    assert Increasing(Arrived(init) + [about[|about| - 1]], |about|);
  }

  /** The numbers that arrive are 1, 2, 3 and so on: none is missing below one that arrives. */
  predicate Gapless(d: seq<Sent>) {
    forall i :: 0 <= i < |d| ==> d[i].sequence == i + 1
  }

  predicate AllArrive(about: seq<Sent>) {
    forall i :: 0 <= i < |about| ==> about[i].fate.Arrives?
  }

  /** After an event that was lost none arrives any more. */
  predicate LossIsLast(about: seq<Sent>) {
    forall i, j :: 0 <= i < j < |about| && about[j].fate.Arrives? ==> about[i].fate.Arrives?
  }

  lemma {:induction false} ArrivedCount(about: seq<Sent>)
    ensures |Arrived(about)| <= |about| && (|Arrived(about)| == |about| <==> AllArrive(about))
    decreases |about|
  {
    if about == [] { return; }
    var init := about[..|about| - 1];
    ArrivedCount(init);
    assert AllArrive(about) <==> AllArrive(init) && about[|about| - 1].fate.Arrives? by {
      assert forall i :: 0 <= i < |init| ==> init[i] == about[i];
    }
  }

  lemma LossIsLastSnoc(init: seq<Sent>, last: Sent)
    ensures LossIsLast(init + [last]) <==> LossIsLast(init) && (last.fate.Arrives? ==> AllArrive(init))
  {
    var about := init + [last];
    assert forall i :: 0 <= i < |init| ==> about[i] == init[i];
    if LossIsLast(about) {
      assert about[|init|] == last;
    }
  }

  lemma {:induction false} GaplessArrived(about: seq<Sent>)
    requires Numbered(about)
    ensures Gapless(Arrived(about)) <==> LossIsLast(about)
    decreases |about|
  {
    if about == [] { return; }
    var init, last := about[..|about| - 1], about[|about| - 1];
    assert Numbered(init) && about == init + [last];
    GaplessArrived(init);
    ArrivedCount(init);
    LossIsLastSnoc(init, last);
    if !last.fate.Arrives? { return; }
    var before := Arrived(init);
    assert Arrived(about) == before + [last] && last.sequence == |init| + 1;
    assert Gapless(before + [last]) <==> Gapless(before) && last.sequence == |before| + 1 by {
      assert (before + [last])[|before|] == last;
      assert forall i :: 0 <= i < |before| ==> (before + [last])[i] == before[i];
    }
    if AllArrive(init) {
      assert LossIsLast(init);
    }
  }

  /** What the owner receives about a session is strictly increasing, and it is gapless exactly when nothing
      arrives after an event that was lost: an event whose send throws or fails has used up its number. */
  lemma {:induction false} ReceivedNumbersIncrease(events: seq<Event>, c: ConnectionId, session: string)
    ensures var about := About(StateAfter(events).events, c, session);
            Increasing(Arrived(about), |about|) && (Gapless(Arrived(about)) <==> LossIsLast(about))
  {
    SessionEventsAreNumbered(events, c, session);
    ArrivedIncrease(About(StateAfter(events).events, c, session));
    GaplessArrived(About(StateAfter(events).events, c, session));
  }

  /** A run with a gap: the send of the first event fails in its callback, and the first that arrives is
      number 2. */
  lemma LostEventLeavesGap() returns (events: seq<Event>)
    ensures var d := Arrived(About(StateAfter(events).events, 1, "s")); |d| == 1 && d[0].sequence == 2 && !Gapless(d)
  {
    var e1 := [] + [Connect(1)];
    var e2 := e1 + [Emit(1, "s", Fails)];
    events := e2 + [Emit(1, "s", Arrives)];
    RunSnoc([], Connect(1));
    RunSnoc(e1, Emit(1, "s", Fails));
    RunSnoc(e2, Emit(1, "s", Arrives));
    var a, b := Sent(1, "s", 1, Fails), Sent(1, "s", 2, Arrives);
    assert StateAfter(e2).events == [] + [a];
    assert StateAfter(events).events == ([] + [a]) + [b];
    AboutSnoc([], a, 1, "s");
    AboutSnoc([] + [a], b, 1, "s");
    var about := About(StateAfter(events).events, 1, "s");
    assert about == [a, b] && about[..1] == [a] && [a][..0] == [];
    assert Arrived([a]) == [];
    assert Arrived(about) == [b];
  }

  // ----- the object

  datatype RouteError = NotConnected | Conflict

  /** `keys` are the keys of the first n routes. */
  ghost predicate KeysOf(routes: seq<Route>, n: nat, keys: set<string>)
    requires n <= |routes|
  {
    && (forall j :: 0 <= j < n ==> RouteKey(routes[j]) in keys)
    && (forall k :: k in keys ==> exists j :: 0 <= j < n && RouteKey(routes[j]) == k)
  }

  lemma KeyTaken(routes: seq<Route>, n: nat, keys: set<string>)
    requires n < |routes| && KeysOf(routes, n, keys)
    ensures RouteKey(routes[n]) in keys <==> exists j :: 0 <= j < n && routes[j] == routes[n]
  {
    if RouteKey(routes[n]) in keys {
      var j :| 0 <= j < n && RouteKey(routes[j]) == RouteKey(routes[n]);
      RouteKeyInjective(routes[j], routes[n]);
    }
  }

  lemma KeyAdded(routes: seq<Route>, n: nat, keys: set<string>)
    requires n < |routes| && KeysOf(routes, n, keys)
    ensures KeysOf(routes, n + 1, keys + {RouteKey(routes[n])})
  {
  }

  class ControlHub {
    var connections: map<ConnectionId, Connection>
    /** The requests that wait, each with its connection. */
    var pending: map<RequestId, ConnectionId>
    /** The requests ever made, the promises settled, the connections ever opened, and the events sent. */
    ghost var owner: map<RequestId, ConnectionId>
    ghost var settled: seq<Settlement<Outcome>>
    ghost var seen: set<ConnectionId>
    ghost var events: seq<Sent>

    ghost function Model(): Hub
      reads this
    {
      Hub(connections, Table(pending.Keys, owner.Keys, settled), owner, seen, events)
    }

    /** What every run keeps; the hub is always between two steps of a run when no method is running. */
    ghost predicate Valid()
      reads this
    {
      Agrees() && Inv(Model())
    }

    ghost predicate Agrees()
      reads this
    {
      forall id :: id in pending ==> id in owner && owner[id] == pending[id]
    }

    constructor ()
      ensures Valid() && Model() == INIT
    {
      connections, pending, owner, settled, seen, events := map[], map[], map[], [], {}, [];
    }

    method RegisterConnection(id: ConnectionId)
      requires Valid() && id !in seen
      modifies this`connections, this`seen
      ensures Valid() && Model() == Step(old(Model()), Connect(id))
    {
      InvStep(Model(), Connect(id));
      connections := connections[id := Connection(true, [], map[])];
      seen := seen + {id};
    }

    // ----- routes

    method AssertDistinct(routes: seq<Route>) returns (ok: bool)
      ensures ok <==> NoDuplicates(routes)
    {
      var keys: set<string> := {};
      for i := 0 to |routes|
        invariant KeysOf(routes, i, keys)
        invariant forall j, k :: 0 <= j < k < i ==> routes[j] != routes[k]
      {
        KeyTaken(routes, i, keys);
        if RouteKey(routes[i]) in keys { return false; }
        KeyAdded(routes, i, keys);
        keys := keys + {RouteKey(routes[i])};
      }
      return true;
    }

    /** None of the routes is claimed by the connection. */
    method Unclaimed(routes: seq<Route>, connection: Connection) returns (ok: bool)
      ensures ok <==> forall r | r in routes :: r !in connection.routes
    {
      var claimed := set r | r in connection.routes :: RouteKey(r);
      for i := 0 to |routes|
        invariant forall j :: 0 <= j < i ==> routes[j] !in connection.routes
      {
        if RouteKey(routes[i]) in claimed {
          var r :| r in connection.routes && RouteKey(r) == RouteKey(routes[i]);
          RouteKeyInjective(r, routes[i]);
          return false;
        }
      }
      return true;
    }

    method AssertRoutesAvailable(owner: ConnectionId, routes: seq<Route>) returns (ok: bool)
      ensures ok <==> Available(connections, owner, routes)
      ensures ok <==> (forall i, j :: 0 <= i < j < |routes| ==> routes[i] != routes[j])
                      && (forall other | other in connections && other != owner ::
                            forall r | r in routes :: r !in connections[other].routes)
    {
      ok := AssertDistinct(routes);
      if !ok { return; }
      var todo := connections.Keys;
      while todo != {}
        invariant todo <= connections.Keys
        invariant forall other | other in connections && other !in todo && other != owner ::
                    forall r | r in routes :: r !in connections[other].routes
        decreases |todo|
      {
        var other := AnyOf(todo);
        todo := todo - {other};
        if other != owner {
          ok := Unclaimed(routes, connections[other]);
          if !ok { return; }
        }
      }
      return true;
    }

    method SetRoutes(connectionId: ConnectionId, routes: seq<Route>) returns (r: Result<seq<Route>, RouteError>)
      requires Valid()
      modifies this`connections
      ensures r == (if connectionId !in old(connections) then Err(NotConnected)
                    else if !Available(old(connections), connectionId, routes) then Err(Conflict)
                    else Ok(routes))
      ensures Valid() && Model() == Step(old(Model()), Register(connectionId, routes))
      ensures if r.Ok? then connections == old(connections)[connectionId := old(connections)[connectionId].(routes := routes)]
              else connections == old(connections)
    {
      InvStep(Model(), Register(connectionId, routes));
      if connectionId !in connections { return Err(NotConnected); }
      var ok := AssertRoutesAvailable(connectionId, routes);
      if !ok { return Err(Conflict); }
      connections := connections[connectionId := connections[connectionId].(routes := routes)];
      return Ok(routes);
    }

    // ----- requests

    method RejectPending(id: RequestId, failure: Failure)
      requires Agrees()
      modifies this`pending, this`settled
      ensures Agrees() && Model() == SettleOne(old(Model()), id, Rejected(failure))
      ensures pending == old(pending) - {id}
    {
      if id !in pending { return; }
      pending := pending - {id};
      settled := settled + [Settlement(id, Rejected(failure))];
    }

    /** `throws` says whether ws.send throws. */
    method Ask(id: RequestId, connectionId: ConnectionId, throws: bool) returns (accepted: bool)
      requires Valid() && id !in owner
      modifies this`pending, this`settled, this`owner
      ensures accepted <==> connectionId in connections
      ensures Valid() && Model() == Step(old(Model()), Request(id, connectionId, throws))
      ensures id in pending <==> connectionId in connections && connections[connectionId].open && !throws
      ensures accepted && id !in pending ==>
                settled == old(settled) + [Settlement(id, Rejected(if connections[connectionId].open then SendFailed else NotOpen))]
    {
      InvStep(Model(), Request(id, connectionId, throws));
      if connectionId !in connections { return false; }
      pending := pending[id := connectionId];
      owner := owner[id := connectionId];
      assert Model().table == Enter(old(Model()).table, id);
      if !connections[connectionId].open {
        RejectPending(id, NotOpen);
      } else if throws {
        RejectPending(id, SendFailed);
      }
      return true;
    }

    /** The callback of ws.send reports an error. */
    method OnSendError(id: RequestId)
      requires Valid()
      modifies this`pending, this`settled
      ensures Valid() && Model() == Step(old(Model()), SendFails(id))
    {
      InvStep(Model(), SendFails(id));
      RejectPending(id, SendFailed);
    }

    method OnTimer(id: RequestId)
      requires Valid()
      modifies this`pending, this`settled
      ensures Valid() && Model() == Step(old(Model()), TimerFires(id))
    {
      InvStep(Model(), TimerFires(id));
      RejectPending(id, TimedOut);
    }

    method HandleResponse(connectionId: ConnectionId, id: RequestId, ok: bool) returns (handled: bool)
      requires Valid()
      modifies this`pending, this`settled
      ensures handled <==> id in old(pending) && old(pending)[id] == connectionId
      ensures Valid() && Model() == Step(old(Model()), Response(connectionId, id, ok))
      ensures settled == old(settled)
                         + if handled then [Settlement(id, if ok then Resolved(connectionId) else Rejected(Refused))] else []
      ensures pending == if handled then old(pending) - {id} else old(pending)
    {
      InvStep(Model(), Response(connectionId, id, ok));
      if id !in pending || pending[id] != connectionId { return false; }
      pending := pending - {id};
      settled := settled + [Settlement(id, if ok then Resolved(connectionId) else Rejected(Refused))];
      return true;
    }

    /** The loop over the pending table. */
    method RejectAllOf(connectionId: ConnectionId) returns (ghost order: seq<RequestId>)
      requires Agrees()
      modifies this`pending, this`settled
      ensures Agrees() && Lists(order, old(WaitingFor(Model(), connectionId)))
      ensures Model() == old(Model()).(table := SettleAll(old(Model()).table, order, Rejected(ConnectionClosed)))
    {
      order := [];
      ghost var before := Model();
      var todo := pending.Keys;
      while todo != {}
        invariant Agrees() && todo <= pending.Keys
        invariant forall id :: id in old(pending) <==> id in pending || id in order
        invariant forall id :: id in pending && id !in todo ==> pending[id] != connectionId
        invariant forall id :: id in pending ==> pending[id] == old(pending)[id]
        invariant forall id :: id in order ==> id !in pending && id in old(pending) && old(pending)[id] == connectionId
        invariant forall i, j :: 0 <= i < j < |order| ==> order[i] != order[j]
        invariant Model() == before.(table := SettleAll(before.table, order, Rejected(ConnectionClosed)))
        decreases |todo|
      {
        var id := AnyOf(todo);
        todo := todo - {id};
        if pending[id] == connectionId {
          assert (order + [id])[..|order|] == order;
          RejectPending(id, ConnectionClosed);
          order := order + [id];
        }
      }
    }

    /** The connection goes first, then every request that waits for it is rejected. */
    method RemoveConnection(connectionId: ConnectionId) returns (ghost order: seq<RequestId>)
      requires Valid()
      modifies this`connections, this`pending, this`settled
      ensures Valid()
      ensures connectionId in old(connections) ==> Lists(order, WaitingFor(old(Model()), connectionId))
      ensures Model() == Step(old(Model()), Disconnect(connectionId, order))
    {
      if connectionId !in connections { return []; }
      connections := connections - {connectionId};
      order := RejectAllOf(connectionId);
      InvStep(old(Model()), Disconnect(connectionId, order));
    }

    // ----- events

    method SendEvent(connectionId: ConnectionId, session: string, fate: Fate) returns (handed: bool)
      requires Valid()
      modifies this`connections, this`events
      ensures handed <==> connectionId in old(connections) && old(connections)[connectionId].open && !fate.Throws?
      ensures Valid() && Model() == Step(old(Model()), Emit(connectionId, session, fate))
    {
      InvStep(Model(), Emit(connectionId, session, fate));
      if connectionId !in connections || !connections[connectionId].open { return false; }
      var connection := connections[connectionId];
      var sequence := Counter(connection, session) + 1;
      connections := connections[connectionId := connection.(sequences := connection.sequences[session := sequence])];
      events := events + [Sent(connectionId, session, sequence, fate)];
      return !fate.Throws?;
    }
  }
}
