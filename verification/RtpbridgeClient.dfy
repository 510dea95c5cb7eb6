/** The request table and close handlers of one rtpbridge socket (src/rtpbridge-client.ts). */
module RtpbridgeClient {
  import opened Prelude
  import opened RequestTable

  type HandlerId = int

  datatype Socket = Connecting | Open | Closing | Closed

  datatype Outcome = Resolved | Failed | TimedOut | SendFailed | SocketLost

  /** `registered` are the close handlers ever given, `fired` those called. */
  datatype Client = Client(socket: Socket, table: Table<Outcome>, closeHandlers: seq<HandlerId>, intentionalClose: bool,
                           registered: seq<HandlerId>, fired: seq<HandlerId>)

  const INIT := Client(Connecting, Table({}, {}, []), [], false, [], [])

  // ----- synchronous pieces

  function SettleOne(c: Client, id: RequestId, outcome: Outcome): Client {
    c.(table := Settle(c.table, id, outcome))
  }

  /** A request once the socket is ready; it stays pending only if it was handed to an open socket. */
  function Send(c: Client, id: RequestId, throws: bool): Client {
    if id in c.table.asked then c
    else
      var t := Enter(c.table, id);
      c.(table := if !c.socket.Open? || throws then Settle(t, id, SendFailed) else t)
  }

  /** rejectAllPending in the order of the table. */
  function LoseAll(c: Client, order: seq<RequestId>): Client {
    c.(table := SettleAll(c.table, order, SocketLost))
  }

  function FireCloseHandlers(c: Client): Client {
    if c.intentionalClose then c
    else c.(intentionalClose := true, closeHandlers := [], fired := c.fired + c.closeHandlers)
  }

  // ----- one step each

  datatype Event =
    | SocketMoves(to: Socket)
    | OnError(order: seq<RequestId>)
    | OnClosed(order: seq<RequestId>)
    | AddHandler(handler: HandlerId)
    | Close
    | Request(id: RequestId, throws: bool)
    | SendFails(id: RequestId)
    | TimerFires(id: RequestId)
    | Response(id: RequestId, ok: bool)

  /** A socket opens once and never reopens; it is closed only by its close event. */
  predicate MayMove(a: Socket, b: Socket) {
    (a.Connecting? && b.Open?) || (!a.Closed? && b.Closing?)
  }

  function Step(c: Client, e: Event): Client {
    match e
    case SocketMoves(to) => if MayMove(c.socket, to) then c.(socket := to) else c
    case OnError(order) =>
      if c.socket.Closed? || !Lists(order, c.table.pending) then c else FireCloseHandlers(LoseAll(c, order))
    case OnClosed(order) =>
      if c.socket.Closed? || !Lists(order, c.table.pending) then c
      else FireCloseHandlers(LoseAll(c.(socket := Closed), order))
    case AddHandler(handler) =>
      if handler in c.registered then c
      else c.(closeHandlers := c.closeHandlers + [handler], registered := c.registered + [handler])
    case Close =>
      c.(intentionalClose := true, closeHandlers := [], socket := if c.socket.Closed? then Closed else Closing)
    case Request(id, throws) => Send(c, id, throws)
    case SendFails(id) => SettleOne(c, id, SendFailed)
    case TimerFires(id) => SettleOne(c, id, TimedOut)
    case Response(id, ok) => SettleOne(c, id, if ok then Resolved else Failed)
  }

  function StateAfter(events: seq<Event>): Client {
    if events == [] then INIT else Step(StateAfter(events[..|events| - 1]), events[|events| - 1])
  }

  lemma RunSnoc(events: seq<Event>, e: Event)
    ensures StateAfter(events + [e]) == Step(StateAfter(events), e)
  {
    assert (events + [e])[..|events|] == events;
  }

  // ----- invariants

  ghost predicate RequestsOk(c: Client) {
    TableOk(c.table) && (c.socket.Closed? ==> c.table.pending == {})
  }

  predicate Distinct(s: seq<HandlerId>) {
    forall i, j :: 0 <= i < j < |s| ==> s[i] != s[j]
  }

  /** Until the first of error, close event and close nothing has fired and every handler waits. */
  ghost predicate HandlersOk(c: Client) {
    && Distinct(c.registered) && c.fired <= c.registered
    && (!c.intentionalClose ==> c.fired == [] && c.closeHandlers == c.registered && !c.socket.Closed?)
  }

  ghost predicate Inv(c: Client) {
    RequestsOk(c) && HandlersOk(c)
  }

  lemma SettleOneKeeps(c: Client, id: RequestId, outcome: Outcome)
    requires Inv(c)
    ensures Inv(SettleOne(c, id, outcome))
  {
    SettleKeeps(c.table, id, outcome);
  }

  lemma SendKeeps(c: Client, id: RequestId, throws: bool)
    requires Inv(c)
    ensures Inv(Send(c, id, throws))
  {
    if id in c.table.asked { return; }
    EnterKeeps(c.table, id);
    SettleKeeps(Enter(c.table, id), id, SendFailed);
  }

  /** Losing the socket empties the table and calls the handlers that wait. */
  lemma LostKeeps(c: Client, order: seq<RequestId>, socket: Socket)
    requires Inv(c) && !c.socket.Closed? && Lists(order, c.table.pending) && (socket == c.socket || socket.Closed?)
    ensures var c' := FireCloseHandlers(LoseAll(c.(socket := socket), order));
            && Inv(c') && c'.table.pending == {} && c'.intentionalClose
            && c'.fired == if c.intentionalClose then c.fired else c.registered
  {
    SettleAllKeeps(c.table, order, SocketLost);
    forall id | id in c.table.pending
      ensures id in (set x | x in order)
    {
    }
  }

  lemma InvStep(c: Client, e: Event)
    requires Inv(c)
    ensures Inv(Step(c, e))
  {
    match e {
      case OnError(order) =>
        if c.socket.Closed? || !Lists(order, c.table.pending) { return; }
        LostKeeps(c, order, c.socket);
        assert c.(socket := c.socket) == c;
        return;
      case OnClosed(order) =>
        if c.socket.Closed? || !Lists(order, c.table.pending) { return; }
        LostKeeps(c, order, Closed);
        return;
      case Request(id, throws) => SendKeeps(c, id, throws); return;
      case SendFails(id) => SettleOneKeeps(c, id, SendFailed); return;
      case TimerFires(id) => SettleOneKeeps(c, id, TimedOut); return;
      case Response(id, ok) => SettleOneKeeps(c, id, if ok then Resolved else Failed); return;
      case SocketMoves(_) => return;
      case AddHandler(_) => return;
      case Close => return;
    }
  }

  lemma {:induction false} RunInv(events: seq<Event>)
    ensures Inv(StateAfter(events))
    decreases |events|
  {
    if events == [] { return; }
    RunInv(events[..|events| - 1]);
    InvStep(StateAfter(events[..|events| - 1]), events[|events| - 1]);
  }

  // ----- results

  /** Each request is pending or settled by one and only one settlement. */
  lemma {:induction false} EachRequestSettlesOnce(events: seq<Event>, id: RequestId)
    requires id in StateAfter(events).table.asked
    ensures var t := StateAfter(events).table;
            && (id in t.pending <==> !IsSettled(t.settled, id))
            && forall i, j :: 0 <= i < j < |t.settled| ==> t.settled[i].request != id || t.settled[j].request != id
  {
    RunInv(events);
    SettledOnce(StateAfter(events).table, id);
  }

  lemma ClosedForGood(c: Client, e: Event)
    requires c.socket.Closed?
    ensures Step(c, e).socket.Closed?
  {
    if e.Request? { return; }
  }

  /** From the close event on the table is empty after every step: a later request is rejected at once. */
  lemma {:induction false} EmptyAfterClose(events: seq<Event>, more: seq<Event>)
    requires StateAfter(events).socket.Closed?
    ensures StateAfter(events + more).socket.Closed? && StateAfter(events + more).table.pending == {}
    decreases |more|
  {
    RunInv(events + more);
    if more == [] {
      assert events + more == events;
      return;
    }
    var init, last := more[..|more| - 1], more[|more| - 1];
    EmptyAfterClose(events, init);
    assert events + more == (events + init) + [last];
    RunSnoc(events + init, last);
    ClosedForGood(StateAfter(events + init), last);
  }

  /** No close handler is called twice, and those called are the first ones registered. */
  lemma {:induction false} HandlersFireAtMostOnce(events: seq<Event>)
    ensures var c := StateAfter(events); Distinct(c.fired) && c.fired <= c.registered
  {
    RunInv(events);
    var c := StateAfter(events);
    assert forall i :: 0 <= i < |c.fired| ==> c.fired[i] == c.registered[i];
  }

  /** An unexpected loss of the socket calls every handler registered so far, in order. */
  lemma {:induction false} LossCallsAllHandlers(events: seq<Event>, order: seq<RequestId>)
    requires var c := StateAfter(events); !c.intentionalClose && Lists(order, c.table.pending)
    ensures var c := StateAfter(events);
            Step(c, OnClosed(order)).fired == c.registered && Step(c, OnError(order)).fired == c.registered
  {
    RunInv(events);
    var c := StateAfter(events);
    LostKeeps(c, order, Closed);
    LostKeeps(c, order, c.socket);
    assert c.(socket := c.socket) == c;
  }

  lemma NothingMoreFires(c: Client, e: Event)
    requires c.intentionalClose
    ensures Step(c, e).intentionalClose && Step(c, e).fired == c.fired
  {
  }

  /** After a deliberate close, as after a loss, no handler is ever called again. */
  lemma {:induction false} NoHandlerAfterClose(events: seq<Event>, more: seq<Event>)
    requires StateAfter(events).intentionalClose
    ensures StateAfter(events + more).intentionalClose && StateAfter(events + more).fired == StateAfter(events).fired
    decreases |more|
  {
    if more == [] {
      assert events + more == events;
      return;
    }
    var init, last := more[..|more| - 1], more[|more| - 1];
    NoHandlerAfterClose(events, init);
    assert events + more == (events + init) + [last];
    RunSnoc(events + init, last);
    NothingMoreFires(StateAfter(events + init), last);
  }

  // ----- what a settlement says

  /** The event that a settlement comes from: an answer without an error resolves, all else rejects. */
  ghost predicate Because(past: set<Event>, s: Settlement<Outcome>) {
    match s.outcome
    case Resolved => Response(s.request, true) in past
    case Failed => Response(s.request, false) in past
    case TimedOut => TimerFires(s.request) in past
    case SendFailed => SendFails(s.request) in past || exists throws :: Request(s.request, throws) in past
    case SocketLost => exists order :: s.request in order && (OnError(order) in past || OnClosed(order) in past)
  }

  ghost predicate AllBecause(past: set<Event>, c: Client) {
    forall i :: 0 <= i < |c.table.settled| ==> Because(past, c.table.settled[i])
  }

  ghost function Past(events: seq<Event>): set<Event> {
    set e | e in events
  }

  lemma BecauseStays(past: set<Event>, e: Event, s: Settlement<Outcome>)
    requires Because(past, s)
    ensures Because(past + {e}, s)
  {
    match s.outcome {
      case SendFailed =>
        if throws :| Request(s.request, throws) in past {
          assert Request(s.request, throws) in past + {e};
        }
        return;
      case SocketLost =>
        var order :| s.request in order && (OnError(order) in past || OnClosed(order) in past);
        assert OnError(order) in past + {e} || OnClosed(order) in past + {e};
        return;
      case _ => return;
    }
  }

  /** What a step adds to the settlements. */
  lemma StepAdds(c: Client, e: Event)
    ensures c.table.settled <= Step(c, e).table.settled
    ensures forall i :: |c.table.settled| <= i < |Step(c, e).table.settled| ==> Because({e}, Step(c, e).table.settled[i])
  {
    match e {
      case OnError(order) =>
        SettleAllAdds(c.table, order, SocketLost);
        assert OnError(order) in {e};
        return;
      case OnClosed(order) =>
        SettleAllAdds(c.table, order, SocketLost);
        assert OnClosed(order) in {e};
        return;
      case Request(id, throws) =>
        assert Request(id, throws) in {e};
        return;
      case _ => return;
    }
  }

  lemma BecauseMore(past: set<Event>, e: Event, s: Settlement<Outcome>)
    requires Because({e}, s)
    ensures Because(past + {e}, s)
  {
    match s.outcome {
      case SendFailed =>
        if throws :| Request(s.request, throws) in {e} {
          assert Request(s.request, throws) in past + {e};
        }
        return;
      case SocketLost =>
        var order :| s.request in order && (OnError(order) in {e} || OnClosed(order) in {e});
        assert OnError(order) in past + {e} || OnClosed(order) in past + {e};
        return;
      case _ => return;
    }
  }

  /** In every run a request was resolved only by an answer without an error, and rejected only by one with an error, by
      its timer, its send or the loss of the socket. */
  lemma {:induction false} SettledForItsReason(events: seq<Event>)
    ensures AllBecause(Past(events), StateAfter(events))
    decreases |events|
  {
    if events == [] { return; }
    var init, last := events[..|events| - 1], events[|events| - 1];
    SettledForItsReason(init);
    var c, c' := StateAfter(init), StateAfter(events);
    StepAdds(c, last);
    assert Past(events) == Past(init) + {last};
    forall i | 0 <= i < |c'.table.settled|
      ensures Because(Past(events), c'.table.settled[i])
    {
      if i < |c.table.settled| {
        BecauseStays(Past(init), last, c.table.settled[i]);
      } else {
        BecauseMore(Past(init), last, c'.table.settled[i]);
      }
    }
  }

  /** After `close` no handler is called, whatever becomes of the socket. */
  lemma DeliberateCloseIsSilent(events: seq<Event>, more: seq<Event>)
    ensures StateAfter(events + [Close] + more).fired == StateAfter(events).fired
    ensures !StateAfter(events + [Close]).socket.Open? && !StateAfter(events + [Close]).socket.Connecting?
  {
    RunSnoc(events, Close);
    NoHandlerAfterClose(events + [Close], more);
  }

  // ----- the object

  class RtpbridgeClient {
    var socket: Socket
    var pending: set<RequestId>
    var closeHandlers: seq<HandlerId>
    var intentionalClose: bool
    ghost var asked: set<RequestId>
    ghost var settled: seq<Settlement<Outcome>>
    ghost var registered: seq<HandlerId>
    ghost var fired: seq<HandlerId>

    ghost function Model(): Client
      reads this
    {
      Client(socket, Table(pending, asked, settled), closeHandlers, intentionalClose, registered, fired)
    }

    /** What every run keeps. */
    ghost predicate Valid()
      reads this
    {
      Inv(Model())
    }

    constructor ()
      ensures Valid() && Model() == INIT
    {
      socket, pending, closeHandlers, intentionalClose := Connecting, {}, [], false;
      asked, settled, registered, fired := {}, [], [], [];
    }

    method AddCloseHandler(handler: HandlerId)
      requires Valid() && handler !in registered
      modifies this`closeHandlers, this`registered
      ensures Valid() && Model() == Step(old(Model()), AddHandler(handler))
    {
      InvStep(Model(), AddHandler(handler));
      closeHandlers := closeHandlers + [handler];
      registered := registered + [handler];
    }

    method CloseByOwner()
      requires Valid()
      modifies this`intentionalClose, this`closeHandlers, this`socket
      ensures Valid() && Model() == Step(old(Model()), Close)
      ensures intentionalClose && closeHandlers == [] && !socket.Open? && !socket.Connecting?
    {
      InvStep(Model(), Close);
      intentionalClose := true;
      closeHandlers := [];
      if socket.Open? || socket.Connecting? { socket := Closing; }
    }

    method RejectPending(id: RequestId, outcome: Outcome)
      modifies this`pending, this`settled
      ensures Model() == SettleOne(old(Model()), id, outcome)
    {
      if id !in pending { return; }
      pending := pending - {id};
      settled := settled + [Settlement(id, outcome)];
    }

    method SendRequest(id: RequestId, throws: bool)
      requires Valid() && id !in asked
      modifies this`pending, this`settled, this`asked
      ensures Valid() && Model() == Step(old(Model()), Request(id, throws))
      ensures id in pending <==> socket.Open? && !throws
      ensures settled == old(settled) + if id in pending then [] else [Settlement(id, SendFailed)]
    {
      InvStep(Model(), Request(id, throws));
      pending := pending + {id};
      asked := asked + {id};
      if !socket.Open? || throws { RejectPending(id, SendFailed); }
    }

    /** The callback of ws.send reports an error. */
    method OnSendError(id: RequestId)
      requires Valid()
      modifies this`pending, this`settled
      ensures Valid() && Model() == Step(old(Model()), SendFails(id))
    {
      InvStep(Model(), SendFails(id));
      RejectPending(id, SendFailed);
    }

    /** A response; one for an unknown id is dropped. */
    method HandleMessage(id: RequestId, ok: bool) returns (known: bool)
      requires Valid()
      modifies this`pending, this`settled
      ensures known <==> id in old(pending)
      ensures Valid() && Model() == Step(old(Model()), Response(id, ok))
      ensures settled == old(settled) + if known then [Settlement(id, if ok then Resolved else Failed)] else []
    {
      InvStep(Model(), Response(id, ok));
      if id !in pending { return false; }
      pending := pending - {id};
      settled := settled + [Settlement(id, if ok then Resolved else Failed)];
      return true;
    }

    method OnTimer(id: RequestId)
      requires Valid()
      modifies this`pending, this`settled
      ensures Valid() && Model() == Step(old(Model()), TimerFires(id))
    {
      InvStep(Model(), TimerFires(id));
      RejectPending(id, TimedOut);
    }

    method RejectAllPending() returns (ghost order: seq<RequestId>)
      modifies this`pending, this`settled
      ensures Lists(order, old(pending)) && Model() == LoseAll(old(Model()), order)
    {
      order := [];
      ghost var c := Model();
      while pending != {}
        invariant forall id :: id in c.table.pending <==> id in pending || id in order
        invariant forall id :: id in order ==> id !in pending
        invariant forall i, j :: 0 <= i < j < |order| ==> order[i] != order[j]
        invariant Model() == LoseAll(c, order)
        decreases |pending|
      {
        var id := AnyOf(pending);
        assert (order + [id])[..|order|] == order;
        RejectPending(id, SocketLost);
        order := order + [id];
      }
    }

    /** Calls the handlers in the order of their registration. */
    method FireHandlers()
      modifies this`intentionalClose, this`closeHandlers, this`fired
      ensures Model() == FireCloseHandlers(old(Model()))
    {
      if intentionalClose { return; }
      intentionalClose := true;
      var handlers := closeHandlers;
      closeHandlers := [];
      for i := 0 to |handlers|
        invariant fired == old(fired) + handlers[..i] && closeHandlers == [] && intentionalClose
      {
        fired := fired + [handlers[i]];
      }
      assert handlers[..|handlers|] == handlers;
    }

    method OnSocketError() returns (ghost order: seq<RequestId>)
      requires Valid() && !socket.Closed?
      modifies this
      ensures Valid() && Model() == Step(old(Model()), OnError(order)) && Lists(order, old(pending))
    {
      order := RejectAllPending();
      FireHandlers();
      InvStep(old(Model()), OnError(order));
    }

    method OnSocketClose() returns (ghost order: seq<RequestId>)
      requires Valid() && !socket.Closed?
      modifies this
      ensures Valid() && Model() == Step(old(Model()), OnClosed(order)) && Lists(order, old(pending))
    {
      socket := Closed;
      order := RejectAllPending();
      FireHandlers();
      InvStep(old(Model()), OnClosed(order));
    }
  }
}
