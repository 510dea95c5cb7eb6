/** A table of requests that wait for an answer, as ControlHub and RtpbridgeClient keep one: each request is
    entered once and leaves with the one settlement of its promise. */
module RequestTable {

  type RequestId = int

  datatype Settlement<+O> = Settlement(request: RequestId, outcome: O)

  /** `asked` are the requests ever entered, `settled` the calls of resolve and reject. */
  datatype Table<+O> = Table(pending: set<RequestId>, asked: set<RequestId>, settled: seq<Settlement<O>>)

  function Enter<O>(t: Table<O>, id: RequestId): Table<O> {
    if id in t.asked then t else t.(pending := t.pending + {id}, asked := t.asked + {id})
  }

  function Settle<O>(t: Table<O>, id: RequestId, outcome: O): Table<O> {
    if id !in t.pending then t
    else t.(pending := t.pending - {id}, settled := t.settled + [Settlement(id, outcome)])
  }

  function SettleAll<O>(t: Table<O>, order: seq<RequestId>, outcome: O): Table<O> {
    if order == [] then t else Settle(SettleAll(t, order[..|order| - 1], outcome), order[|order| - 1], outcome)
  }

  /** `order` lists the requests of a set, each once. */
  predicate Lists(order: seq<RequestId>, s: set<RequestId>) {
    && (forall i, j :: 0 <= i < j < |order| ==> order[i] != order[j])
    && (forall id | id in order :: id in s) && (forall id | id in s :: id in order)
  }

  predicate IsSettled<O>(settled: seq<Settlement<O>>, id: RequestId) {
    exists i :: 0 <= i < |settled| && settled[i].request == id
  }

  /** Every request ever entered is pending or settled once. */
  ghost predicate TableOk<O>(t: Table<O>) {
    && t.pending <= t.asked
    && (forall i :: 0 <= i < |t.settled| ==> t.settled[i].request in t.asked && t.settled[i].request !in t.pending)
    && (forall i, j :: 0 <= i < j < |t.settled| ==> t.settled[i].request != t.settled[j].request)
    && (forall id :: id in t.asked && id !in t.pending ==> IsSettled(t.settled, id))
  }

  lemma EnterKeeps<O>(t: Table<O>, id: RequestId)
    requires TableOk(t)
    ensures TableOk(Enter(t, id))
  {
    if id in t.asked { return; }
  }

  lemma SettleKeeps<O>(t: Table<O>, id: RequestId, outcome: O)
    requires TableOk(t)
    ensures TableOk(Settle(t, id, outcome))
  {
    if id !in t.pending { return; }
    var t' := Settle(t, id, outcome);
    assert t'.settled[|t.settled|].request == id;
    forall x | x in t'.asked && x !in t'.pending
      ensures IsSettled(t'.settled, x)
    {
      if x != id {
        var i :| 0 <= i < |t.settled| && t.settled[i].request == x;
        assert t'.settled[i].request == x;
      }
    }
  }

  lemma {:induction false} SettleAllKeeps<O>(t: Table<O>, order: seq<RequestId>, outcome: O)
    requires TableOk(t)
    ensures var t' := SettleAll(t, order, outcome);
            TableOk(t') && t'.asked == t.asked && t'.pending == t.pending - (set id | id in order)
    decreases |order|
  {
    if order == [] { return; }
    var init, last := order[..|order| - 1], order[|order| - 1];
    SettleAllKeeps(t, init, outcome);
    SettleKeeps(SettleAll(t, init, outcome), last, outcome);
    assert forall id :: id in order <==> id in init || id == last;
  }

  /** What settling adds are requests of the list, and it carries the outcome. */
  lemma {:induction false} SettleAllAdds<O>(t: Table<O>, order: seq<RequestId>, outcome: O)
    ensures var t' := SettleAll(t, order, outcome);
            && t.settled <= t'.settled
            && forall i :: |t.settled| <= i < |t'.settled| ==> t'.settled[i].request in order && t'.settled[i].outcome == outcome
    decreases |order|
  {
    if order == [] { return; }
    SettleAllAdds(t, order[..|order| - 1], outcome);
  }

  /** A request that was entered is pending, or exactly one settlement is its own. */
  lemma SettledOnce<O>(t: Table<O>, id: RequestId)
    requires TableOk(t) && id in t.asked
    ensures if id in t.pending then !IsSettled(t.settled, id)
            else exists i :: 0 <= i < |t.settled| && t.settled[i].request == id
                             && forall j :: 0 <= j < |t.settled| && t.settled[j].request == id ==> j == i
  {
  }
}
