/** Backend selection and the reference-counted pin of a call to one rtpbridge backend
    (src/media-server-manager.ts). */
module BackendPins {
  import opened Prelude

  /** `acceptNew` is absent for backends found through DNS. */
  datatype Backend = Backend(id: BackendId, acceptNew: Option<bool>)

  datatype Pin = Pin(backend: BackendId, createdAt: int, refs: nat)

  datatype PickError = CatalogUnavailable | PinnedElsewhere | NotFound | NotAdmitting | NoneAccepting

  datatype Manager = Manager(pins: map<CallId, Pin>, next: nat)

  const CALL_BACKEND_TTL_MS := 4 * 60 * 60 * 1000

  // ----- selection

  predicate Accepts(b: Backend) {
    b.acceptNew != Some(false)
  }

  function Accepting(bs: seq<Backend>): (r: seq<Backend>)
    ensures forall b :: b in r <==> b in bs && Accepts(b)
  {
    if bs == [] then []
    else (if Accepts(bs[0]) then [bs[0]] else []) + Accepting(bs[1..])
  }

  function Find(bs: seq<Backend>, id: BackendId): (r: Option<Backend>)
    ensures r.Some? ==> r.value in bs && r.value.id == id
    ensures r.None? <==> forall b :: b in bs ==> b.id != id
  {
    if bs == [] then None
    else if bs[0].id == id then Some(bs[0])
    else Find(bs[1..], id)
  }

  /** The chosen backend and the next round-robin index. */
  function Select(next: nat, bs: seq<Backend>, preferred: Option<BackendId>): (Result<Backend, PickError>, nat) {
    if preferred.Some? then
      match Find(bs, preferred.value)
      case None => (Err(NotFound), next)
      case Some(b) => (if b.acceptNew == Some(false) then Err(NotAdmitting) else Ok(b), next)
    else
      var acc := Accepting(bs);
      if |acc| == 0 then (Err(NoneAccepting), next)
      else (Ok(acc[next % |acc|]), (next + 1) % |acc|)
  }

  function PinnedBackend(m: Manager, callId: Option<CallId>): Option<BackendId> {
    if callId.Some? && callId.value in m.pins then Some(m.pins[callId.value].backend) else None
  }

  function PinCall(pins: map<CallId, Pin>, callId: CallId, b: BackendId, now: int): map<CallId, Pin> {
    if callId in pins && pins[callId].backend == b then pins[callId := pins[callId].(createdAt := now)]
    else pins[callId := Pin(b, now, 0)]
  }

  /** One pickBackend call; `bs` is absent when the endpoint catalog is not valid. */
  function Pick(m: Manager, bs: Option<seq<Backend>>, backendId: Option<BackendId>, callId: Option<CallId>, now: int)
    : (Manager, Result<Backend, PickError>)
  {
    var pinned := PinnedBackend(m, callId);
    if bs.None? then (m, Err(CatalogUnavailable))
    else if pinned.Some? && backendId.Some? && pinned != backendId then (m, Err(PinnedElsewhere))
    else
      var (r, next) := Select(m.next, bs.value, if pinned.Some? then pinned else backendId);
      if r.Err? then (m, r)
      else (Manager(if callId.Some? then PinCall(m.pins, callId.value, r.value.id, now) else m.pins, next), r)
  }

  // ----- pins

  function Register(pins: map<CallId, Pin>, callId: CallId, b: BackendId, now: int): Result<map<CallId, Pin>, PickError> {
    if callId !in pins then Ok(pins[callId := Pin(b, now, 1)])
    else if pins[callId].backend != b then Err(PinnedElsewhere)
    else Ok(pins[callId := Pin(b, now, pins[callId].refs + 1)])
  }

  /** `active` is the answer of isCallActive for this call. */
  function Unregister(pins: map<CallId, Pin>, callId: CallId, b: Option<BackendId>, active: bool, now: int): map<CallId, Pin> {
    if callId !in pins || (b.Some? && pins[callId].backend != b.value) then pins
    else if pins[callId].refs > 1 then pins[callId := pins[callId].(refs := pins[callId].refs - 1, createdAt := now)]
    else if active then pins[callId := pins[callId].(refs := 0, createdAt := now)]
    else pins - {callId}
  }

  predicate Stale(pins: map<CallId, Pin>, c: CallId, active: set<CallId>, now: int) {
    c in pins && pins[c].refs == 0 && now - pins[c].createdAt > CALL_BACKEND_TTL_MS && c !in active
  }

  function Sweep(pins: map<CallId, Pin>, active: set<CallId>, now: int): map<CallId, Pin> {
    map c | c in pins && !Stale(pins, c, active, now) :: pins[c]
  }

  // ----- what one pick promises

  /** A pinned call gets its own backend or an error, never another backend, and such picks
      (like explicit ones) leave the round-robin position alone. */
  lemma PickHonoursPin(m: Manager, bs: Option<seq<Backend>>, backendId: Option<BackendId>, callId: Option<CallId>, now: int)
    ensures var (m', r) := Pick(m, bs, backendId, callId, now);
            && (r.Ok? ==> bs.Some? && r.value in bs.value && Accepts(r.value))
            && (PinnedBackend(m, callId).Some? || backendId.Some? ==> m'.next == m.next)
            && (PinnedBackend(m, callId).Some? && r.Ok? ==> Some(r.value.id) == PinnedBackend(m, callId))
            && (backendId.Some? && r.Ok? ==> r.value.id == backendId.value)
            && (r.Ok? && callId.Some? ==> PinnedBackend(m', callId) == Some(r.value.id))
            && (r.Err? ==> m' == m)
            && (forall c :: c in m.pins ==> c in m'.pins && m'.pins[c].backend == m.pins[c].backend && m'.pins[c].refs == m.pins[c].refs)
            && (forall c :: c in m'.pins && c !in m.pins ==> m'.pins[c].refs == 0)
  {
    if bs.Some? {
      var _ := Accepting(bs.value);
    }
  }

  /** Which picks fail, and with what: without a catalog, against another pin, for a wanted backend that is not listed
      or that refuses, and when all refuse. */
  lemma PickFailures(m: Manager, bs: seq<Backend>, backendId: Option<BackendId>, callId: Option<CallId>, now: int)
    ensures Pick(m, None, backendId, callId, now).1 == Err(CatalogUnavailable)
    ensures var r, pinned := Pick(m, Some(bs), backendId, callId, now).1, PinnedBackend(m, callId);
            var wanted := if pinned.Some? then pinned else backendId;
            if pinned.Some? && backendId.Some? && pinned.value != backendId.value then r == Err(PinnedElsewhere)
            else if wanted.None? then
              if exists b :: b in bs && b.acceptNew != Some(false) then r.Ok? else r == Err(NoneAccepting)
            else
              && ((forall b :: b in bs ==> b.id != wanted.value) ==> r == Err(NotFound))
              && ((exists b :: b in bs && b.id == wanted.value) ==>
                    && ((forall b :: b in bs && b.id == wanted.value ==> b.acceptNew != Some(false)) ==> r.Ok?)
                    && ((forall b :: b in bs && b.id == wanted.value ==> b.acceptNew == Some(false)) ==> r == Err(NotAdmitting)))
  {
    var pinned := PinnedBackend(m, callId);
    var wanted := if pinned.Some? then pinned else backendId;
    if wanted.Some? { return; }
    var accepting := Accepting(bs);
    if accepting != [] { assert accepting[0] in accepting; }
  }

  // ----- references and ages

  /** One client more on the pinned backend, or the first one; a call pinned elsewhere is refused. */
  lemma RegisterCounts(pins: map<CallId, Pin>, c: CallId, b: BackendId, now: int)
    ensures var r := Register(pins, c, b, now);
            && (r.Err? <==> c in pins && pins[c].backend != b)
            && (r.Ok? ==>
                  && c in r.value && r.value[c] == Pin(b, now, if c in pins then pins[c].refs + 1 else 1)
                  && r.value - {c} == pins - {c})
  {
  }

  /** One client less; with the last one the pin goes unless the call is active. Clients of another backend do not
      count, and other calls are left alone. */
  lemma UnregisterCounts(pins: map<CallId, Pin>, c: CallId, b: Option<BackendId>, active: bool, now: int)
    ensures var after := Unregister(pins, c, b, active, now);
            && after - {c} == pins - {c}
            && (c !in pins ==> c !in after)
            && (c in pins && b.Some? && pins[c].backend != b.value ==> c in after && after[c] == pins[c])
            && (c in pins && (b.None? || pins[c].backend == b.value) ==>
                  && (c in after <==> pins[c].refs > 1 || active)
                  && (c in after ==> after[c] == Pin(pins[c].backend, now, if pins[c].refs > 0 then pins[c].refs - 1 else 0)))
  {
    if c !in pins { return; }
    if b.Some? && pins[c].backend != b.value { return; }
    assert Unregister(pins, c, b, active, now) - {c} == pins - {c};
  }

  /** A sweep takes exactly the pins that nobody holds, that belong to no active call and whose last use is more than
      four hours ago, and changes none of those that stay. */
  lemma SweepTakesTheOld(pins: map<CallId, Pin>, active: set<CallId>, now: int, c: CallId)
    requires c in pins
    ensures var after := Sweep(pins, active, now);
            && after.Keys <= pins.Keys
            && (c in after <==> pins[c].refs > 0 || c in active || now <= pins[c].createdAt + 4 * 60 * 60 * 1000)
            && (c in after ==> after[c] == pins[c])
  {
  }

  /** A pick is a use: the pin of the call is as old as its last pick. */
  lemma PickRenewsAge(m: Manager, bs: Option<seq<Backend>>, backendId: Option<BackendId>, callId: CallId, now: int)
    requires Pick(m, bs, backendId, Some(callId), now).1.Ok?
    ensures var (m', r) := Pick(m, bs, backendId, Some(callId), now);
            && callId in m'.pins && m'.pins - {callId} == m.pins - {callId}
            && m'.pins[callId] == Pin(r.value.id, now, if callId in m.pins then m.pins[callId].refs else 0)
  {
    PickHonoursPin(m, bs, backendId, Some(callId), now);
  }

  // ----- round robin

  /** The backends that k consecutive unpinned picks on the list `bs` give. */
  function Picks(next: nat, bs: seq<Backend>, k: nat): (r: seq<BackendId>)
    requires Accepting(bs) != []
    ensures |r| == k
    decreases k
  {
    if k == 0 then []
    else
      var (b, next') := Select(next, bs, None);
      [b.value.id] + Picks(next', bs, k - 1)
  }

  /** How many of 0..x leave remainder j by n. */
  function Below(x: int, j: nat, n: nat): int
    requires 0 <= j < n
  {
    (x + n - 1 - j) / n
  }

  lemma DivUnique(x: int, n: nat, q: int, r: int)
    requires n > 0 && x == n * q + r && 0 <= r < n
    ensures x / n == q && x % n == r
  {
    var d := x / n - q;
    assert n * d == n * (x / n) - n * q;
    assert d >= 1 ==> n * d >= n;
    assert d <= -1 ==> n * d + n <= 0;
  }

  lemma BelowStep(x: nat, j: nat, n: nat)
    requires 0 <= j < n
    ensures Below(x + 1, j, n) == Below(x, j, n) + if x % n == j then 1 else 0
  {
    var q, r := x / n, x % n;
    assert x == n * q + r;
    assert n * (q + 1) == n * q + n;
    if r < j {
      DivUnique(x + n - 1 - j, n, q, r + n - 1 - j);
      DivUnique(x + n - j, n, q, r + n - j);
    } else if r == j {
      DivUnique(x + n - 1 - j, n, q, n - 1);
      DivUnique(x + n - j, n, q + 1, 0);
    } else {
      DivUnique(x + n - 1 - j, n, q + 1, r - 1 - j);
      DivUnique(x + n - j, n, q + 1, r - j);
    }
  }

  lemma ModAbsorb(a: nat, b: nat, n: nat)
    requires n > 0
    ensures (a % n + b) % n == (a + b) % n
  {
    var q, r := (a % n + b) / n, (a % n + b) % n;
    assert a == n * (a / n) + a % n;
    assert n * (a / n + q) == n * (a / n) + n * q;
    DivUnique(a + b, n, a / n + q, r);
  }

  /** How many of the k numbers from x on leave remainder j by n. */
  function Share(x: nat, k: nat, j: nat, n: nat): int
    requires 0 <= j < n
  {
    Below(x + k, j, n) - Below(x, j, n)
  }

  lemma ShareStep(next: nat, n: nat, k: nat, j: nat)
    requires j < n && k > 0
    ensures Share(next % n, k, j, n) == (if next % n == j then 1 else 0) + Share(((next + 1) % n) % n, k - 1, j, n)
  {
    BelowStep(next % n, j, n);
    NextIndex(next, n, k - 1, j);
  }

  lemma {:induction false} PicksCount(next: nat, bs: seq<Backend>, k: nat, j: nat)
    requires j < |Accepting(bs)|
    requires forall i, i' :: 0 <= i < i' < |Accepting(bs)| ==> Accepting(bs)[i].id != Accepting(bs)[i'].id
    ensures var n := |Accepting(bs)|; multiset(Picks(next, bs, k))[Accepting(bs)[j].id] == Share(next % n, k, j, n)
    decreases k
  {
    if k == 0 { return; }
    var n := |Accepting(bs)|;
    var rest := Picks((next + 1) % n, bs, k - 1);
    FirstPick(next, bs, k, j);
    PicksCount((next + 1) % n, bs, k - 1, j);
    assert multiset(rest)[Accepting(bs)[j].id] == Share(((next + 1) % n) % n, k - 1, j, n);
    ShareStep(next, n, k, j);
  }

  lemma FirstPick(next: nat, bs: seq<Backend>, k: nat, j: nat)
    requires k > 0 && j < |Accepting(bs)|
    requires forall i, i' :: 0 <= i < i' < |Accepting(bs)| ==> Accepting(bs)[i].id != Accepting(bs)[i'].id
    ensures var n := |Accepting(bs)|;
            && var id := Accepting(bs)[j].id;
            multiset(Picks(next, bs, k))[id] == (if next % n == j then 1 else 0) + multiset(Picks((next + 1) % n, bs, k - 1))[id]
  {
    var (b, next') := Select(next, bs, None);
    assert multiset(Picks(next, bs, k)) == multiset{b.value.id} + multiset(Picks(next', bs, k - 1));
  }

  lemma NextIndex(next: nat, n: nat, k: nat, j: nat)
    requires j < n
    ensures var next' := (next + 1) % n;
            && (next % n) % n == next % n
            && Below(next' % n + k, j, n) - Below(next' % n, j, n) == Below(next % n + 1 + k, j, n) - Below(next % n + 1, j, n)
  {
    var x := next % n;
    DivUnique(x, n, 0, x);
    ModAbsorb(next, 1, n);
    if x + 1 == n {
      DivUnique(n, n, 1, 0);
      DivUnique(0, n, 0, 0);
      BelowShift(0, j, n);
      BelowShift(k, j, n);
    } else {
      DivUnique(x + 1, n, 0, x + 1);
    }
  }

  lemma BelowShift(x: int, j: nat, n: nat)
    requires 0 <= j < n
    ensures Below(x + n, j, n) == Below(x, j, n) + 1
  {
    var y := x + n - 1 - j;
    assert n * (y / n + 1) == n * (y / n) + n;
    DivUnique(y + n, n, y / n + 1, y % n);
  }

  lemma FloorDifference(a: nat, k: nat, n: nat)
    requires n > 0
    ensures k / n <= (a + k) / n - a / n <= (k + n - 1) / n
  {
    var q, r, p, s := a / n, a % n, k / n, k % n;
    assert n * (q + p) == n * q + n * p;
    if r + s < n {
      DivUnique(a + k, n, q + p, r + s);
    } else {
      assert n * (q + p + 1) == n * (q + p) + n;
      DivUnique(a + k, n, q + p + 1, r + s - n);
    }
    if s == 0 {
      DivUnique(k + n - 1, n, p, n - 1);
    } else {
      assert n * (p + 1) == n * p + n;
      DivUnique(k + n - 1, n, p + 1, s - 1);
    }
  }

  /** Round robin is fair: whatever index an earlier list left behind, each of the n accepting
      backends gets floor(k/n) or ceil(k/n) of any k consecutive unpinned picks. */
  lemma RoundRobinBalanced(next: nat, bs: seq<Backend>, k: nat, j: nat)
    requires j < |Accepting(bs)|
    requires forall i, i' :: 0 <= i < i' < |Accepting(bs)| ==> Accepting(bs)[i].id != Accepting(bs)[i'].id
    ensures var n := |Accepting(bs)|;
            k / n <= multiset(Picks(next, bs, k))[Accepting(bs)[j].id] <= (k + n - 1) / n
  {
    var n := |Accepting(bs)|;
    PicksCount(next, bs, k, j);
    FloorDifference(next % n + n - 1 - j, k, n);
  }

  // ----- the manager object

  class MediaServerManager {
    var callToBackend: map<CallId, Pin>
    var nextBackendIndex: nat

    ghost function Model(): Manager
      reads this
    {
      Manager(callToBackend, nextBackendIndex)
    }

    constructor ()
      ensures Model() == Manager(map[], 0)
    {
      callToBackend, nextBackendIndex := map[], 0;
    }

    method SelectBackend(backends: seq<Backend>, preferredId: Option<BackendId>) returns (r: Result<Backend, PickError>)
      modifies this`nextBackendIndex
      ensures (r, nextBackendIndex) == Select(old(nextBackendIndex), backends, preferredId)
    {
      if preferredId.Some? {
        var preferred := Find(backends, preferredId.value);
        if preferred.None? { return Err(NotFound); }
        if preferred.value.acceptNew == Some(false) { return Err(NotAdmitting); }
        return Ok(preferred.value);
      }
      var accepting := Accepting(backends);
      if |accepting| == 0 { return Err(NoneAccepting); }
      r := Ok(accepting[nextBackendIndex % |accepting|]);
      nextBackendIndex := (nextBackendIndex + 1) % |accepting|;
    }

    method PickBackend(snapshot: Option<seq<Backend>>, backendId: Option<BackendId>, callId: Option<CallId>, now: int)
      returns (r: Result<Backend, PickError>)
      modifies this
      ensures (Model(), r) == Pick(old(Model()), snapshot, backendId, callId, now)
    {
      if snapshot.None? { return Err(CatalogUnavailable); }
      var pinnedId := if callId.Some? && callId.value in callToBackend then Some(callToBackend[callId.value].backend) else None;
      if pinnedId.Some? && backendId.Some? && pinnedId != backendId { return Err(PinnedElsewhere); }
      r := SelectBackend(snapshot.value, if pinnedId.Some? then pinnedId else backendId);
      if r.Ok? && callId.Some? {
        callToBackend := PinCall(callToBackend, callId.value, r.value.id, now);
      }
    }

    method RegisterCall(callId: CallId, backendId: BackendId, now: int) returns (r: Result<(), PickError>)
      modifies this`callToBackend
      ensures var spec := Register(old(callToBackend), callId, backendId, now);
              && (r.Ok? <==> spec.Ok?)
              && callToBackend == if spec.Ok? then spec.value else old(callToBackend)
    {
      if callId in callToBackend {
        var existing := callToBackend[callId];
        if existing.backend != backendId { return Err(PinnedElsewhere); }
        callToBackend := callToBackend[callId := existing.(refs := existing.refs + 1, createdAt := now)];
      } else {
        callToBackend := callToBackend[callId := Pin(backendId, now, 1)];
      }
      return Ok(());
    }

    method UnregisterCall(callId: CallId, backendId: Option<BackendId>, active: bool, now: int)
      modifies this`callToBackend
      ensures callToBackend == Unregister(old(callToBackend), callId, backendId, active, now)
      ensures callId in callToBackend <==>
              callId in old(callToBackend)
              && var existing := old(callToBackend)[callId];
              (backendId.Some? && existing.backend != backendId.value) || existing.refs > 1 || active
    {
      if callId !in callToBackend { return; }
      var existing := callToBackend[callId];
      if backendId.Some? && existing.backend != backendId.value { return; }
      if existing.refs > 1 {
        callToBackend := callToBackend[callId := existing.(refs := existing.refs - 1, createdAt := now)];
      } else if active {
        callToBackend := callToBackend[callId := existing.(refs := 0, createdAt := now)];
      } else {
        callToBackend := callToBackend - {callId};
      }
    }

    method SweepStaleEntries(active: set<CallId>, now: int)
      modifies this`callToBackend
      ensures callToBackend == Sweep(old(callToBackend), active, now)
      ensures forall c :: c in callToBackend <==>
                          c in old(callToBackend)
                          && (old(callToBackend)[c].refs > 0 || c in active || now <= old(callToBackend)[c].createdAt + 4 * 60 * 60 * 1000)
    {
      ghost var before := callToBackend;
      var todo := callToBackend.Keys;
      while todo != {}
        invariant todo <= callToBackend.Keys <= before.Keys
        invariant forall c :: c in callToBackend ==> callToBackend[c] == before[c]
        invariant forall c :: c in before && c !in todo ==> (c in callToBackend <==> !Stale(before, c, active, now))
        decreases |todo|
      {
        var c :| c in todo;
        todo := todo - {c};
        if callToBackend[c].refs == 0 && now - callToBackend[c].createdAt > CALL_BACKEND_TTL_MS && c !in active {
          callToBackend := callToBackend - {c};
        }
      }
    }
  }
}
