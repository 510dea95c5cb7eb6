/** Active calls and reserved call ids (src/call-registry.ts). */
module CallRegistry {
  import opened Prelude
  import CallIds

  /** The identity of one activated call record with its dialog. */
  type RecordId = int

  function Digit(d: nat): char
    requires d < 10
  {
    ['0', '1', '2', '3', '4', '5', '6', '7', '8', '9'][d]
  }

  function Decimal(n: nat): (s: string)
    ensures s != "" && forall i :: 0 <= i < |s| ==> '0' <= s[i] <= '9'
  {
    if n < 10 then [Digit(n)] else Decimal(n / 10) + [Digit(n % 10)]
  }

  lemma DigitInjective(a: nat, b: nat)
    requires a < 10 && b < 10 && Digit(a) == Digit(b)
    ensures a == b
  {
  }

  lemma {:induction false} DecimalInjective(m: nat, n: nat)
    requires Decimal(m) == Decimal(n)
    ensures m == n
    decreases m
  {
    var a := Decimal(m);
    if m < 10 || n < 10 {
      assert |a| == 1;
      DigitInjective(m % 10, n % 10);
    } else {
      var (q, r) := (m / 10, n / 10);
      assert a[|a| - 1] == Digit(m % 10) == Digit(n % 10);
      assert Decimal(q) == a[..|a| - 1] == Decimal(r);
      DecimalInjective(q, r);
      DigitInjective(m % 10, n % 10);
    }
  }

  /** The number that decimal digits stand for. */
  function Read(s: string): int {
    if s == "" then 0 else Read(s[..|s| - 1]) * 10 + (s[|s| - 1] as int - '0' as int)
  }

  lemma {:induction false} DecimalReads(n: nat)
    ensures Read(Decimal(n)) == n
    decreases n
  {
    var s := Decimal(n);
    if n < 10 {
      assert s[..0] == "";
      return;
    }
    DecimalReads(n / 10);
    assert s[..|s| - 1] == Decimal(n / 10);
  }

  /** The k-th id tried for a base: the base itself, then base-2, base-3 and so on. */
  function Candidate(base: string, k: nat): string {
    if k == 0 then base else base + "-" + Decimal(k + 1)
  }

  /** The first id that is tried is the base, and the n-th after it ends in the number n + 1. */
  lemma CandidateSpelled(base: string, k: nat)
    ensures Candidate(base, 0) == base
    ensures k > 0 ==> base + "-" <= Candidate(base, k) && Read(Candidate(base, k)[|base| + 1..]) == k + 1
  {
    if k > 0 {
      DecimalReads(k + 1);
      assert Candidate(base, k)[|base| + 1..] == Decimal(k + 1);
    }
  }

  lemma CandidateInjective(base: string, j: nat, k: nat)
    requires Candidate(base, j) == Candidate(base, k)
    ensures j == k
  {
    var (a, b) := (Candidate(base, j), Candidate(base, k));
    if j > 0 && k > 0 {
      assert a[|base| + 1..] == Decimal(j + 1) && b[|base| + 1..] == Decimal(k + 1);
      DecimalInjective(j + 1, k + 1);
    }
  }

  /** `id` is the k-th candidate and the first that is not taken. */
  ghost predicate FirstFree(base: string, taken: set<CallId>, id: CallId, k: nat) {
    id == Candidate(base, k) && id !in taken && forall j :: 0 <= j < k ==> Candidate(base, j) in taken
  }

  ghost predicate Reserves(base: string, taken: set<CallId>, id: CallId) {
    exists k: nat :: FirstFree(base, taken, id, k)
  }

  lemma ReservationIsUnique(base: string, taken: set<CallId>, id: CallId, id': CallId)
    requires Reserves(base, taken, id) && Reserves(base, taken, id')
    ensures id == id'
  {
    var k: nat :| FirstFree(base, taken, id, k);
    var k': nat :| FirstFree(base, taken, id', k');
    if k < k' {
    } else if k' < k {
    }
  }

  lemma FreeIsFree(sipCallId: string, uuid: string, taken: set<CallId>, id: CallId)
    requires Reserves(CallIds.NormalizeCallId(sipCallId, uuid), taken, id)
    ensures id !in taken
  {
  }

  ghost function Tried(base: string, k: nat): set<CallId> {
    set j | 0 <= j < k :: Candidate(base, j)
  }

  lemma TriedOneMore(base: string, k: nat)
    ensures Tried(base, k + 1) == Tried(base, k) + {Candidate(base, k)} && Candidate(base, k) !in Tried(base, k)
  {
    forall j | 0 <= j < k
      ensures Candidate(base, j) != Candidate(base, k)
    {
      if Candidate(base, j) == Candidate(base, k) { CandidateInjective(base, j, k); }
    }
    assert Candidate(base, k) in Tried(base, k + 1);
  }

  lemma {:induction false} TriedSize(base: string, k: nat)
    ensures |Tried(base, k)| == k
    decreases k
  {
    if k == 0 {
      assert Tried(base, 0) == {};
    } else {
      TriedSize(base, k - 1);
      TriedOneMore(base, k - 1);
    }
  }

  /** The first k candidates are k different ids, so a finite registry cannot hold them all. */
  lemma {:induction false} Pigeonhole(base: string, taken: set<CallId>, k: nat)
    requires forall j :: 0 <= j < k ==> Candidate(base, j) in taken
    ensures k <= |taken|
    ensures |Tried(base, k)| == k
  {
    TriedSize(base, k);
    SubsetSize(Tried(base, k), taken);
  }

  /** Suffixes keep the normal form of the base. */
  lemma CandidateIsNormal(base: string, k: nat)
    requires CallIds.NormalForm(base)
    ensures CallIds.NormalForm(Candidate(base, k))
  {
    if k > 0 {
      var (d, s) := (Decimal(k + 1), Candidate(base, k));
      assert forall i :: 0 <= i < |s| ==>
                           s[i] == if i < |base| then base[i] else if i == |base| then '-' else d[i - |base| - 1];
    }
  }

  /** Whatever the SIP Call-ID, the reserved id is path-safe and has no doubled, leading or trailing dash. */
  lemma ReservedIdIsNormal(sipCallId: string, uuid: string, taken: set<CallId>, id: CallId)
    requires CallIds.IsUuid(uuid) && Reserves(CallIds.NormalizeCallId(sipCallId, uuid), taken, id)
    ensures CallIds.NormalForm(id)
  {
    var base := CallIds.NormalizeCallId(sipCallId, uuid);
    var k: nat :| FirstFree(base, taken, id, k);
    CallIds.CallIdIsNormal(sipCallId, uuid);
    CandidateIsNormal(base, k);
  }

  class CallRegistry {
    var calls: map<CallId, RecordId>
    var reservations: set<CallId>

    constructor ()
      ensures calls == map[] && reservations == {}
    {
      calls, reservations := map[], {};
    }

    /** Always terminates, and takes the first candidate that neither a call nor a reservation has. */
    method ReserveCallId(sipCallId: string, uuid: string) returns (id: CallId)
      modifies this`reservations
      ensures Reserves(CallIds.NormalizeCallId(sipCallId, uuid), old(calls.Keys + reservations), id)
      ensures reservations == old(reservations) + {id}
    {
      var base := CallIds.NormalizeCallId(sipCallId, uuid);
      ghost var taken := calls.Keys + reservations;
      id := base;
      var suffix := 2;
      while id in calls || id in reservations
        invariant reservations == old(reservations) && suffix >= 2 && id == Candidate(base, suffix - 2)
        invariant forall j :: 0 <= j < suffix - 2 ==> Candidate(base, j) in taken
        decreases |taken| + 2 - suffix
      {
        Pigeonhole(base, taken, suffix - 1);
        id := base + "-" + Decimal(suffix);
        suffix := suffix + 1;
      }
      assert FirstFree(base, taken, id, suffix - 2);
      reservations := reservations + {id};
    }

    method ReleaseReservation(callId: CallId)
      modifies this`reservations
      ensures reservations == old(reservations) - {callId}
    {
      reservations := reservations - {callId};
    }

    method Activate(callId: CallId, record: RecordId)
      modifies this
      ensures calls == old(calls)[callId := record] && reservations == old(reservations) - {callId}
    {
      ReleaseReservation(callId);
      calls := calls[callId := record];
    }

    method Remove(callId: CallId) returns (removed: Option<RecordId>)
      modifies this`calls
      ensures removed == if callId in old(calls) then Some(old(calls)[callId]) else None
      ensures calls == old(calls) - {callId}
    {
      if callId !in calls { return None; }
      removed := Some(calls[callId]);
      calls := calls - {callId};
    }
  }
}
