/** The file-based endpoint catalog and the readiness it reports (src/endpoint-catalog.ts), with the backend
    selection that uses the same snapshot. */
module EndpointCatalog {
  import opened Prelude
  import opened BackendPins

  const MAX_BACKENDS := 128

  /** A backend of the file: its id if that is well formed and acceptNew if that is a boolean; `sound` when all
      else in it is well formed. */
  datatype Entry = Entry(id: Option<BackendId>, acceptNew: Option<bool>, sound: bool)

  /** The content of the file; `sound` when everything but the backends is well formed. */
  datatype Content = Content(sound: bool, revision: string, validUntil: Option<int>, entries: seq<Entry>)

  datatype Document = Document(revision: string, validUntil: Option<int>, backends: seq<Backend>)

  /** One look at the file: nothing usable, or its signature and content. */
  datatype Look = Unreadable | Found(signature: int, content: Content)

  /** One refresh at a time of the clock. */
  datatype Tick = Tick(now: int, look: Look)

  datatype Catalog = Catalog(view: Option<Document>, signature: Option<int>, failed: bool)

  const EMPTY := Catalog(None, None, false)

  // ----- parsing, reduced to acceptance

  predicate SoundEntry(e: Entry) {
    e.id.Some? && e.acceptNew.Some? && e.sound
  }

  predicate SoundEntries(entries: seq<Entry>) {
    && |entries| <= MAX_BACKENDS && (forall i :: 0 <= i < |entries| ==> SoundEntry(entries[i]))
    && (forall i, j :: 0 <= i < j < |entries| ==> entries[i].id != entries[j].id)
  }

  function ParseEntries(entries: seq<Entry>): Option<seq<Backend>> {
    if !SoundEntries(entries) then None
    else Some(seq(|entries|, i requires 0 <= i < |entries| => Backend(entries[i].id.value, entries[i].acceptNew)))
  }

  function Parse(c: Content): Option<Document> {
    var backends := ParseEntries(c.entries);
    if !c.sound || backends.None? then None else Some(Document(c.revision, c.validUntil, backends.value))
  }

  /** The loop over the entries with its set of ids. */
  method ParseBackends(entries: seq<Entry>) returns (r: Option<seq<Backend>>)
    ensures r == ParseEntries(entries)
    ensures r.Some? <==> |entries| <= 128 && (forall i :: 0 <= i < |entries| ==> entries[i].id.Some? && entries[i].acceptNew.Some? && entries[i].sound)
                         && forall i, j :: 0 <= i < j < |entries| ==> entries[i].id != entries[j].id
    ensures r.Some? ==> |r.value| == |entries|
    ensures r.Some? ==> forall i :: 0 <= i < |entries| ==> Some(r.value[i].id) == entries[i].id && r.value[i].acceptNew == entries[i].acceptNew
  {
    if |entries| > MAX_BACKENDS { return None; }
    var ids: set<BackendId> := {};
    var backends: seq<Backend> := [];
    for i := 0 to |entries|
      invariant |backends| == i && forall j :: 0 <= j < i ==> SoundEntry(entries[j])
      invariant forall j :: 0 <= j < i ==> backends[j] == Backend(entries[j].id.value, entries[j].acceptNew)
      invariant ids == set j | 0 <= j < i :: backends[j].id
      invariant forall j, k :: 0 <= j < k < i ==> entries[j].id != entries[k].id
    {
      var e := entries[i];
      if e.id.None? { return None; }
      if e.id.value in ids {
        var j :| 0 <= j < i && backends[j].id == e.id.value;
        assert entries[j].id == entries[i].id;
        return None;
      }
      ids := ids + {e.id.value};
      if e.acceptNew.None? || !e.sound {
        assert !SoundEntry(entries[i]);
        return None;
      }
      backends := backends + [Backend(e.id.value, e.acceptNew)];
    }
    assert SoundEntries(entries) && backends == ParseEntries(entries).value;
    return Some(backends);
  }

  /** A document is taken over as it is written: its revision, its expiry and its backends in their order. */
  lemma ParsedAsWritten(c: Content)
    ensures Parse(c).Some? <==> c.sound && ParseEntries(c.entries).Some?
    ensures Parse(c).Some? ==>
              var d := Parse(c).value;
              && d.revision == c.revision && d.validUntil == c.validUntil && |d.backends| == |c.entries|
              && forall i :: 0 <= i < |c.entries| ==>
                               Some(d.backends[i].id) == c.entries[i].id && d.backends[i].acceptNew == c.entries[i].acceptNew
  {
  }

  /** What every accepted document has: distinct ids, and a decision on new sessions for every backend. */
  predicate WellParsed(d: Document) {
    && (forall i, j :: 0 <= i < j < |d.backends| ==> d.backends[i].id != d.backends[j].id)
    && (forall b | b in d.backends :: b.acceptNew.Some?)
  }

  lemma ParsedIsWell(c: Content)
    requires Parse(c).Some?
    ensures WellParsed(Parse(c).value)
  {
    var d := Parse(c).value;
    forall i, j | 0 <= i < j < |d.backends|
      ensures d.backends[i].id != d.backends[j].id
    {
      assert c.entries[i].id != c.entries[j].id;
    }
  }

  // ----- refreshing

  predicate Expired(d: Document, now: int) {
    d.validUntil.Some? && d.validUntil.value <= now
  }

  /** The look shows a document that may be taken over. */
  predicate Good(t: Tick) {
    t.look.Found? && Parse(t.look.content).Some? && !Expired(Parse(t.look.content).value, t.now)
  }

  function Refresh(c: Catalog, t: Tick): Catalog {
    match t.look
    case Unreadable => c.(failed := true)
    case Found(signature, content) =>
      if c.signature == Some(signature) then c
      else
        var candidate := Parse(content);
        if candidate.None? || Expired(candidate.value, t.now) then c.(failed := true)
        else Catalog(candidate, Some(signature), false)
  }

  function After(c: Catalog, ticks: seq<Tick>): Catalog {
    if ticks == [] then c else Refresh(After(c, ticks[..|ticks| - 1]), ticks[|ticks| - 1])
  }

  predicate Valid(c: Catalog, now: int) {
    c.view.Some? && !Expired(c.view.value, now)
  }

  /** The backends that say they accept new sessions; selection takes all that do not refuse them. */
  function Offering(bs: seq<Backend>): seq<Backend> {
    if bs == [] then [] else (if bs[0].acceptNew == Some(true) then [bs[0]] else []) + Offering(bs[1..])
  }

  function Eligible(c: Catalog, now: int): nat {
    if Valid(c, now) then |Offering(c.view.value.backends)| else 0
  }

  /** What pickBackend works on. */
  function Snapshot(c: Catalog, now: int): Option<seq<Backend>> {
    if Valid(c, now) then Some(c.view.value.backends) else None
  }

  // ----- the view is the last accepted document

  /** Tick i took its document over, and no later tick showed another document that could be taken over. */
  ghost predicate LastTaken(ticks: seq<Tick>, i: int) {
    && 0 <= i < |ticks| && Good(ticks[i])
    && forall j :: i < j < |ticks| && Good(ticks[j]) ==> ticks[j].look.signature == ticks[i].look.signature
  }

  /** The view is always the last document taken over, and there is none exactly when none was ever good. */
  lemma {:induction false} ViewIsLastAccepted(ticks: seq<Tick>)
    ensures var c := After(EMPTY, ticks);
            && (c.view.None? <==> c.signature.None?)
            && (c.view.None? <==> forall j :: 0 <= j < |ticks| ==> !Good(ticks[j]))
            && (c.view.Some? ==> exists i :: LastTaken(ticks, i) && c.view == Parse(ticks[i].look.content)
                                             && c.signature == Some(ticks[i].look.signature))
    decreases |ticks|
  {
    if ticks == [] { return; }
    var init, last := ticks[..|ticks| - 1], ticks[|ticks| - 1];
    ViewIsLastAccepted(init);
    var c, c' := After(EMPTY, init), After(EMPTY, ticks);
    assert forall j :: 0 <= j < |init| ==> ticks[j] == init[j];
    if Good(last) && c.signature != Some(last.look.signature) {
      assert LastTaken(ticks, |ticks| - 1);
      return;
    }
    assert c'.view == c.view && c'.signature == c.signature;
    if c.view.Some? {
      var i :| LastTaken(init, i) && c.view == Parse(init[i].look.content) && c.signature == Some(init[i].look.signature);
      assert LastTaken(ticks, i);
    }
  }

  // ----- expiry

  /** In every run there is a valid view exactly when some document was ever good and the one taken over last has no
      expiry, or one that is still to come: from its expiry on nothing is offered, before it all that it lists. */
  lemma ValidUntilExpiry(ticks: seq<Tick>, now: int)
    ensures var c := After(EMPTY, ticks);
            (forall j :: 0 <= j < |ticks| ==> !Good(ticks[j])) ==> !Valid(c, now) && Snapshot(c, now) == None
    ensures var c := After(EMPTY, ticks);
            (exists j :: 0 <= j < |ticks| && Good(ticks[j])) ==>
              exists i :: && LastTaken(ticks, i)
                          && var content := ticks[i].look.content;
                          && (Valid(c, now) <==> content.validUntil.None? || now < content.validUntil.value)
                          && (Snapshot(c, now).Some? <==> Valid(c, now)) && (Eligible(c, now) > 0 ==> Valid(c, now))
                          && (Snapshot(c, now).Some? ==> Snapshot(c, now) == ParseEntries(content.entries))
  {
    ViewIsLastAccepted(ticks);
    var c := After(EMPTY, ticks);
    if c.view.Some? {
      var i :| LastTaken(ticks, i) && c.view == Parse(ticks[i].look.content) && c.signature == Some(ticks[i].look.signature);
      ParsedAsWritten(ticks[i].look.content);
    }
  }

  /** A document that has expired by the time of the look is not taken over, and the look leaves an error. */
  lemma ExpiredIsRejected(c: Catalog, signature: int, content: Content, now: int)
    requires content.validUntil.Some? && content.validUntil.value <= now && c.signature != Some(signature)
    ensures var c' := Refresh(c, Tick(now, Found(signature, content))); c'.view == c.view && c'.signature == c.signature && c'.failed
  {
  }

  /** The error is that of the last look that told anything: a look at the document in use tells nothing. */
  lemma ErrorOfTheLastLook(c: Catalog, t: Tick)
    ensures var c' := Refresh(c, t);
            if t.look.Found? && c.signature == Some(t.look.signature) then c'.failed == c.failed
            else c'.failed <==> !Good(t)
  {
  }

  // ----- validity does not come back

  predicate Monotone(start: int, ticks: seq<Tick>) {
    && (forall i :: 0 <= i < |ticks| ==> start <= ticks[i].now)
    && (forall i, j :: 0 <= i < j < |ticks| ==> ticks[i].now <= ticks[j].now)
  }

  function Latest(start: int, ticks: seq<Tick>): int {
    if ticks == [] then start else ticks[|ticks| - 1].now
  }

  lemma {:induction false} RejectedChangesNothing(c: Catalog, ticks: seq<Tick>)
    requires forall i :: 0 <= i < |ticks| ==> !Good(ticks[i]) || c.signature == Some(ticks[i].look.signature)
    ensures After(c, ticks).view == c.view && After(c, ticks).signature == c.signature
    decreases |ticks|
  {
    if ticks == [] { return; }
    RejectedChangesNothing(c, ticks[..|ticks| - 1]);
  }

  /** A catalog that is not valid becomes valid again only by taking over a good document with a new
      signature: rejected, missing and expired replacements, however many, never restore it. */
  lemma ValidityNeedsNewDocument(c: Catalog, start: int, ticks: seq<Tick>, now: int)
    requires !Valid(c, start) && Monotone(start, ticks) && Latest(start, ticks) <= now
    requires Valid(After(c, ticks), now)
    ensures exists i :: 0 <= i < |ticks| && Good(ticks[i]) && c.signature != Some(ticks[i].look.signature)
  {
    if forall i :: 0 <= i < |ticks| ==> !Good(ticks[i]) || c.signature == Some(ticks[i].look.signature) {
      RejectedChangesNothing(c, ticks);
    }
  }

  /** A rejected replacement never extends the expiry of the view that stays. */
  lemma RejectedKeepsExpiry(c: Catalog, t: Tick, now: int)
    requires !Good(t)
    ensures Refresh(c, t).view == c.view && (Valid(Refresh(c, t), now) <==> Valid(c, now))
  {
  }

  // ----- readiness

  lemma {:induction false} RunIsWellParsed(ticks: seq<Tick>)
    ensures var c := After(EMPTY, ticks); c.view.Some? ==> WellParsed(c.view.value)
    decreases |ticks|
  {
    if ticks == [] { return; }
    RunIsWellParsed(ticks[..|ticks| - 1]);
    var last := ticks[|ticks| - 1];
    if last.look.Found? && Parse(last.look.content).Some? { ParsedIsWell(last.look.content); }
  }

  lemma Decided(b: Backend)
    requires b.acceptNew.Some?
    ensures Accepts(b) <==> b.acceptNew == Some(true)
  {
    if b.acceptNew.value {
      assert b.acceptNew == Some(true);
    } else {
      assert b.acceptNew == Some(false);
    }
  }

  /** The two filters agree where every backend has decided, which the parser sees to. */
  lemma {:induction false} FiltersAgree(bs: seq<Backend>)
    requires forall b | b in bs :: b.acceptNew.Some?
    ensures Offering(bs) == Accepting(bs)
    decreases |bs|
  {
    if bs == [] { return; }
    var first, rest := bs[0], bs[1..];
    assert first in bs;
    Decided(first);
    assert forall b :: b in rest ==> b in bs;
    FiltersAgree(rest);
    assert Accepting(bs) == (if Accepts(first) then [first] else []) + Accepting(rest);
  }

  /** Elsewhere they do not. */
  lemma FiltersDiffer()
    ensures var bs := [Backend(1, None)]; Offering(bs) == [] && Accepting(bs) == bs
  {
    assert [Backend(1, None)][1..] == [];
  }

  /** In every run readiness reports an eligible backend exactly when an unpinned pick on the same snapshot
      succeeds, although the two count with different filters. */
  lemma {:induction false} ReadyIffPickSucceeds(ticks: seq<Tick>, m: Manager, callId: Option<CallId>, now: int)
    requires PinnedBackend(m, callId).None?
    ensures var c := After(EMPTY, ticks); Eligible(c, now) > 0 <==> Pick(m, Snapshot(c, now), None, callId, now).1.Ok?
  {
    var c := After(EMPTY, ticks);
    RunIsWellParsed(ticks);
    if Valid(c, now) { FiltersAgree(c.view.value.backends); }
  }

  // ----- without a catalog

  /** What the resolver answers for the configured host: SRV targets and addresses, None for a failed lookup. */
  datatype Discovery = Discovery(host: Option<BackendId>, isAddress: bool, srv: Option<seq<BackendId>>, addresses: Option<seq<BackendId>>)

  function FromHosts(hosts: seq<BackendId>): (r: seq<Backend>)
    ensures |r| == |hosts| && forall i :: 0 <= i < |r| ==> r[i] == Backend(hosts[i], None)
  {
    seq(|hosts|, i requires 0 <= i < |hosts| => Backend(hosts[i], None))
  }

  /** resolveBackends; absent when no host is configured. */
  function ResolveBackends(d: Discovery): Option<seq<Backend>> {
    if d.host.None? then None
    else if d.isAddress then Some(FromHosts([d.host.value]))
    else if d.srv.Some? && d.srv.value != [] then Some(FromHosts(d.srv.value))
    else if d.addresses.Some? then Some(FromHosts(d.addresses.value))
    else Some(FromHosts([d.host.value]))
  }

  function DnsEligible(d: Discovery): nat {
    if d.host.Some? then 1 else 0
  }

  /** What an unpinned pick can give without a catalog: the address itself; for a name its SRV targets, if it has
      some; else its addresses; and the name itself only when looking them up failed. */
  lemma PickedHostIsDiscovered(d: Discovery, m: Manager, callId: Option<CallId>, now: int)
    requires PinnedBackend(m, callId).None? && Pick(m, ResolveBackends(d), None, callId, now).1.Ok?
    ensures d.host.Some?
    ensures var id := Pick(m, ResolveBackends(d), None, callId, now).1.value.id;
            if d.isAddress then id == d.host.value
            else if d.srv.Some? && d.srv.value != [] then id in d.srv.value
            else if d.addresses.Some? then id in d.addresses.value
            else id == d.host.value
  {
    var bs := ResolveBackends(d).value;
    var b := Pick(m, Some(bs), None, callId, now).1.value;
    PickHonoursPin(m, Some(bs), None, callId, now);
    var i :| 0 <= i < |bs| && bs[i] == b;
  }

  lemma {:induction false} HostsAccept(bs: seq<Backend>)
    requires forall i :: 0 <= i < |bs| ==> bs[i].acceptNew.None?
    ensures Accepting(bs) == bs
    decreases |bs|
  {
    if bs == [] { return; }
    HostsAccept(bs[1..]);
  }

  /** Without a catalog readiness only looks at the configuration: it reports a backend although an unpinned
      pick fails exactly when the host is a name without SRV targets whose address lookup finds none. */
  lemma DnsReadyButPickFails(d: Discovery, m: Manager, callId: Option<CallId>, now: int)
    requires PinnedBackend(m, callId).None?
    ensures DnsEligible(d) > 0 && Pick(m, ResolveBackends(d), None, callId, now).1.Err?
       <==> d.host.Some? && !d.isAddress && (d.srv.None? || d.srv.value == []) && d.addresses == Some([])
  {
    if d.host.None? { return; }
    HostsAccept(ResolveBackends(d).value);
  }

  // ----- the object

  class FileEndpointCatalog {
    var view: Option<Document>
    var signature: Option<int>
    var failed: bool
    /** All refreshes so far. */
    ghost var looks: seq<Tick>

    ghost function Model(): Catalog
      reads this
    {
      Catalog(view, signature, failed)
    }

    /** The fields are what the refreshes so far make of them. */
    ghost predicate Valid()
      reads this
    {
      Model() == After(EMPTY, looks)
    }

    constructor (t: Tick)
      ensures Valid() && looks == [t]
    {
      view, signature, failed, looks := None, None, false, [];
      new;
      Look(t);
    }

    /** refresh. */
    method Look(t: Tick)
      requires Valid()
      modifies this
      ensures Valid() && looks == old(looks) + [t] && Model() == Refresh(old(Model()), t)
    {
      looks := looks + [t];
      assert looks[..|looks| - 1] == old(looks);
      if t.look.Unreadable? {
        failed := true;
        return;
      }
      if signature == Some(t.look.signature) { return; }
      var candidate := Parse(t.look.content);
      if candidate.None? || Expired(candidate.value, t.now) {
        failed := true;
        return;
      }
      view, signature, failed := candidate, Some(t.look.signature), false;
    }

    /** The getter that readiness and selection read: it refreshes first. A backend is reported as eligible
        exactly when an unpinned pick on this snapshot succeeds. */
    method TakeSnapshot(t: Tick) returns (backends: Option<seq<Backend>>, eligible: nat)
      requires Valid()
      modifies this
      ensures Valid() && looks == old(looks) + [t] && Model() == Refresh(old(Model()), t)
      ensures backends == Snapshot(Model(), t.now) && eligible == Eligible(Model(), t.now)
      ensures forall m: Manager :: eligible > 0 <==> Pick(m, backends, None, None, t.now).1.Ok?
    {
      Look(t);
      forall m: Manager
        ensures Eligible(Model(), t.now) > 0 <==> Pick(m, Snapshot(Model(), t.now), None, None, t.now).1.Ok?
      {
        ReadyIffPickSucceeds(looks, m, None, t.now);
      }
      if view.None? || (view.value.validUntil.Some? && view.value.validUntil.value <= t.now) { return None, 0; }
      return Some(view.value.backends), |Offering(view.value.backends)|;
    }
  }
}
