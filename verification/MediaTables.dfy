/** What every helper of the media service keeps of its endpoint index, bridge pairs and claims. */
module MediaTables {
  import opened Prelude
  import opened BackendPins
  import opened MediaCore

  type Births = map<EndpointId, (SessionId, Endpoint)>

  /** Every record's endpoints are where they were born; restricted to live sessions, the index is
      exactly the inverse of the endpoint maps. */
  ghost predicate IndexOk(c: Core, born: Births) {
    && c.live <= c.records.Keys
    && (forall e :: e in born ==> born[e].0 in c.records)
    && (forall s, e :: Has(c, s, e) ==> e in born && born[e] == (s, c.records[s].endpoints[e]))
    && (forall e :: e in c.index ==> e in born && born[e].0 == c.index[e])
    && (forall s, e :: s in c.live && Has(c, s, e) ==> e in c.index)
    && (forall e :: Tracked(c, e) ==> Has(c, c.index[e], e))
  }

  /** Bridge endpoints are born in pairs that name each other from two sessions, and in live
      sessions both of a pair are there. */
  ghost predicate PairsOk(c: Core, born: Births) {
    && (forall e :: e in born && born[e].1.Bridge? ==>
                      && var (s, ep) := born[e];
                      ep.peerSession != s && ep.peerEndpoint in born && born[ep.peerEndpoint] == (ep.peerSession, Bridge(s, e)))
    && (forall s, e :: s in c.live && Has(c, s, e) && c.records[s].endpoints[e].Bridge? ==>
                         && var ep := c.records[s].endpoints[e];
                         ep.peerSession in c.live && Has(c, ep.peerSession, ep.peerEndpoint))
  }

  /** The claim of an endpoint is an unreleased run on it, and the only one while it is tracked. */
  ghost predicate ClaimsOk(c: Core, born: Births) {
    && (forall e :: e in c.claims ==> c.claims[e] in c.runs && c.runs[c.claims[e]].endpoint == e && !c.runs[c.claims[e]].released)
    && (forall r :: r in c.runs ==> c.runs[r].endpoint in born && (c.runs[r].outcome.Some? ==> c.runs[r].released))
    && (forall r :: r in c.runs && c.runs[r].kind.Gather? && c.runs[r].released ==> c.runs[r].outcome.Some?)
    && (forall r :: r in c.runs && !c.runs[r].released && Tracked(c, c.runs[r].endpoint) ==> HoldsClaim(c, r))
  }

  ghost predicate SensitiveOk(c: Core) {
    forall e :: e in c.sensitive ==> Tracked(c, e)
  }

  ghost predicate TablesOk(c: Core, born: Births) {
    IndexOk(c, born) && PairsOk(c, born) && ClaimsOk(c, born) && SensitiveOk(c)
  }

  lemma PublishKeepsTables(c: Core, born: Births, sid: SessionId, session: Session)
    requires TablesOk(c, born) && sid !in c.records && session.endpoints == map[]
    ensures TablesOk(Publish(c, sid, session), born)
  {
    var c' := Publish(c, sid, session);
    assert forall s, e :: Has(c', s, e) <==> Has(c, s, e);
    assert forall e :: Tracked(c', e) <==> Tracked(c, e);
    assert forall r :: HoldsClaim(c', r) <==> HoldsClaim(c, r);
  }

  /** Claims survive a change that takes the claims of `gone` away, provided no other endpoint
      becomes tracked and those of `gone` no longer are. */
  lemma ClaimsCarry(c: Core, c': Core, born: Births, born': Births, gone: set<EndpointId>)
    requires ClaimsOk(c, born) && born.Keys <= born'.Keys
    requires c'.runs == c.runs && c'.claims == c.claims - gone
    requires forall e :: e in born && Tracked(c', e) ==> Tracked(c, e) && e !in gone
    ensures ClaimsOk(c', born')
  {
    assert forall r :: r in c.runs ==> c.runs[r].endpoint in born;
    assert forall r :: r in c'.runs && c'.runs[r].endpoint !in gone ==> (HoldsClaim(c', r) <==> HoldsClaim(c, r));
  }

  /** The effect of adding one endpoint, in terms of who has which. */
  lemma AddEffect(c: Core, sid: SessionId, eid: EndpointId, ep: Endpoint)
    requires sid in c.records && forall s :: !Has(c, s, eid)
    ensures var c' := Add(c, sid, eid, ep);
            && (forall s, e :: Has(c', s, e) <==> Has(c, s, e) || (s == sid && e == eid))
            && (forall s, e :: Has(c, s, e) ==> c'.records[s].endpoints[e] == c.records[s].endpoints[e])
            && (forall e :: e != eid ==> (Tracked(c', e) <==> Tracked(c, e)))
  {
  }

  lemma AddKeepsTables(c: Core, born: Births, sid: SessionId, eid: EndpointId, kind: Kind)
    requires TablesOk(c, born) && sid in c.records && eid !in born
    ensures TablesOk(Add(c, sid, eid, Plain(kind)), born[eid := (sid, Plain(kind))])
  {
    var c' := Add(c, sid, eid, Plain(kind));
    AddEffect(c, sid, eid, Plain(kind));
    assert c.claims - {} == c.claims;
    ClaimsCarry(c, c', born, born[eid := (sid, Plain(kind))], {});
  }

  function BothBorn(born: Births, sid: SessionId, eid: EndpointId, tid: SessionId, teid: EndpointId): Births {
    born[eid := (sid, Bridge(tid, teid))][teid := (tid, Bridge(sid, eid))]
  }

  /** The effect of adding both ends of a bridge, in terms of who has which endpoint. */
  ghost predicate PairAdded(c: Core, c': Core, sid: SessionId, eid: EndpointId, tid: SessionId, teid: EndpointId) {
    && c'.live == c.live && c'.records.Keys == c.records.Keys
    && c'.claims == c.claims && c'.runs == c.runs && c'.sensitive == c.sensitive
    && (forall s, e :: Has(c', s, e) <==> Has(c, s, e) || (s == sid && e == eid) || (s == tid && e == teid))
    && (forall s, e :: Has(c, s, e) ==> c'.records[s].endpoints[e] == c.records[s].endpoints[e])
    && Has(c', sid, eid) && c'.records[sid].endpoints[eid] == Bridge(tid, teid)
    && Has(c', tid, teid) && c'.records[tid].endpoints[teid] == Bridge(sid, eid)
    && c'.index == c.index[eid := sid][teid := tid]
  }

  lemma AddPairEffect(c: Core, sid: SessionId, eid: EndpointId, tid: SessionId, teid: EndpointId)
    requires sid in c.records && tid in c.records && sid != tid
    requires !Has(c, sid, eid) && !Has(c, tid, teid) && eid != teid
    ensures PairAdded(c, Add(Add(c, sid, eid, Bridge(tid, teid)), tid, teid, Bridge(sid, eid)), sid, eid, tid, teid)
  {
  }

  lemma PairKeepsIndex(c: Core, c': Core, born: Births, sid: SessionId, eid: EndpointId, tid: SessionId, teid: EndpointId)
    requires IndexOk(c, born) && PairAdded(c, c', sid, eid, tid, teid)
    requires sid in c.live && tid in c.live && eid !in born && teid !in born && eid != teid
    ensures IndexOk(c', BothBorn(born, sid, eid, tid, teid))
    ensures forall e :: Tracked(c', e) <==> Tracked(c, e) || e == eid || e == teid
  {
  }

  lemma PairKeepsPairs(c: Core, c': Core, born: Births, sid: SessionId, eid: EndpointId, tid: SessionId, teid: EndpointId)
    requires PairsOk(c, born) && PairAdded(c, c', sid, eid, tid, teid)
    requires sid in c.live && tid in c.live && sid != tid && eid !in born && teid !in born && eid != teid
    ensures PairsOk(c', BothBorn(born, sid, eid, tid, teid))
  {
    var born' := BothBorn(born, sid, eid, tid, teid);
    forall e | e in born' && born'[e].1.Bridge?
      ensures var (s, ep) := born'[e];
              ep.peerSession != s && ep.peerEndpoint in born' && born'[ep.peerEndpoint] == (ep.peerSession, Bridge(s, e))
    {
      if e != eid && e != teid {
        assert e in born;
      }
    }
  }

  lemma AddPairKeepsTables(c: Core, born: Births, sid: SessionId, eid: EndpointId, tid: SessionId, teid: EndpointId)
    requires TablesOk(c, born) && sid in c.live && tid in c.live && sid != tid
    requires eid !in born && teid !in born && eid != teid
    ensures TablesOk(Add(Add(c, sid, eid, Bridge(tid, teid)), tid, teid, Bridge(sid, eid)), BothBorn(born, sid, eid, tid, teid))
  {
    var c' := Add(Add(c, sid, eid, Bridge(tid, teid)), tid, teid, Bridge(sid, eid));
    AddPairEffect(c, sid, eid, tid, teid);
    PairKeepsIndex(c, c', born, sid, eid, tid, teid);
    PairKeepsPairs(c, c', born, sid, eid, tid, teid);
    assert c.claims - {} == c.claims;
    ClaimsCarry(c, c', born, BothBorn(born, sid, eid, tid, teid), {});
  }

  lemma RemoveEffect(c: Core, born: Births, sid: SessionId, eid: EndpointId, captured: Option<Endpoint>)
    returns (gone: set<EndpointId>)
    requires IndexOk(c, born) && PairsOk(c, born) && eid in born && born[eid].0 == sid
    requires if captured.Some? then captured.value == born[eid].1 else !Has(c, sid, eid)
    ensures var c' := Remove(c, sid, eid, captured);
            && (forall s, e :: Has(c', s, e) <==> Has(c, s, e) && e !in gone)
            && (forall s, e :: Has(c', s, e) ==> c'.records[s].endpoints[e] == c.records[s].endpoints[e])
            && (forall e :: Tracked(c', e) <==> Tracked(c, e) && e !in gone)
            && c'.index == c.index - gone && c'.claims == c.claims - gone && c'.sensitive == c.sensitive - gone
            && c'.live == c.live && c'.records.Keys == c.records.Keys && c'.runs == c.runs
            && eid in gone && (forall e :: e in gone && e != eid ==> e in born && born[e].1 == Bridge(sid, eid))
            && (sid in c.live && Has(c, sid, eid) && born[eid].1.Bridge? ==> born[eid].1.peerEndpoint in gone)
  {
    gone := {eid} + if captured.Some? && captured.value.Bridge? && captured.value.peerSession in c.live
    then {captured.value.peerEndpoint} else {};
    var c' := Remove(c, sid, eid, captured);
    assert c'.index == c.index - gone && c'.claims == c.claims - gone && c'.sensitive == c.sensitive - gone;
  }

  lemma RemoveKeepsTables(c: Core, born: Births, sid: SessionId, eid: EndpointId, captured: Option<Endpoint>)
    requires TablesOk(c, born) && eid in born && born[eid].0 == sid
    requires if captured.Some? then captured.value == born[eid].1 else !Has(c, sid, eid)
    ensures TablesOk(Remove(c, sid, eid, captured), born)
  {
    var gone := RemoveEffect(c, born, sid, eid, captured);
    var c' := Remove(c, sid, eid, captured);
    ClaimsCarry(c, c', born, born, gone);
    assert IndexOk(c', born);
    forall s, e | s in c'.live && Has(c', s, e) && c'.records[s].endpoints[e].Bridge?
      ensures var ep := c'.records[s].endpoints[e]; ep.peerSession in c'.live && Has(c', ep.peerSession, ep.peerEndpoint)
    {
      assert Has(c, s, e) && born[e].1.Bridge?;
      assert Has(c, born[e].1.peerSession, born[e].1.peerEndpoint);
    }
  }

  lemma CancelKeepsClaims(c: Core, born: Births, own: set<EndpointId>)
    requires ClaimsOk(c, born)
    ensures ClaimsOk(CancelAll(c, own), born)
  {
    var c' := CancelAll(c, own);
    assert forall e :: Tracked(c', e) <==> Tracked(c, e);
  }

  lemma CancelKeepsTables(c: Core, born: Births, own: set<EndpointId>)
    requires TablesOk(c, born)
    ensures TablesOk(CancelAll(c, own), born)
  {
    var c' := CancelAll(c, own);
    CancelKeepsClaims(c, born, own);
    assert forall s, e :: Has(c', s, e) <==> Has(c, s, e);
    assert forall e :: Tracked(c', e) <==> Tracked(c, e);
  }

  /** Which endpoints a teardown leaves, once the session's actions are cancelled. */
  lemma DropEffect(c: Core, born: Births, sid: SessionId, active: set<CallId>, now: int)
    requires IndexOk(c, born) && PairsOk(c, born) && sid in c.live
    ensures var own := c.records[sid].endpoints;
            var c' := Drop(c, sid, active, now);
            && (forall s, e :: Has(c', s, e) <==> Has(c, s, e) && e !in PeersIn(own, c.live, s))
            && (forall s, e :: Has(c', s, e) ==> c'.records[s].endpoints[e] == c.records[s].endpoints[e])
            && (forall e :: Tracked(c', e) <==> Tracked(c, e) && e !in own && e !in AllPeers(own, c.live))
            && (forall e :: e in own ==> born[e] == (sid, own[e]))
            && (forall e :: e in AllPeers(own, c.live) ==>
                              e in born && born[e].1.Bridge? && born[e].1.peerSession == sid && born[e].1.peerEndpoint in own
                              && born[e].0 in c.live && e in PeersIn(own, c.live, born[e].0))
            && (forall s, e :: e in PeersIn(own, c.live, s) ==> e in AllPeers(own, c.live) && born[e].0 == s)
  {
    var own := c.records[sid].endpoints;
    assert forall e :: e in own ==> Has(c, sid, e);
    forall e | Tracked(c, e) && e !in own && e !in AllPeers(own, c.live)
      ensures c.index[e] != sid
    {
      assert Has(c, c.index[e], e);
    }
  }

  lemma DropKeepsIndex(c: Core, born: Births, sid: SessionId, active: set<CallId>, now: int)
    requires IndexOk(c, born) && PairsOk(c, born) && sid in c.live
    ensures IndexOk(Drop(c, sid, active, now), born)
  {
    DropEffect(c, born, sid, active, now);
    var own := c.records[sid].endpoints;
    var c' := Drop(c, sid, active, now);
    forall s, e | s in c'.live && Has(c', s, e)
      ensures e in c'.index
    {
      assert Has(c, s, e);
      assert Tracked(c, e);
    }
  }

  lemma DropKeepsPairs(c: Core, born: Births, sid: SessionId, active: set<CallId>, now: int)
    requires IndexOk(c, born) && PairsOk(c, born) && sid in c.live
    ensures PairsOk(Drop(c, sid, active, now), born)
  {
    DropEffect(c, born, sid, active, now);
    var own := c.records[sid].endpoints;
    var c' := Drop(c, sid, active, now);
    forall s, e | s in c'.live && Has(c', s, e) && c'.records[s].endpoints[e].Bridge?
      ensures var ep := c'.records[s].endpoints[e]; ep.peerSession in c'.live && Has(c', ep.peerSession, ep.peerEndpoint)
    {
      var ep := c.records[s].endpoints[e];
      assert Has(c, s, e) && Has(c, ep.peerSession, ep.peerEndpoint);
    }
  }

  lemma DropKeepsClaims(c: Core, born: Births, sid: SessionId, active: set<CallId>, now: int)
    requires TablesOk(c, born) && sid in c.live
    ensures ClaimsOk(Drop(c, sid, active, now), born) && SensitiveOk(Drop(c, sid, active, now))
  {
    var own := c.records[sid].endpoints;
    CancelKeepsTables(c, born, own.Keys);
    DropEffect(c, born, sid, active, now);
    var c1 := CancelAll(c, own.Keys);
    var c' := Drop(c, sid, active, now);
    assert forall e :: Tracked(c1, e) <==> Tracked(c, e);
    ClaimsCarry(c1, c', born, born, AllPeers(own, c.live));
  }

  lemma DropKeepsTables(c: Core, born: Births, sid: SessionId, active: set<CallId>, now: int)
    requires TablesOk(c, born)
    ensures TablesOk(Drop(c, sid, active, now), born)
  {
    if sid in c.live {
      DropKeepsIndex(c, born, sid, active, now);
      DropKeepsPairs(c, born, sid, active, now);
      DropKeepsClaims(c, born, sid, active, now);
    }
  }

  lemma {:induction false} DropAllKeepsTables(c: Core, born: Births, order: seq<SessionId>, active: set<CallId>, now: int)
    requires TablesOk(c, born)
    ensures TablesOk(DropAll(c, order, active, now), born)
    decreases |order|
  {
    if order != [] {
      DropKeepsTables(c, born, order[0], active, now);
      DropAllKeepsTables(Drop(c, order[0], active, now), born, order[1..], active, now);
    }
  }

  lemma ClaimKeepsTables(c: Core, born: Births, r: OpId, eid: EndpointId, kind: ActionKind)
    requires TablesOk(c, born) && r !in c.runs && eid !in c.claims && eid in born
    ensures TablesOk(Claim(c, r, eid, kind), born)
  {
    var c' := Claim(c, r, eid, kind);
    assert forall s, e :: Has(c', s, e) <==> Has(c, s, e);
    assert forall e :: Tracked(c', e) <==> Tracked(c, e);
  }

  lemma ReleaseKeepsTables(c: Core, born: Births, r: OpId)
    requires TablesOk(c, born) && r in c.runs && c.runs[r].kind.LeaveMessage?
    ensures TablesOk(Release(c, r), born)
  {
    var c' := Release(c, r);
    assert forall s, e :: Has(c', s, e) <==> Has(c, s, e);
    assert forall e :: Tracked(c', e) <==> Tracked(c, e);
  }

  lemma FinishKeepsTables(c: Core, born: Births, r: OpId, reason: Reason)
    requires TablesOk(c, born) && r in c.runs && c.runs[r].kind.Gather?
    ensures TablesOk(Finish(c, r, reason), born)
  {
    var c' := Finish(c, r, reason);
    assert forall s, e :: Has(c', s, e) <==> Has(c, s, e);
    assert forall e :: Tracked(c', e) <==> Tracked(c, e);
  }
}
