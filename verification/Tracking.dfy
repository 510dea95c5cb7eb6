/** `track` (src/gateway-lifecycle.ts:49-56) calls beginOperation before an operation and its finish callback after
    it, on every exit path. Each stretch of an operation between two awaits is marked with the calls that fall into
    it. */
module Tracking {
  import L = GatewayLifecycle

  datatype Mark = Begins(token: L.Token) | Ends(token: L.Token)

  function Track(life: L.Lifecycle, marks: seq<Mark>): L.Lifecycle
    decreases |marks|
  {
    if marks == [] then life
    else Track(if marks[0].Begins? then L.Begun(life, marks[0].token) else L.Ended(life, marks[0].token), marks[1..])
  }

  /** Tracking an operation neither drains nor stops. */
  lemma {:induction false} TrackKeepsFlags(life: L.Lifecycle, marks: seq<Mark>)
    ensures var life' := Track(life, marks); life'.isDraining == life.isDraining && life'.isStopping == life.isStopping
    decreases |marks|
  {
    if marks == [] { return; }
    TrackKeepsFlags(if marks[0].Begins? then L.Begun(life, marks[0].token) else L.Ended(life, marks[0].token), marks[1..]);
  }

  /** An operation that is admitted and refuses or fails at once. */
  const PASSING: seq<Mark> := [Begins(L.PassingWork), Ends(L.PassingWork)]

  lemma TrackOne(life: L.Lifecycle, m: Mark)
    ensures Track(life, [m]) == if m.Begins? then L.Begun(life, m.token) else L.Ended(life, m.token)
  {
    assert [m][1..] == [];
  }

  lemma TrackPassing(life: L.Lifecycle)
    ensures Track(life, PASSING) == L.Ended(L.Begun(life, L.PassingWork), L.PassingWork)
  {
    assert PASSING[1..] == [Ends(L.PassingWork)];
    TrackOne(L.Begun(life, L.PassingWork), Ends(L.PassingWork));
  }

  // ----- what the marks stand for

  /** A step has no marks, or those of an operation that is over at once, or one. */
  predicate MarksOk(marks: seq<Mark>) {
    || marks == [] || marks == PASSING
    || (|marks| == 1 && !marks[0].token.OtherWork? && !marks[0].token.PassingWork?)
  }

  /** The one marked work begins or ends; other work goes on as it did. */
  predicate Moved(marks: seq<Mark>, w: L.Token, was: bool, now: bool) {
    if |marks| == 1 && marks[0].token == w then now == marks[0].Begins? && was == marks[0].Ends?
    else now == was
  }

  /** What the marks do to the open operations. */
  lemma TrackMoves(life: L.Lifecycle, marks: seq<Mark>)
    requires L.Inv(life) && MarksOk(marks) && L.PassingWork !in life.open
    requires |marks| == 1 && marks[0].Begins? ==> !life.isStopping
    requires |marks| == 1 ==> (marks[0].token in life.open <==> marks[0].Ends?)
    ensures var life' := Track(life, marks);
            && L.Inv(life') && life' == life.(open := life'.open, pendingOperations := life'.pendingOperations)
            && forall w :: Moved(marks, w, w in life.open, w in life'.open)
  {
    if marks == [] { return; }
    if marks == PASSING {
      PassingMoves(life);
      return;
    }
    assert marks[1..] == [];
    L.InvStep(life, if marks[0].Begins? then L.BeginOperation(marks[0].token) else L.FinishOperation(marks[0].token));
  }

  lemma PassingMoves(life: L.Lifecycle)
    requires L.Inv(life) && L.PassingWork !in life.open
    ensures Track(life, PASSING) == life
  {
    TrackPassing(life);
    assert L.Begun(life, L.PassingWork).open - {L.PassingWork} == life.open;
  }

  // ----- track as the objects call it

  method BeginTracked(lifecycle: L.GatewayLifecycle, token: L.Token)
    requires lifecycle.Valid() && token !in lifecycle.unfinished
    modifies lifecycle`pendingOperations, lifecycle`unfinished
    ensures lifecycle.Model() == Track(old(lifecycle.Model()), [Begins(token)])
  {
    TrackOne(lifecycle.Model(), Begins(token));
    var _ := lifecycle.BeginOperation(token);
  }

  method FinishTracked(lifecycle: L.GatewayLifecycle, token: L.Token)
    requires lifecycle.Valid()
    modifies lifecycle`pendingOperations, lifecycle`unfinished
    ensures lifecycle.Model() == Track(old(lifecycle.Model()), [Ends(token)])
  {
    TrackOne(lifecycle.Model(), Ends(token));
    lifecycle.Finish(token);
  }

  /** An operation that ends in the stretch in which it began. */
  method PassTracked(lifecycle: L.GatewayLifecycle)
    requires lifecycle.Valid() && L.PassingWork !in lifecycle.unfinished
    modifies lifecycle`pendingOperations, lifecycle`unfinished
    ensures lifecycle.Model() == Track(old(lifecycle.Model()), PASSING)
  {
    TrackPassing(lifecycle.Model());
    var _ := lifecycle.BeginOperation(L.PassingWork);
    lifecycle.Finish(L.PassingWork);
  }
}
