/** Admission, draining and stopping on a clock (src/gateway-lifecycle.ts). */
module GatewayLifecycle {
  import opened Prelude

  /** What an admitted operation works on; the finish callback that beginOperation returns belongs to it.
      `PassingWork` is over before the next await. */
  datatype Token = InviteWork(id: CallId) | AttemptWork(attempt: int) | SessionWork(op: OpId) | OtherWork(n: int) | PassingWork

  const POLL_MS := 100

  /** One run of the stop hook: whether it was forced, and what was still open at that moment. */
  datatype StopRun = StopRun(forced: bool, at: int, openOperations: nat, resources: nat)

  /** `open` are the tracked operations whose finish callback has not run; `deadline`, `poll` and
      `cleanup` are the armed timers; `completedAt` is when the drain promise was resolved. */
  datatype Lifecycle = Lifecycle(now: int, maxWaitMs: nat, cleanupMs: nat, pendingOperations: int, open: set<Token>,
                                 isDraining: bool, isStopping: bool, drainedAt: Option<int>,
                                 deadline: Option<int>, poll: Option<int>, cleanup: Option<int>,
                                 stops: seq<StopRun>, completedAt: Option<int>)

  function Fresh(now: int, maxWaitMs: nat, cleanupMs: nat): Lifecycle {
    Lifecycle(now, maxWaitMs, cleanupMs, 0, {}, false, false, None, None, None, None, [], None)
  }

  function Begun(l: Lifecycle, t: Token): Lifecycle {
    if l.isStopping || t in l.open then l
    else l.(pendingOperations := l.pendingOperations + 1, open := l.open + {t})
  }

  function Ended(l: Lifecycle, t: Token): Lifecycle {
    if t !in l.open then l
    else l.(pendingOperations := l.pendingOperations - 1, open := l.open - {t})
  }

  function Drained(l: Lifecycle): Lifecycle {
    if l.isDraining then l
    else l.(isDraining := true, drainedAt := Some(l.now), poll := Some(l.now + POLL_MS), deadline := Some(l.now + l.maxWaitMs))
  }

  function Stopped(l: Lifecycle, forced: bool, resources: nat): Lifecycle {
    if l.isStopping then l
    else l.(isStopping := true, poll := None, deadline := None, cleanup := Some(l.now + l.cleanupMs),
         stops := l.stops + [StopRun(forced, l.now, if l.pendingOperations >= 0 then l.pendingOperations else 0, resources)])
  }

  function Completed(l: Lifecycle): Lifecycle {
    l.(cleanup := None, completedAt := Some(l.now))
  }

  datatype Event =
    | BeginOperation(token: Token)
    | FinishOperation(token: Token)
    | StartDrain
    | PollFires(resources: nat)
    | DeadlineFires(resources: nat)
    | CleanupSettles
    | CleanupTimesOut
    | Advance(to: int)

  /** Timers are punctual: the clock does not pass an armed timer. */
  predicate MayAdvance(l: Lifecycle, to: int) {
    && l.now <= to
    && (l.deadline.Some? ==> to <= l.deadline.value)
    && (l.poll.Some? ==> to <= l.poll.value)
    && (l.cleanup.Some? ==> to <= l.cleanup.value)
  }

  function Step(l: Lifecycle, e: Event): Lifecycle {
    match e
    case BeginOperation(t) => Begun(l, t)
    case FinishOperation(t) => Ended(l, t)
    case StartDrain => Drained(l)
    case PollFires(resources) =>
      if l.poll != Some(l.now) then l
      else if l.pendingOperations == 0 && resources == 0 then Stopped(l, false, resources)
      else l.(poll := Some(l.now + POLL_MS))
    case DeadlineFires(resources) => if l.deadline != Some(l.now) then l else Stopped(l, true, resources)
    case CleanupSettles => if l.cleanup.None? then l else Completed(l)
    case CleanupTimesOut => if l.cleanup != Some(l.now) then l else Completed(l)
    case Advance(to) => if MayAdvance(l, to) then l.(now := to) else l
  }

  function StateAfter(start: Lifecycle, events: seq<Event>): Lifecycle {
    if events == [] then start else Step(StateAfter(start, events[..|events| - 1]), events[|events| - 1])
  }

  ghost predicate Inv(l: Lifecycle) {
    && l.pendingOperations == |l.open|
    && (l.isStopping ==> l.isDraining)
    && (l.isDraining <==> l.drainedAt.Some?)
    && (l.isStopping <==> |l.stops| == 1) && |l.stops| <= 1
    && (l.isDraining && !l.isStopping <==> l.deadline.Some?) && (l.deadline.Some? <==> l.poll.Some?)
    && (l.isStopping && l.completedAt.None? <==> l.cleanup.Some?)
    && (l.completedAt.Some? ==> l.isStopping)
    && (l.isDraining ==> l.drainedAt.value <= l.now)
    && (l.deadline.Some? ==> l.deadline.value == l.drainedAt.value + l.maxWaitMs && l.now <= l.deadline.value
                             && l.now <= l.poll.value <= l.now + POLL_MS)
    && (l.isStopping ==> l.drainedAt.value <= l.stops[0].at <= l.drainedAt.value + l.maxWaitMs && l.stops[0].at <= l.now
                         && (l.stops[0].forced ==> l.stops[0].at == l.drainedAt.value + l.maxWaitMs)
                         && (!l.stops[0].forced ==> l.stops[0].openOperations == 0 && l.stops[0].resources == 0))
    && (l.cleanup.Some? ==> l.cleanup.value == l.stops[0].at + l.cleanupMs && l.now <= l.cleanup.value)
    && (l.completedAt.Some? ==> l.stops[0].at <= l.completedAt.value <= l.stops[0].at + l.cleanupMs)
  }

  lemma InvStep(l: Lifecycle, e: Event)
    requires Inv(l)
    ensures Inv(Step(l, e))
    ensures Step(l, e).maxWaitMs == l.maxWaitMs && Step(l, e).cleanupMs == l.cleanupMs
  {
  }

  lemma {:induction false} RunInv(now: int, maxWaitMs: nat, cleanupMs: nat, events: seq<Event>)
    ensures var l := StateAfter(Fresh(now, maxWaitMs, cleanupMs), events);
            Inv(l) && l.maxWaitMs == maxWaitMs && l.cleanupMs == cleanupMs
    decreases |events|
  {
    var start := Fresh(now, maxWaitMs, cleanupMs);
    if events == [] {
      assert Inv(start);
    } else {
      RunInv(now, maxWaitMs, cleanupMs, events[..|events| - 1]);
      InvStep(StateAfter(start, events[..|events| - 1]), events[|events| - 1]);
    }
  }

  /** The counter is the number of operations begun and not finished, however often finish is called. */
  lemma {:induction false} PendingCountsOpenOperations(now: int, maxWaitMs: nat, cleanupMs: nat, events: seq<Event>)
    ensures var l := StateAfter(Fresh(now, maxWaitMs, cleanupMs), events); l.pendingOperations == |l.open|
  {
    RunInv(now, maxWaitMs, cleanupMs, events);
  }

  /** Stop runs at most once, and only without force when nothing was open. */
  lemma StopsOnceAndGracefullyWhenIdle(now: int, maxWaitMs: nat, cleanupMs: nat, events: seq<Event>)
    ensures var l := StateAfter(Fresh(now, maxWaitMs, cleanupMs), events);
            && |l.stops| <= 1
            && (|l.stops| == 1 && !l.stops[0].forced ==> l.stops[0].openOperations == 0 && l.stops[0].resources == 0)
  {
    RunInv(now, maxWaitMs, cleanupMs, events);
  }

  /** From the first drain on: the drain moment never moves, an uncompleted drain is never older than the
      two limits together, and a completed one was completed within them. */
  lemma DrainCompletesInTime(now: int, maxWaitMs: nat, cleanupMs: nat, events: seq<Event>)
    ensures var l := StateAfter(Fresh(now, maxWaitMs, cleanupMs), events);
            l.drainedAt.Some? ==>
              && (l.completedAt.None? ==> l.now <= l.drainedAt.value + maxWaitMs + cleanupMs)
              && (l.completedAt.Some? ==> l.completedAt.value <= l.drainedAt.value + maxWaitMs + cleanupMs)
  {
    RunInv(now, maxWaitMs, cleanupMs, events);
  }

  // ----- when it stops

  /** A draining gateway that does not stop yet looks every 100 ms whether it is idle: the clock cannot pass its next
      look. */
  lemma {:induction false} DrainingLooksSoon(now: int, maxWaitMs: nat, cleanupMs: nat, events: seq<Event>, to: int)
    ensures var l := StateAfter(Fresh(now, maxWaitMs, cleanupMs), events);
            l.isDraining && !l.isStopping ==>
              && l.poll.Some? && l.now <= l.poll.value <= l.now + 100
              && Step(l, Advance(to)).now <= l.poll.value
  {
    RunInv(now, maxWaitMs, cleanupMs, events);
  }

  /** A drain begins with its first request: the wait for it to end runs from then. */
  lemma DrainStarts(l: Lifecycle)
    requires Inv(l) && !l.isDraining
    ensures var l' := Step(l, StartDrain);
            && l'.isDraining && !l'.isStopping && l'.open == l.open
            && l'.drainedAt == Some(l.now) && l'.deadline == Some(l.now + l.maxWaitMs) && l'.poll == Some(l.now + 100)
  {
  }

  ghost predicate StopKept(l: Lifecycle, l': Lifecycle) {
    l'.isStopping && l'.stops == l.stops && l'.open <= l.open
  }

  lemma {:induction false} StopIsKept(l: Lifecycle, more: seq<Event>)
    requires Inv(l) && l.isStopping
    ensures Inv(StateAfter(l, more)) && StopKept(l, StateAfter(l, more)) && StateAfter(l, more).cleanupMs == l.cleanupMs
    decreases |more|
  {
    if more == [] { return; }
    var before := StateAfter(l, more[..|more| - 1]);
    StopIsKept(l, more[..|more| - 1]);
    InvStep(before, more[|more| - 1]);
    if Step(before, more[|more| - 1]) == before { return; }
  }

  lemma {:induction false} RunGoesOn(start: Lifecycle, events: seq<Event>, more: seq<Event>)
    ensures StateAfter(start, events + more) == StateAfter(StateAfter(start, events), more)
    decreases |more|
  {
    if more == [] {
      assert events + more == events;
      return;
    }
    RunGoesOn(start, events, more[..|more| - 1]);
    assert (events + more)[..|events + more| - 1] == events + more[..|more| - 1];
  }

  /** A look that finds nothing open stops the gateway at that moment and without force, and the drain is over within
      the clean-up limit from then; a look that finds something does not stop it. */
  lemma IdleLookStops(now: int, maxWaitMs: nat, cleanupMs: nat, events: seq<Event>, resources: nat, more: seq<Event>)
    requires var l := StateAfter(Fresh(now, maxWaitMs, cleanupMs), events); l.poll == Some(l.now)
    ensures var l := StateAfter(Fresh(now, maxWaitMs, cleanupMs), events);
            && (Step(l, PollFires(resources)).isStopping <==> l.open == {} && resources == 0)
            && var l' := StateAfter(Fresh(now, maxWaitMs, cleanupMs), events + ([PollFires(resources)] + more));
            l.open == {} && resources == 0 ==>
              && l'.isStopping && l'.stops == [StopRun(false, l.now, 0, 0)]
              && (l'.completedAt.None? ==> l'.now <= l.now + cleanupMs)
              && (l'.completedAt.Some? ==> l'.completedAt.value <= l.now + cleanupMs)
  {
    var start := Fresh(now, maxWaitMs, cleanupMs);
    var l := StateAfter(start, events);
    var next := Step(l, PollFires(resources));
    RunInv(now, maxWaitMs, cleanupMs, events);
    InvStep(l, PollFires(resources));
    RunGoesOn(start, events, [PollFires(resources)] + more);
    RunGoesOn(l, [PollFires(resources)], more);
    assert [PollFires(resources)][..0] == [];
    assert StateAfter(l, [PollFires(resources)]) == next;
    if l.open == {} && resources == 0 {
      StopIsKept(next, more);
    }
  }

  /** A forced stop comes exactly when the wait is over, and a clean-up that does not settle is cut off exactly at its
      limit. */
  lemma ForcedAtTheDeadline(now: int, maxWaitMs: nat, cleanupMs: nat, events: seq<Event>)
    ensures var l := StateAfter(Fresh(now, maxWaitMs, cleanupMs), events);
            && (|l.stops| == 1 && l.stops[0].forced ==> l.drainedAt.Some? && l.stops[0].at == l.drainedAt.value + maxWaitMs)
            && (Step(l, CleanupTimesOut) != l ==> |l.stops| == 1 && l.now == l.stops[0].at + cleanupMs)
  {
    RunInv(now, maxWaitMs, cleanupMs, events);
  }

  ghost predicate DrainedOnce(l: Lifecycle, l': Lifecycle) {
    && l'.isDraining && l'.drainedAt == l.drainedAt && (l.isStopping ==> l'.isStopping)
    && (l'.deadline.Some? ==> l'.deadline == l.deadline)
    && (l.isStopping ==> l'.open <= l.open)
  }

  lemma DrainedStep(l: Lifecycle, e: Event)
    requires Inv(l) && l.isDraining
    ensures DrainedOnce(l, Step(l, e))
  {
    if Step(l, e) == l { return; }
  }

  /** Draining is remembered: further drains, like all other events, leave its moment and its deadline, and
      once stopping no operation is begun. */
  lemma {:induction false} DrainIsOnce(l: Lifecycle, more: seq<Event>)
    requires Inv(l) && l.isDraining
    ensures Inv(StateAfter(l, more)) && DrainedOnce(l, StateAfter(l, more))
    decreases |more|
  {
    if more == [] { return; }
    var before := StateAfter(l, more[..|more| - 1]);
    DrainIsOnce(l, more[..|more| - 1]);
    InvStep(before, more[|more| - 1]);
    DrainedStep(before, more[|more| - 1]);
  }

  // ----- the object

  class GatewayLifecycle {
    const maxWaitMs: nat
    const cleanupTimeoutMs: nat
    var pendingOperations: int
    /** The finish callbacks that have not run yet. */
    var unfinished: set<Token>
    var isDraining: bool
    var isStopping: bool
    var pollTimer: Option<int>
    var deadlineTimer: Option<int>
    var cleanupTimer: Option<int>
    var resolvedAt: Option<int>
    ghost var clock: int
    ghost var drainedAt: Option<int>
    ghost var stops: seq<StopRun>

    ghost function Model(): Lifecycle
      reads this
    {
      Lifecycle(clock, maxWaitMs, cleanupTimeoutMs, pendingOperations, unfinished, isDraining, isStopping, drainedAt,
                deadlineTimer, pollTimer, cleanupTimer, stops, resolvedAt)
    }

    /** What holds in every run holds of the object between any two of its methods. */
    ghost predicate Valid()
      reads this
    {
      Inv(Model())
    }

    constructor (maxWaitMs: nat, cleanupTimeoutMs: nat, now: int)
      ensures Valid() && Model() == Fresh(now, maxWaitMs, cleanupTimeoutMs)
    {
      this.maxWaitMs, this.cleanupTimeoutMs := maxWaitMs, cleanupTimeoutMs;
      pendingOperations, unfinished, isDraining, isStopping := 0, {}, false, false;
      pollTimer, deadlineTimer, cleanupTimer, resolvedAt := None, None, None, None;
      clock, drainedAt, stops := now, None, [];
    }

    /** Time passes, but not beyond an armed timer. */
    ghost method Advance(to: int)
      requires Valid() && MayAdvance(Model(), to)
      modifies this`clock
      ensures Valid() && Model() == Step(old(Model()), Event.Advance(to))
    {
      InvStep(Model(), Event.Advance(to));
      clock := to;
    }

    method BeginOperation(token: Token) returns (admitted: bool)
      requires Valid() && token !in unfinished
      modifies this`pendingOperations, this`unfinished
      ensures Valid() && (admitted <==> !isStopping) && Model() == Begun(old(Model()), token)
      ensures pendingOperations == old(pendingOperations) + (if admitted then 1 else 0)
    {
      InvStep(Model(), Event.BeginOperation(token));
      if isStopping { return false; }
      pendingOperations := pendingOperations + 1;
      unfinished := unfinished + {token};
      return true;
    }

    /** The callback that beginOperation returned; it may be called again. */
    method Finish(token: Token)
      requires Valid()
      modifies this`pendingOperations, this`unfinished
      ensures Valid() && Model() == Ended(old(Model()), token)
      ensures pendingOperations == old(pendingOperations) - (if token in old(unfinished) then 1 else 0)
    {
      InvStep(Model(), FinishOperation(token));
      if token !in unfinished { return; }
      unfinished := unfinished - {token};
      pendingOperations := pendingOperations - 1;
    }

    method Drain(now: int)
      requires Valid() && now == clock
      modifies this
      ensures Valid() && Model() == Drained(old(Model()))
      ensures isDraining && (old(isDraining) ==> unchanged(this))
      ensures !old(isDraining) ==> pollTimer == Some(now + 100) && deadlineTimer == Some(now + maxWaitMs)
    {
      InvStep(Model(), StartDrain);
      if isDraining { return; }
      isDraining := true;
      drainedAt := Some(now);
      pollTimer := Some(now + POLL_MS);
      deadlineTimer := Some(now + maxWaitMs);
    }

    /** Called by the two timers of a drain only. */
    method Stop(forced: bool, resources: nat, now: int)
      requires Valid() && now == clock && isDraining
      requires if forced then deadlineTimer == Some(now) else pendingOperations == 0 && resources == 0
      modifies this
      ensures Valid() && Model() == Stopped(old(Model()), forced, resources)
      ensures isStopping && (old(isStopping) ==> unchanged(this))
      ensures !old(isStopping) ==> pollTimer == None && deadlineTimer == None && cleanupTimer == Some(now + cleanupTimeoutMs)
                                   && |stops| == |old(stops)| + 1 && stops[|old(stops)|].forced == forced
    {
      if isStopping { return; }
      isStopping := true;
      pollTimer := None;
      deadlineTimer := None;
      stops := stops + [StopRun(forced, now, if pendingOperations >= 0 then pendingOperations else 0, resources)];
      cleanupTimer := Some(now + cleanupTimeoutMs);
    }

    method OnPoll(resources: nat, now: int)
      requires Valid() && now == clock && pollTimer == Some(now)
      modifies this
      ensures Valid() && Model() == Step(old(Model()), PollFires(resources))
      ensures isStopping <==> old(isStopping) || (old(pendingOperations) == 0 && resources == 0)
      ensures if isStopping then stops == [StopRun(false, now, 0, 0)] && cleanupTimer == Some(now + cleanupTimeoutMs)
              else pollTimer == Some(now + 100) && deadlineTimer == old(deadlineTimer) && stops == old(stops)
    {
      if pendingOperations == 0 && resources == 0 {
        Stop(false, resources, now);
      } else {
        InvStep(Model(), PollFires(resources));
        pollTimer := Some(now + POLL_MS);
      }
    }

    method OnDeadline(resources: nat, now: int)
      requires Valid() && now == clock && deadlineTimer == Some(now)
      modifies this
      ensures Valid() && Model() == Step(old(Model()), DeadlineFires(resources))
      ensures isStopping && |stops| == 1 && stops[0].forced && stops[0].at == now
    {
      Stop(true, resources, now);
    }

    /** The race between the stop hook and the cleanup timeout is over. */
    method OnCleanup(now: int)
      requires Valid() && now == clock && cleanupTimer.Some?
      modifies this
      ensures Valid() && Model() == Completed(old(Model()))
      ensures cleanupTimer == None && resolvedAt == Some(now)
    {
      InvStep(Model(), CleanupSettles);
      cleanupTimer := None;
      resolvedAt := Some(now);
    }
  }
}
