/** Collecting DTMF digits with re-armed timeouts (collectDtmf in src/media-session-service.ts): the
    closure variables as an object, proved against a specification on the timed trace of events. */
module DtmfGather {
  import opened Prelude

  datatype GatherResult = GatherResult(digits: string, reason: Reason)

  /** Request parameters; absent numbers take their defaults. */
  datatype Params = Params(endpoint: EndpointId, numDigits: Option<int>, timeoutMs: Option<int>,
                           interDigitTimeoutMs: Option<int>, terminator: Option<string>)

  /** The playback whose end re-arms the timer with its own delay. */
  datatype Reset = Reset(playback: EndpointId, timeoutMs: nat)

  datatype Config = Config(endpoint: EndpointId, numDigits: Option<nat>, timeoutMs: nat, interDigitMs: nat,
                           terminator: string, reset: Option<Reset>)

  /** Timing and count values must be positive. */
  function Resolve(p: Params, reset: Option<Reset>): Result<Config, ()> {
    if (p.numDigits.Some? && p.numDigits.value <= 0) || (p.timeoutMs.Some? && p.timeoutMs.value <= 0)
       || (p.interDigitTimeoutMs.Some? && p.interDigitTimeoutMs.value <= 0) then Err(())
    else
      var timeoutMs: nat := if p.timeoutMs.Some? then p.timeoutMs.value else 5000;
      Ok(Config(p.endpoint, if p.numDigits.Some? then Some(p.numDigits.value) else None, timeoutMs,
                if p.interDigitTimeoutMs.Some? then p.interDigitTimeoutMs.value else timeoutMs,
                if p.terminator.Some? then p.terminator.value else "#", reset))
  }

  datatype Input =
    | Dtmf(endpoint: Option<EndpointId>, digit: string)
    | PlaybackFinished(playback: Option<EndpointId>)
    | CancelAction
    | TimerFires

  datatype Stamped = Stamped(at: int, input: Input)

  // ----- the specification: what a trace says

  function UpperChar(c: char): char {
    if 'a' <= c <= 'z' then ((c as int) - 32) as char else c
  }

  function Upper(s: string): (r: string)
    ensures |r| == |s|
  {
    seq(|s|, i requires 0 <= i < |s| => UpperChar(s[i]))
  }

  /** Small letters become capital, the keys of a telephone stay. */
  lemma UpperKeys()
    ensures Upper("abcdefghijklmnopqrstuvwxyz") == "ABCDEFGHIJKLMNOPQRSTUVWXYZ" && Upper("0123456789*#ABCD") == "0123456789*#ABCD"
  {
  }

  /** A number that is given must be positive; the first digit has five seconds if nothing is said, the later ones have
      as long as the first, and `#` ends the input. */
  lemma ResolveDefaults(p: Params, reset: Option<Reset>)
    ensures Resolve(p, reset).Ok? <==> (p.numDigits.Some? ==> p.numDigits.value > 0) && (p.timeoutMs.Some? ==> p.timeoutMs.value > 0)
                                       && (p.interDigitTimeoutMs.Some? ==> p.interDigitTimeoutMs.value > 0)
    ensures Resolve(p, reset).Ok? ==>
              var cfg := Resolve(p, reset).value;
              && cfg.endpoint == p.endpoint && cfg.reset == reset
              && (p.timeoutMs == None ==> cfg.timeoutMs == 5000) && (p.timeoutMs.Some? ==> cfg.timeoutMs == p.timeoutMs.value)
              && (p.interDigitTimeoutMs == None ==> cfg.interDigitMs == cfg.timeoutMs)
              && (p.interDigitTimeoutMs.Some? ==> cfg.interDigitMs == p.interDigitTimeoutMs.value)
              && (p.terminator == None ==> cfg.terminator == "#") && (p.terminator.Some? ==> cfg.terminator == p.terminator.value)
              && (p.numDigits == None ==> cfg.numDigits == None) && (p.numDigits.Some? ==> cfg.numDigits == Some(p.numDigits.value as nat))
  {
  }

  /** `d` is a substring of `t`. */
  predicate Includes(t: string, d: string) {
    d <= t || (t != "" && Includes(t[1..], d))
  }

  lemma {:induction false} IncludesChar(t: string, c: char)
    ensures Includes(t, [c]) <==> c in t
    decreases |t|
  {
    if t != "" {
      IncludesChar(t[1..], c);
      assert t == [t[0]] + t[1..];
      assert [c] <= t <==> t[0] == c;
    }
  }

  lemma {:induction false} IncludesIff(t: string, d: string)
    ensures Includes(t, d) <==> exists i :: 0 <= i <= |t| && d <= t[i..]
    decreases |t|
  {
    assert t[0..] == t;
    if t == "" { return; }
    IncludesIff(t[1..], d);
    if i :| 0 <= i <= |t[1..]| && d <= t[1..][i..] {
      assert t[i + 1..] == t[1..][i..];
    }
    if i :| 0 < i <= |t| && d <= t[i..] {
      assert t[1..][i - 1..] == t[i..];
    }
  }

  predicate Concerns(cfg: Config, input: Input) {
    input.Dtmf? && input.endpoint == Some(cfg.endpoint) && input.digit != ""
  }

  predicate IsTerminator(cfg: Config, input: Input) {
    Concerns(cfg, input) && Includes(cfg.terminator, Upper(input.digit))
  }

  predicate IsDigit(cfg: Config, input: Input) {
    Concerns(cfg, input) && !Includes(cfg.terminator, Upper(input.digit))
  }

  /** The digits of the first n events, terminators left out. */
  function Accepted(cfg: Config, trace: seq<Stamped>, n: nat): string
    requires n <= |trace|
  {
    if n == 0 then ""
    else
      var before := Accepted(cfg, trace, n - 1);
      if IsDigit(cfg, trace[n - 1].input) then before + Upper(trace[n - 1].input.digit) else before
  }

  predicate Resets(cfg: Config, input: Input) {
    input.PlaybackFinished? && cfg.reset.Some? && input.playback == Some(cfg.reset.value.playback)
  }

  /** When the timer armed last in the first n events would fire. */
  function Deadline(cfg: Config, start: int, trace: seq<Stamped>, n: nat): int
    requires n <= |trace|
  {
    if n == 0 then start + cfg.timeoutMs
    else
      var last := trace[n - 1];
      if IsDigit(cfg, last.input) then last.at + cfg.interDigitMs
      else if Resets(cfg, last.input) && Accepted(cfg, trace, n - 1) == "" then last.at + cfg.reset.value.timeoutMs
      else Deadline(cfg, start, trace, n - 1)
  }

  /** Whether event i, coming to an unfinished gather, ends it, and why. */
  function Ends(cfg: Config, trace: seq<Stamped>, i: nat): Option<Reason>
    requires i < |trace|
  {
    var input := trace[i].input;
    match input
    case CancelAction => Some(Cancelled)
    case TimerFires => Some(Timeout)
    case PlaybackFinished(_) => None
    case Dtmf(_, digit) =>
      if IsTerminator(cfg, input) then Some(Terminator)
      else if IsDigit(cfg, input) && cfg.numDigits.Some? && cfg.numDigits.value > 0
              && |Accepted(cfg, trace, i)| + |digit| >= cfg.numDigits.value then Some(Digits)
      else None
  }

  /** Event k is the first that ends the gather. */
  ghost predicate FirstEnd(cfg: Config, trace: seq<Stamped>, k: nat) {
    && k < |trace| && Ends(cfg, trace, k).Some?
    && forall j :: 0 <= j < k ==> Ends(cfg, trace, j).None?
  }

  /** The result after the first n events, if there is one. */
  function Outcome(cfg: Config, trace: seq<Stamped>, n: nat): Option<GatherResult>
    requires n <= |trace|
  {
    if n == 0 then None
    else if Outcome(cfg, trace, n - 1).Some? then Outcome(cfg, trace, n - 1)
    else if Ends(cfg, trace, n - 1).Some? then Some(GatherResult(Accepted(cfg, trace, n), Ends(cfg, trace, n - 1).value))
    else None
  }

  /** What the first n events say does not depend on later ones. */
  lemma {:induction false} Causal(cfg: Config, start: int, trace: seq<Stamped>, more: seq<Stamped>, n: nat)
    requires n <= |trace|
    ensures Accepted(cfg, trace + more, n) == Accepted(cfg, trace, n)
    ensures Deadline(cfg, start, trace + more, n) == Deadline(cfg, start, trace, n)
    ensures Outcome(cfg, trace + more, n) == Outcome(cfg, trace, n)
    decreases n
  {
    if n > 0 {
      Causal(cfg, start, trace, more, n - 1);
      assert (trace + more)[n - 1] == trace[n - 1];
    }
  }

  // ----- which digits, and in which order

  /** What was collected stays in front of what is collected later. */
  lemma {:induction false} AcceptedGrows(cfg: Config, trace: seq<Stamped>, n: nat, m: nat)
    requires n <= m <= |trace|
    ensures Accepted(cfg, trace, n) <= Accepted(cfg, trace, m)
    decreases m
  {
    if n < m { AcceptedGrows(cfg, trace, n, m - 1); }
  }

  /** How many of the first n events are digits. */
  function DigitEvents(cfg: Config, trace: seq<Stamped>, n: nat): nat
    requires n <= |trace|
  {
    if n == 0 then 0 else DigitEvents(cfg, trace, n - 1) + if IsDigit(cfg, trace[n - 1].input) then 1 else 0
  }

  predicate SingleDigits(cfg: Config, trace: seq<Stamped>, n: nat)
    requires n <= |trace|
  {
    forall i :: 0 <= i < n && IsDigit(cfg, trace[i].input) ==> |trace[i].input.digit| == 1
  }

  lemma {:induction false} OneCharacterEach(cfg: Config, trace: seq<Stamped>, n: nat)
    requires n <= |trace| && SingleDigits(cfg, trace, n)
    ensures |Accepted(cfg, trace, n)| == DigitEvents(cfg, trace, n)
    decreases n
  {
    if n > 0 { OneCharacterEach(cfg, trace, n - 1); }
  }

  /** Each digit event stands right behind the digits that were collected before it. */
  lemma DigitStandsBehind(cfg: Config, trace: seq<Stamped>, i: nat, n: nat)
    requires i < n <= |trace| && IsDigit(cfg, trace[i].input)
    ensures var from := |Accepted(cfg, trace, i)|;
            && from + |trace[i].input.digit| <= |Accepted(cfg, trace, n)|
            && Accepted(cfg, trace, n)[from..from + |trace[i].input.digit|] == Upper(trace[i].input.digit)
  {
    AcceptedGrows(cfg, trace, i + 1, n);
    var before, upper, all := Accepted(cfg, trace, i), Upper(trace[i].input.digit), Accepted(cfg, trace, n);
    assert before + upper <= all;
    assert all[..|before + upper|] == before + upper;
    assert all[|before|..|before + upper|] == all[..|before + upper|][|before|..];
  }

  /** With one-character digits the result has a character for each digit event up to the end, in their order: the
      event with k digit events before it gives character k, as a capital. */
  lemma ResultSpellsDigits(cfg: Config, trace: seq<Stamped>, k: nat, i: nat)
    requires FirstEnd(cfg, trace, k) && SingleDigits(cfg, trace, k + 1)
    requires i <= k && IsDigit(cfg, trace[i].input)
    ensures Outcome(cfg, trace, |trace|).Some?
    ensures var digits := Outcome(cfg, trace, |trace|).value.digits;
            && |digits| == DigitEvents(cfg, trace, k + 1) && DigitEvents(cfg, trace, i) < |digits|
            && digits[DigitEvents(cfg, trace, i)] == UpperChar(trace[i].input.digit[0])
  {
    ResolvedByFirstEnd(cfg, trace, k, |trace|);
    OneCharacterEach(cfg, trace, k + 1);
    OneCharacterEach(cfg, trace, i);
    DigitStandsBehind(cfg, trace, i, k + 1);
    var digits, from := Accepted(cfg, trace, k + 1), |Accepted(cfg, trace, i)|;
    assert digits[from] == digits[from..from + 1][0] == Upper(trace[i].input.digit)[0];
  }

  // ----- what the specification says

  lemma {:induction false} UnresolvedWithoutEnd(cfg: Config, trace: seq<Stamped>, n: nat)
    requires n <= |trace|
    ensures (forall j :: 0 <= j < n ==> Ends(cfg, trace, j).None?) <==> Outcome(cfg, trace, n).None?
    decreases n
  {
    if n > 0 {
      UnresolvedWithoutEnd(cfg, trace, n - 1);
    }
  }

  /** The gather is resolved exactly by the first ending event: with the digits up to and including it
      and its reason, and not before. */
  lemma {:induction false} ResolvedByFirstEnd(cfg: Config, trace: seq<Stamped>, k: nat, n: nat)
    requires FirstEnd(cfg, trace, k) && n <= |trace|
    ensures Outcome(cfg, trace, n)
         == if n <= k then None else Some(GatherResult(Accepted(cfg, trace, k + 1), Ends(cfg, trace, k).value))
    decreases n
  {
    if n <= k + 1 {
      UnresolvedWithoutEnd(cfg, trace, if n <= k then n else k);
    } else {
      ResolvedByFirstEnd(cfg, trace, k, n - 1);
    }
  }

  /** A gather resolves once: no later event changes its result. */
  lemma {:induction false} ResolvesOnce(cfg: Config, trace: seq<Stamped>, more: seq<Stamped>)
    requires Outcome(cfg, trace, |trace|).Some?
    ensures Outcome(cfg, trace + more, |trace + more|) == Outcome(cfg, trace, |trace|)
    decreases |more|
  {
    if more == [] {
      assert trace + more == trace;
    } else {
      var init, all := more[..|more| - 1], trace + more;
      ResolvesOnce(cfg, trace, init);
      assert all == (trace + init) + [more[|more| - 1]];
      Causal(cfg, 0, trace + init, [more[|more| - 1]], |trace + init|);
    }
  }

  lemma {:induction false} EndOf(cfg: Config, trace: seq<Stamped>, n: nat) returns (k: nat)
    requires n <= |trace| && Outcome(cfg, trace, n).Some?
    ensures FirstEnd(cfg, trace, k) && k < n
    decreases n
  {
    if Outcome(cfg, trace, n - 1).Some? {
      k := EndOf(cfg, trace, n - 1);
    } else {
      k := n - 1;
      UnresolvedWithoutEnd(cfg, trace, n - 1);
    }
  }

  lemma {:induction false} UnresolvedIsShort(cfg: Config, trace: seq<Stamped>, n: nat)
    requires n <= |trace| && Outcome(cfg, trace, n).None? && cfg.numDigits.Some? && cfg.numDigits.value > 0
    ensures |Accepted(cfg, trace, n)| < cfg.numDigits.value
    decreases n
  {
    if n > 0 {
      UnresolvedIsShort(cfg, trace, n - 1);
    }
  }

  /** The reason is `digits` exactly when the requested number of digits was reached. */
  lemma DigitsReasonIffEnough(cfg: Config, trace: seq<Stamped>, n: nat)
    requires n <= |trace| && Outcome(cfg, trace, n).Some? && (cfg.numDigits.Some? ==> cfg.numDigits.value > 0)
    ensures var r := Outcome(cfg, trace, n).value;
            r.reason == Digits <==> cfg.numDigits.Some? && |r.digits| >= cfg.numDigits.value
  {
    var k := EndOf(cfg, trace, n);
    ResolvedByFirstEnd(cfg, trace, k, n);
    UnresolvedWithoutEnd(cfg, trace, k);
    if cfg.numDigits.Some? {
      UnresolvedIsShort(cfg, trace, k);
    }
  }

  /** The result names the end: the terminator of its endpoint, a cancellation, the timer, or a digit. */
  lemma ReasonIsTheEnd(cfg: Config, trace: seq<Stamped>, k: nat)
    requires FirstEnd(cfg, trace, k)
    ensures Outcome(cfg, trace, |trace|).Some?
    ensures var reason, input := Outcome(cfg, trace, |trace|).value.reason, trace[k].input;
            && (reason == Cancelled <==> input.CancelAction?) && (reason == Timeout <==> input.TimerFires?)
            && (reason == Terminator <==> input.Dtmf? && input.endpoint == Some(cfg.endpoint) && input.digit != ""
                                          && Includes(cfg.terminator, Upper(input.digit)))
            && (reason == Terminator || reason == Cancelled || reason == Timeout ==>
                  Outcome(cfg, trace, |trace|).value.digits == Accepted(cfg, trace, k))
  {
    ResolvedByFirstEnd(cfg, trace, k, |trace|);
  }

  predicate Avoids(s: string, terminator: string) {
    forall c | c in s :: c !in terminator
  }

  /** Event i, if it is a digit, brings no terminator character along. */
  predicate CleanDigit(cfg: Config, trace: seq<Stamped>, i: nat)
    requires i < |trace|
  {
    IsDigit(cfg, trace[i].input) ==> Avoids(Upper(trace[i].input.digit), cfg.terminator)
  }

  lemma {:induction false} AcceptedAvoids(cfg: Config, trace: seq<Stamped>, n: nat)
    requires n <= |trace|
    ensures Avoids(Accepted(cfg, trace, n), cfg.terminator) <==> forall i :: 0 <= i < n ==> CleanDigit(cfg, trace, i)
    decreases n
  {
    if n == 0 { return; }
    AcceptedAvoids(cfg, trace, n - 1);
    var before, last := Accepted(cfg, trace, n - 1), trace[n - 1].input;
    if IsDigit(cfg, last) {
      assert forall c :: c in before + Upper(last.digit) <==> c in before || c in Upper(last.digit);
    }
    assert (forall i :: 0 <= i < n ==> CleanDigit(cfg, trace, i))
      <==> (forall i :: 0 <= i < n - 1 ==> CleanDigit(cfg, trace, i)) && CleanDigit(cfg, trace, n - 1);
  }

  /** The result holds no terminator character exactly when no accepted digit event brought one along. */
  lemma TerminatorFreeIff(cfg: Config, trace: seq<Stamped>, k: nat)
    requires FirstEnd(cfg, trace, k)
    ensures Outcome(cfg, trace, |trace|).Some?
    ensures Avoids(Outcome(cfg, trace, |trace|).value.digits, cfg.terminator)
       <==> forall i :: 0 <= i <= k ==> CleanDigit(cfg, trace, i)
  {
    ResolvedByFirstEnd(cfg, trace, k, |trace|);
    AcceptedAvoids(cfg, trace, k + 1);
  }

  /** One-character digits never do, so with those the result is always free of terminators. */
  lemma SingleDigitIsClean(cfg: Config, trace: seq<Stamped>, i: nat)
    requires i < |trace| && (trace[i].input.Dtmf? ==> |trace[i].input.digit| <= 1)
    ensures CleanDigit(cfg, trace, i)
  {
    if IsDigit(cfg, trace[i].input) {
      var d := Upper(trace[i].input.digit);
      assert d == [d[0]];
      IncludesChar(cfg.terminator, d[0]);
    }
  }

  /** A digit of several characters is compared as a whole, so it can carry a terminator in. */
  lemma LongDigitCarriesTerminator()
    ensures var cfg := Config(0, Some(2), 5000, 5000, "#", None);
            Outcome(cfg, [Stamped(0, Dtmf(Some(0), "1#"))], 1) == Some(GatherResult("1#", Digits))
  {
    var cfg := Config(0, Some(2), 5000, 5000, "#", None);
    var trace := [Stamped(0, Dtmf(Some(0), "1#"))];
    assert Upper("1#") == "1#";
    assert !Includes("#", "1#");
    assert Accepted(cfg, trace, 0) == "";
    assert Accepted(cfg, trace, 1) == "1#";
  }

  // ----- time

  predicate Punctual(cfg: Config, start: int, trace: seq<Stamped>, i: nat)
    requires i < |trace|
  {
    var deadline := Deadline(cfg, start, trace, i);
    trace[i].at <= deadline && (trace[i].input.TimerFires? ==> trace[i].at == deadline)
  }

  /** Timers are punctual: nothing happens after an armed deadline, and the timer fires on it. */
  ghost predicate WellTimed(cfg: Config, start: int, trace: seq<Stamped>) {
    && (forall i, j :: 0 <= i <= j < |trace| ==> start <= trace[i].at <= trace[j].at)
    && (forall i {:trigger Punctual(cfg, start, trace, i)} ::
          0 <= i < |trace| && Outcome(cfg, trace, i).None? ==> Punctual(cfg, start, trace, i))
  }

  /** Event f brought the first digit. */
  ghost predicate FirstDigitAt(cfg: Config, trace: seq<Stamped>, f: nat) {
    f < |trace| && Accepted(cfg, trace, f) == "" && IsDigit(cfg, trace[f].input)
  }

  /** The inter-digit delays that the digits of the first n events may add up to. */
  function Allowance(cfg: Config, trace: seq<Stamped>, n: nat): nat
    requires n <= |trace|
  {
    if n == 0 then 0
    else Allowance(cfg, trace, n - 1) + if IsDigit(cfg, trace[n - 1].input) then cfg.interDigitMs else 0
  }

  lemma {:induction false} AllowanceBound(cfg: Config, trace: seq<Stamped>, n: nat)
    requires n <= |trace|
    ensures Allowance(cfg, trace, n) <= |Accepted(cfg, trace, n)| * cfg.interDigitMs
    decreases n
  {
    if n > 0 {
      AllowanceBound(cfg, trace, n - 1);
      if IsDigit(cfg, trace[n - 1].input) {
        Times(|Accepted(cfg, trace, n - 1)| + 1, |Accepted(cfg, trace, n)|, cfg.interDigitMs);
      }
    }
  }

  lemma Times(a: nat, b: nat, d: nat)
    requires a <= b
    ensures a * d <= b * d && (a + 1) * d == a * d + d && (a > 0 ==> a * d == (a - 1) * d + d)
  {
  }

  lemma OneEvent(cfg: Config, start: int, trace: seq<Stamped>, i: nat)
    requires i < |trace| && Punctual(cfg, start, trace, i)
    ensures IsDigit(cfg, trace[i].input) || Accepted(cfg, trace, i) != "" ==>
              && Accepted(cfg, trace, i + 1) != ""
              && Deadline(cfg, start, trace, i + 1) + Allowance(cfg, trace, i)
                 <= Deadline(cfg, start, trace, i) + Allowance(cfg, trace, i + 1)
  {
  }

  lemma {:induction false} DeadlineGrowsByDigits(cfg: Config, start: int, trace: seq<Stamped>, f: nat, n: nat)
    requires f < n <= |trace| && FirstDigitAt(cfg, trace, f)
    requires forall i {:trigger Punctual(cfg, start, trace, i)} :: f <= i < n ==> Punctual(cfg, start, trace, i)
    ensures Accepted(cfg, trace, n) != ""
    ensures Deadline(cfg, start, trace, n) <= Deadline(cfg, start, trace, f) + Allowance(cfg, trace, n)
    decreases n
  {
    assert Punctual(cfg, start, trace, n - 1);
    OneEvent(cfg, start, trace, n - 1);
    if n > f + 1 {
      DeadlineGrowsByDigits(cfg, start, trace, f, n - 1);
    }
  }

  /** An n-digit gather ends at the latest (n - 1) inter-digit delays after the deadline that was armed
      when its first digit came, and by its deadline when no digit comes. */
  lemma GatherEndsInTime(cfg: Config, start: int, trace: seq<Stamped>, k: nat, f: nat)
    requires WellTimed(cfg, start, trace) && FirstEnd(cfg, trace, k) && cfg.numDigits.Some? && cfg.numDigits.value > 0
    ensures trace[k].at <= Deadline(cfg, start, trace, k)
    ensures FirstDigitAt(cfg, trace, f) && f <= k ==>
              trace[k].at <= Deadline(cfg, start, trace, f) + (cfg.numDigits.value - 1) * cfg.interDigitMs
  {
    forall i | 0 <= i <= k
      ensures Punctual(cfg, start, trace, i)
    {
      UnresolvedWithoutEnd(cfg, trace, i);
    }
    assert Punctual(cfg, start, trace, k);
    UnresolvedWithoutEnd(cfg, trace, k);
    var n := cfg.numDigits.value;
    Times(0, n - 1, cfg.interDigitMs);
    if FirstDigitAt(cfg, trace, f) && f < k {
      DeadlineGrowsByDigits(cfg, start, trace, f, k);
      UnresolvedIsShort(cfg, trace, k);
      AllowanceBound(cfg, trace, k);
      Times(|Accepted(cfg, trace, k)|, n - 1, cfg.interDigitMs);
    }
  }

  /** No digit came between event j and event n. */
  predicate NoDigit(cfg: Config, trace: seq<Stamped>, j: int, n: nat)
    requires n <= |trace|
  {
    forall i :: j < i < n && 0 <= i ==> !IsDigit(cfg, trace[i].input)
  }

  predicate NoReset(cfg: Config, trace: seq<Stamped>, j: int, n: nat)
    requires n <= |trace|
  {
    forall i :: j < i < n && 0 <= i ==> !Resets(cfg, trace[i].input)
  }

  predicate LastDigit(cfg: Config, trace: seq<Stamped>, j: int, n: nat)
    requires n <= |trace|
  {
    0 <= j < n && IsDigit(cfg, trace[j].input) && NoDigit(cfg, trace, j, n)
  }

  predicate LastReset(cfg: Config, trace: seq<Stamped>, j: int, n: nat)
    requires n <= |trace|
  {
    0 <= j < n && Resets(cfg, trace[j].input) && NoReset(cfg, trace, j, n)
  }

  /** The moment t is one delay after what armed the timer last: the last digit; before any digit the last end of the
      prompt; and before that the start. */
  ghost predicate ArmedAt(cfg: Config, start: int, trace: seq<Stamped>, n: nat, t: int)
    requires n <= |trace|
  {
    || (exists j :: LastDigit(cfg, trace, j, n) && t == trace[j].at + cfg.interDigitMs)
    || (NoDigit(cfg, trace, -1, n) && cfg.reset.Some?
        && exists j :: LastReset(cfg, trace, j, n) && t == trace[j].at + cfg.reset.value.timeoutMs)
    || (NoDigit(cfg, trace, -1, n) && NoReset(cfg, trace, -1, n) && t == start + cfg.timeoutMs)
  }

  lemma {:induction false} EmptyIffNoDigit(cfg: Config, trace: seq<Stamped>, n: nat)
    requires n <= |trace|
    ensures Accepted(cfg, trace, n) == "" <==> NoDigit(cfg, trace, -1, n)
    decreases n
  {
    if n == 0 { return; }
    EmptyIffNoDigit(cfg, trace, n - 1);
    assert NoDigit(cfg, trace, -1, n) <==> NoDigit(cfg, trace, -1, n - 1) && !IsDigit(cfg, trace[n - 1].input);
  }

  lemma {:induction false} DeadlineIsArmed(cfg: Config, start: int, trace: seq<Stamped>, n: nat)
    requires n <= |trace|
    ensures ArmedAt(cfg, start, trace, n, Deadline(cfg, start, trace, n))
    decreases n
  {
    if n == 0 { return; }
    EmptyIffNoDigit(cfg, trace, n - 1);
    var last := trace[n - 1];
    if IsDigit(cfg, last.input) {
      assert LastDigit(cfg, trace, n - 1, n);
      return;
    }
    if Resets(cfg, last.input) && Accepted(cfg, trace, n - 1) == "" {
      assert LastReset(cfg, trace, n - 1, n);
      return;
    }
    DeadlineIsArmed(cfg, start, trace, n - 1);
    StaysArmed(cfg, start, trace, n, Deadline(cfg, start, trace, n - 1));
  }

  lemma StaysArmed(cfg: Config, start: int, trace: seq<Stamped>, n: nat, t: int)
    requires 0 < n <= |trace| && ArmedAt(cfg, start, trace, n - 1, t)
    requires !IsDigit(cfg, trace[n - 1].input) && (Resets(cfg, trace[n - 1].input) ==> !NoDigit(cfg, trace, -1, n - 1))
    ensures ArmedAt(cfg, start, trace, n, t)
  {
    if j :| LastDigit(cfg, trace, j, n - 1) && t == trace[j].at + cfg.interDigitMs {
      assert LastDigit(cfg, trace, j, n);
      return;
    }
    assert NoDigit(cfg, trace, -1, n);
    if cfg.reset.Some? {
      if j :| LastReset(cfg, trace, j, n - 1) && t == trace[j].at + cfg.reset.value.timeoutMs {
        assert LastReset(cfg, trace, j, n);
        return;
      }
    }
    assert NoReset(cfg, trace, -1, n);
  }

  /** A gather times out neither early nor late: one delay after the last digit, or without a digit after the end of
      the prompt, or else after the start. */
  lemma TimeoutIsSilence(cfg: Config, start: int, trace: seq<Stamped>, k: nat)
    requires WellTimed(cfg, start, trace) && FirstEnd(cfg, trace, k) && trace[k].input.TimerFires?
    ensures ArmedAt(cfg, start, trace, k, trace[k].at)
  {
    UnresolvedWithoutEnd(cfg, trace, k);
    assert Punctual(cfg, start, trace, k);
    DeadlineIsArmed(cfg, start, trace, k);
  }

  // ----- the running gather

  class GatherRun {
    const cfg: Config
    const start: int
    var digits: string
    var timer: Option<int>
    var finished: bool
    var firstDigit: bool
    var result: Option<GatherResult>
    /** How often the first-digit hook ran. */
    var playbackStops: nat
    ghost var seen: seq<Stamped>

    /** The closure variables say about the events seen what the specification says. */
    ghost predicate Valid()
      reads this
    {
      && result == Outcome(cfg, seen, |seen|) && (finished <==> result.Some?)
      && (!finished ==>
            && digits == Accepted(cfg, seen, |seen|) && timer == Some(Deadline(cfg, start, seen, |seen|))
            && (firstDigit <==> digits == ""))
      && (finished ==> timer == None && result.value.digits == digits)
      && playbackStops == if digits == "" then 0 else 1
    }

    constructor (cfg: Config, now: int)
      ensures Valid() && seen == [] && this.cfg == cfg && start == now
    {
      this.cfg, this.start := cfg, now;
      digits, finished, firstDigit, result, playbackStops := "", false, true, None, 0;
      timer := Some(now + cfg.timeoutMs);
      seen := [];
    }

    method Finish(reason: Reason)
      modifies this`finished, this`timer, this`result
      ensures if old(finished) then unchanged(this)
              else finished && timer == None && result == Some(GatherResult(digits, reason))
    {
      if finished { return; }
      finished := true;
      timer := None;
      result := Some(GatherResult(digits, reason));
    }

    method OnTimeoutReset(playback: Option<EndpointId>, now: int)
      requires Valid()
      modifies this
      ensures Valid() && seen == old(seen) + [Stamped(now, PlaybackFinished(playback))]
      ensures timer == if !old(finished) && digits == "" && cfg.reset.Some? && playback == Some(cfg.reset.value.playback)
                       then Some(now + cfg.reset.value.timeoutMs) else old(timer)
      ensures digits == old(digits) && result == old(result)
    {
      seen := seen + [Stamped(now, PlaybackFinished(playback))];
      Causal(cfg, start, old(seen), seen[|seen| - 1..], |old(seen)|);
      if finished || digits != "" || cfg.reset.None? || playback != Some(cfg.reset.value.playback) { return; }
      timer := Some(now + cfg.reset.value.timeoutMs);
    }

    method OnDtmf(endpoint: Option<EndpointId>, rawDigit: string, now: int)
      requires Valid()
      modifies this
      ensures Valid() && seen == old(seen) + [Stamped(now, Dtmf(endpoint, rawDigit))]
      ensures if old(finished) || endpoint != Some(cfg.endpoint) || rawDigit == ""
              then digits == old(digits) && result == old(result) && timer == old(timer)
              else if Includes(cfg.terminator, Upper(rawDigit))
                then digits == old(digits) && result == Some(GatherResult(digits, Terminator))
                else
                  && digits == old(digits) + Upper(rawDigit)
                  && (if cfg.numDigits.Some? && cfg.numDigits.value > 0 && |digits| >= cfg.numDigits.value
                      then result == Some(GatherResult(digits, Digits)) else result == None && timer == Some(now + cfg.interDigitMs))
    {
      seen := seen + [Stamped(now, Dtmf(endpoint, rawDigit))];
      Causal(cfg, start, old(seen), seen[|seen| - 1..], |old(seen)|);
      if finished || endpoint != Some(cfg.endpoint) || rawDigit == "" { return; }
      var digit := Upper(rawDigit);
      if Includes(cfg.terminator, digit) {
        Finish(Terminator);
        return;
      }
      digits := digits + digit;
      if firstDigit {
        firstDigit := false;
        playbackStops := playbackStops + 1;
      }
      if cfg.numDigits.Some? && cfg.numDigits.value > 0 && |digits| >= cfg.numDigits.value {
        Finish(Digits);
        return;
      }
      timer := Some(now + cfg.interDigitMs);
    }

    method Cancel(now: int)
      requires Valid()
      modifies this
      ensures Valid() && seen == old(seen) + [Stamped(now, CancelAction)]
      ensures result == if old(finished) then old(result) else Some(GatherResult(old(digits), Cancelled))
    {
      seen := seen + [Stamped(now, CancelAction)];
      Causal(cfg, start, old(seen), seen[|seen| - 1..], |old(seen)|);
      Finish(Cancelled);
    }

    method OnTimer(now: int)
      requires Valid()
      modifies this
      ensures Valid() && seen == old(seen) + [Stamped(now, TimerFires)]
      ensures result == if old(finished) then old(result) else Some(GatherResult(old(digits), Timeout))
    {
      seen := seen + [Stamped(now, TimerFires)];
      Causal(cfg, start, old(seen), seen[|seen| - 1..], |old(seen)|);
      Finish(Timeout);
    }
  }
}
