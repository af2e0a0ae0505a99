// The action runner: attempts with a timeout each, a delay between them, and a limit on retries.
module Runner {
  import opened Types

  /** Durations are in nanoseconds, as in Go. Nothing stops a configuration from making any of these negative. */
  datatype ActionConfig = ActionConfig(retries: int, timeout: int, delay: int)

  /** What one call of the action's Do would do if nobody interrupted it: how long it takes, whether it
      returns nil, and whether its result wins if the context ends at the same instant. */
  datatype Attempt = Attempt(takes: nat, ok: bool, wins: bool)

  /** Everything outside the runner: when the parent context is cancelled, if ever, what each attempt
      (numbered from 1) does, whether a cancellation at the very instant of its timeout is noticed then, and
      whether a cancellation wins against the end of the delay after it. */
  datatype World = World(
    cancelAt: Option<int>, attempts: nat -> Attempt, cancelNoticed: nat -> bool, cancelWins: nat -> bool)

  /** What doAttempt's select receives. */
  datatype Received = GotNil | GotError | ContextDone(parentLive: bool)

  datatype RunError = NoError | RetryCountExceeded | ContextError

  datatype Outcome = Outcome(err: RunError, trace: seq<Received>, finish: int)

  function Pos(x: int): nat { if x < 0 then 0 else x }

  predicate Cancelled(w: World, t: int) {
    w.cancelAt.Some? && w.cancelAt.value <= t
  }

  /** When an attempt's own context ends: at its timeout, or earlier with the parent. */
  function ContextEnds(c: ActionConfig, w: World, now: int): int {
    var deadline := now + Pos(c.timeout);
    if Cancelled(w, deadline) then Larger(now, w.cancelAt.value) else deadline
  }

  function Larger(a: int, b: int): int { if a < b then b else a }

  function AttemptEnds(c: ActionConfig, w: World, n: nat, now: int): int {
    var a, ends := w.attempts(n), ContextEnds(c, w, now);
    if now + a.takes < ends || (now + a.takes == ends && a.wins) then now + a.takes else ends
  }

  function AttemptGives(c: ActionConfig, w: World, n: nat, now: int): Received {
    var a, ends := w.attempts(n), ContextEnds(c, w, now);
    if now + a.takes < ends || (now + a.takes == ends && a.wins) then (if a.ok then GotNil else GotError)
    else ContextDone(SeemsLive(c, w, n, now))
  }

  /** What the parent's state looks like when an attempt's context has ended. */
  predicate SeemsLive(c: ActionConfig, w: World, n: nat, now: int) {
    var deadline := now + Pos(c.timeout);
    !Cancelled(w, deadline) || (w.cancelAt.value == deadline && !w.cancelNoticed(n))
  }

  /** The attempt failed but the runner may go on. */
  predicate Failed(r: Received) {
    r.GotError? || r == ContextDone(true)
  }

  /** The parent context ends the delay that began at t. */
  predicate DelayCut(c: ActionConfig, w: World, n: nat, t: int) {
    w.cancelAt.Some? &&
    (w.cancelAt.value < t + Pos(c.delay) || (w.cancelAt.value == t + Pos(c.delay) && w.cancelWins(n)))
  }

  /** The attempts left from number n on. */
  function Left(c: ActionConfig, n: nat): int {
    Pos(c.retries) + 2 - n
  }

  /** The rest of a run that is about to make attempt n. */
  function RunFrom(c: ActionConfig, w: World, n: nat, now: int): Outcome
    requires 1 <= n <= Pos(c.retries) + 1
    decreases Left(c, n)
  {
    if Cancelled(w, now) then Outcome(ContextError, [], now) else
    var r, t := AttemptGives(c, w, n, now), AttemptEnds(c, w, n, now);
    if r == ContextDone(false) then Outcome(ContextError, [r], t)
    else if r.GotNil? then Outcome(NoError, [r], t)
    else if n > c.retries then Outcome(RetryCountExceeded, [r], t)
    else if DelayCut(c, w, n, t) then Outcome(ContextError, [r], Larger(t, w.cancelAt.value))
    else
      var rest := RunFrom(c, w, n + 1, t + Pos(c.delay));
      rest.(trace := [r] + rest.trace)
  }

  method DoAttempt(c: ActionConfig, w: World, n: nat, now: int) returns (r: Received, t: int)
    ensures r == AttemptGives(c, w, n, now) && t == AttemptEnds(c, w, n, now)
    ensures now <= t <= now + Pos(c.timeout)
    ensures w.cancelAt.None? ==> (r.GotNil? <==> Succeeds(c, w, n)) && t == now + Lasts(c, w, n)
    ensures w.cancelAt.Some? && now < w.cancelAt.value < now + Lasts(c, w, n) ==> r == ContextDone(false) && t == w.cancelAt.value
    ensures w.cancelAt.Some? && now + Lasts(c, w, n) < w.cancelAt.value ==> (r.GotNil? <==> Succeeds(c, w, n)) && t == now + Lasts(c, w, n)
  {
    var deadline := now + Pos(c.timeout);
    var ends := if w.cancelAt.Some? && w.cancelAt.value <= deadline then Larger(now, w.cancelAt.value) else deadline;
    var a := w.attempts(n);
    if now + a.takes < ends || (now + a.takes == ends && a.wins) {
      r, t := if a.ok then GotNil else GotError, now + a.takes;
    } else {
      var live := w.cancelAt.None? || w.cancelAt.value > deadline || (w.cancelAt.value == deadline && !w.cancelNoticed(n));
      r, t := ContextDone(live), ends;
    }
  }

  method Run(c: ActionConfig, w: World, start: int) returns (o: Outcome)
    ensures o == RunFrom(c, w, 1, start)
  {
    var attempt, now := 1, start;
    var trace := [];
    assert [] + RunFrom(c, w, 1, start).trace == RunFrom(c, w, 1, start).trace;
    while true
      invariant 1 <= attempt <= Pos(c.retries) + 1
      invariant Ahead(c, w, attempt, now, trace) == RunFrom(c, w, 1, start)
      decreases Left(c, attempt)
    {
      hide RunFrom, Ahead, AttemptGives, AttemptEnds;
      Onward(c, w, attempt, now, trace);
      if Cancelled(w, now) {
        return Outcome(ContextError, trace, now);
      }
      var r, t := DoAttempt(c, w, attempt, now);
      if r == ContextDone(false) {
        return Outcome(ContextError, trace + [r], t);
      }
      if r.GotNil? {
        return Outcome(NoError, trace + [r], t);
      }
      if attempt > c.retries {
        return Outcome(RetryCountExceeded, trace + [r], t);
      }
      if w.cancelAt.Some? &&
        (w.cancelAt.value < t + Pos(c.delay) || (w.cancelAt.value == t + Pos(c.delay) && w.cancelWins(attempt))) {
        return Outcome(ContextError, trace + [r], Larger(t, w.cancelAt.value));
      }
      attempt, now, trace := attempt + 1, t + Pos(c.delay), trace + [r];
    }
  }

  /** The whole run, if these attempts are behind it and it is about to make attempt n. */
  function Ahead(c: ActionConfig, w: World, n: nat, now: int, trace: seq<Received>): Outcome
    requires 1 <= n <= Pos(c.retries) + 1
  {
    var rest := RunFrom(c, w, n, now);
    rest.(trace := trace + rest.trace)
  }

  /** The run ends here, or goes on with one attempt more behind it. */
  lemma Onward(c: ActionConfig, w: World, n: nat, now: int, trace: seq<Received>)
    requires 1 <= n <= Pos(c.retries) + 1
    ensures
      var r, t, o := AttemptGives(c, w, n, now), AttemptEnds(c, w, n, now), Ahead(c, w, n, now, trace);
      if Cancelled(w, now) then o == Outcome(ContextError, trace, now)
      else if r == ContextDone(false) then o == Outcome(ContextError, trace + [r], t)
      else if r.GotNil? then o == Outcome(NoError, trace + [r], t)
      else if n > c.retries then o == Outcome(RetryCountExceeded, trace + [r], t)
      else if DelayCut(c, w, n, t) then o == Outcome(ContextError, trace + [r], Larger(t, w.cancelAt.value))
      else o == Ahead(c, w, n + 1, t + Pos(c.delay), trace + [r])
  {
    hide AttemptGives, AttemptEnds, DelayCut;
    if Cancelled(w, now) {
      assert trace + [] == trace;
    } else if n <= c.retries {
      var r := AttemptGives(c, w, n, now);
      var later := RunFrom(c, w, n + 1, AttemptEnds(c, w, n, now) + Pos(c.delay));
      assert trace + ([r] + later.trace) == trace + [r] + later.trace;
    }
  }

  // ---------------------------------------------------------------- how it ends

  /** A trace of failures, with at most a different last entry. */
  predicate FailsUntilLast(trace: seq<Received>) {
    forall k :: 0 <= k < |trace| - 1 ==> Failed(trace[k])
  }

  /** nil exactly when the last attempt gave nil, retry-exceeded exactly when every allowed attempt was made
      and failed, and otherwise the parent had been cancelled. */
  lemma {:induction false} RetryOutcome(c: ActionConfig, w: World, n: nat, now: int)
    requires 1 <= n <= Pos(c.retries) + 1
    ensures var o := RunFrom(c, w, n, now);
      && |o.trace| <= Left(c, n)
      && FailsUntilLast(o.trace)
      && (o.err.NoError? <==> o.trace != [] && o.trace[|o.trace| - 1].GotNil?)
      && (o.err.RetryCountExceeded? <==> |o.trace| == Left(c, n) && Failed(o.trace[|o.trace| - 1]))
      && (o.err.ContextError? ==> Cancelled(w, o.finish))
    decreases Left(c, n)
  {
    var r, t := AttemptGives(c, w, n, now), AttemptEnds(c, w, n, now);
    if !Cancelled(w, now) && Failed(r) && n <= c.retries && !DelayCut(c, w, n, t) {
      RetryOutcome(c, w, n + 1, t + Pos(c.delay));
    }
  }

  /** The attempts are numbered from n on, and each begins one delay after the one before it ended. */
  ghost predicate OnSchedule(c: ActionConfig, w: World, n: nat, trace: seq<Received>, starts: seq<int>) {
    && |starts| == |trace|
    && (forall k :: 0 <= k < |trace| ==> trace[k] == AttemptGives(c, w, n + k, starts[k]))
    && (forall k :: 0 <= k < |trace| - 1 ==> starts[k + 1] == AttemptEnds(c, w, n + k, starts[k]) + Pos(c.delay))
  }

  lemma PrependSchedule(c: ActionConfig, w: World, n: nat, now: int, trace: seq<Received>, starts: seq<int>)
    requires OnSchedule(c, w, n + 1, trace, starts)
    requires starts != [] ==> starts[0] == AttemptEnds(c, w, n, now) + Pos(c.delay)
    ensures OnSchedule(c, w, n, [AttemptGives(c, w, n, now)] + trace, [now] + starts)
  {
    hide AttemptGives, AttemptEnds, Pos;
    var ts, ss := [AttemptGives(c, w, n, now)] + trace, [now] + starts;
    forall k | 0 <= k < |ts| ensures ts[k] == AttemptGives(c, w, n + k, ss[k]) {
      if k > 0 { assert ts[k] == trace[k - 1] && n + k == n + 1 + (k - 1); }
    }
    forall k | 0 <= k < |ts| - 1 ensures ss[k + 1] == AttemptEnds(c, w, n + k, ss[k]) + Pos(c.delay) {
      if k > 0 { assert ss[k + 1] == starts[k] && n + k == n + 1 + (k - 1); }
    }
  }

  /** The attempts are on schedule, and none begins after a cancellation. */
  lemma {:induction false} AttemptSchedule(c: ActionConfig, w: World, n: nat, now: int) returns (starts: seq<int>)
    requires 1 <= n <= Pos(c.retries) + 1
    ensures OnSchedule(c, w, n, RunFrom(c, w, n, now).trace, starts)
    ensures starts != [] ==> starts[0] == now
    ensures forall k :: 0 <= k < |starts| ==> !Cancelled(w, starts[k])
    decreases Left(c, n)
  {
    hide OnSchedule;
    starts := [];
    var r, t := AttemptGives(c, w, n, now), AttemptEnds(c, w, n, now);
    var trace := [];
    if !Cancelled(w, now) && Failed(r) && n <= c.retries && !DelayCut(c, w, n, t) {
      starts := AttemptSchedule(c, w, n + 1, t + Pos(c.delay));
      trace := RunFrom(c, w, n + 1, t + Pos(c.delay)).trace;
    } else {
      NoSchedule(c, w, n + 1);
      NoSchedule(c, w, n);
    }
    if !Cancelled(w, now) {
      PrependSchedule(c, w, n, now, trace, starts);
      starts := [now] + starts;
      assert RunFrom(c, w, n, now).trace == [r] + trace;
    }
  }

  lemma NoSchedule(c: ActionConfig, w: World, n: nat)
    ensures OnSchedule(c, w, n, [], [])
  {
  }

  // ---------------------------------------------------------------- how it ends, in terms of the world alone

  /** The action's result arrives before its timeout. */
  predicate InTime(c: ActionConfig, a: Attempt) {
    a.takes < Pos(c.timeout) || (a.takes == Pos(c.timeout) && a.wins)
  }

  predicate Succeeds(c: ActionConfig, w: World, n: nat) {
    w.attempts(n).ok && InTime(c, w.attempts(n))
  }

  function Lasts(c: ActionConfig, w: World, n: nat): nat {
    if InTime(c, w.attempts(n)) then w.attempts(n).takes else Pos(c.timeout)
  }

  /** When attempt `last` ends if attempt n begins now and each waits for the one before it. */
  function EndOf(c: ActionConfig, w: World, n: nat, now: int, last: nat): int
    decreases last - n
  {
    if last <= n then now + Lasts(c, w, n) else EndOf(c, w, n + 1, now + Lasts(c, w, n) + Pos(c.delay), last)
  }

  lemma UndisturbedAttempt(c: ActionConfig, w: World, n: nat, now: int)
    requires w.cancelAt.None?
    ensures AttemptEnds(c, w, n, now) == now + Lasts(c, w, n)
    ensures AttemptGives(c, w, n, now).GotNil? <==> Succeeds(c, w, n)
    ensures !Succeeds(c, w, n) ==> Failed(AttemptGives(c, w, n, now))
  {
  }

  lemma {:induction false} UndisturbedFrom(c: ActionConfig, w: World, n: nat, now: int) returns (last: nat)
    requires w.cancelAt.None? && 1 <= n <= Pos(c.retries) + 1
    ensures n <= last <= Pos(c.retries) + 1
    ensures forall k :: n <= k < last ==> !Succeeds(c, w, k)
    ensures !Succeeds(c, w, last) ==> last == Pos(c.retries) + 1
    ensures var o := RunFrom(c, w, n, now);
      && o.err == (if Succeeds(c, w, last) then NoError else RetryCountExceeded)
      && |o.trace| == last - n + 1 && o.finish == EndOf(c, w, n, now, last)
    decreases Left(c, n)
  {
    hide AttemptGives, AttemptEnds, Succeeds, Lasts;
    UndisturbedAttempt(c, w, n, now);
    if Succeeds(c, w, n) || n > c.retries {
      last := n;
    } else {
      last := UndisturbedFrom(c, w, n + 1, now + Lasts(c, w, n) + Pos(c.delay));
    }
  }

  /** If nobody cancels, the run returns nil exactly when one of the allowed attempts succeeds in time, and
      retry-exceeded when none does; it ends with the first that does, or the last one allowed. */
  lemma UndisturbedOutcome(c: ActionConfig, w: World, start: int) returns (last: nat)
    requires w.cancelAt.None?
    ensures var o, most := RunFrom(c, w, 1, start), Pos(c.retries) + 1;
      && (o.err.NoError? <==> exists n :: 1 <= n <= most && Succeeds(c, w, n))
      && (o.err.RetryCountExceeded? <==> forall n :: 1 <= n <= most ==> !Succeeds(c, w, n))
      && 1 <= last <= most && (forall n :: 1 <= n < last ==> !Succeeds(c, w, n))
      && (if o.err.NoError? then Succeeds(c, w, last) else last == most)
      && |o.trace| == last && o.finish == EndOf(c, w, 1, start, last)
  {
    hide RunFrom, Succeeds, EndOf;
    last := UndisturbedFrom(c, w, 1, start);
  }

  /** The same world, if nobody cancelled. */
  function Undisturbed(w: World): World {
    w.(cancelAt := None)
  }

  /** A cancellation after an attempt's end comes too late for it, one before ends it at once. */
  lemma CancelledAttempt(c: ActionConfig, w: World, n: nat, now: int)
    requires w.cancelAt.Some? && now < w.cancelAt.value
    ensures var u, at, e := Undisturbed(w), w.cancelAt.value, now + Lasts(c, w, n);
      && AttemptEnds(c, u, n, now) == e <= now + Pos(c.timeout)
      && AttemptEnds(c, w, n, now) == (if at < e then at else e)
      && (e < at ==> AttemptGives(c, w, n, now) == AttemptGives(c, u, n, now))
      && (at < e ==> AttemptGives(c, w, n, now) == ContextDone(false))
      && (e == at && AttemptGives(c, w, n, now).GotNil? ==> AttemptGives(c, u, n, now).GotNil?)
  {
  }

  lemma {:induction false} CancelledFrom(c: ActionConfig, w: World, n: nat, now: int)
    requires w.cancelAt.Some? && 1 <= n <= Pos(c.retries) + 1
    ensures var o, f, at := RunFrom(c, w, n, now), RunFrom(c, Undisturbed(w), n, now), w.cancelAt.value;
      && now <= f.finish
      && (f.finish < at ==> o == f)
      && (at < f.finish ==> o.err.ContextError? && o.finish == Larger(now, at))
      && (at == f.finish ==> o.finish == at)
    decreases Left(c, n)
  {
    hide AttemptGives, AttemptEnds, Lasts;
    var u, at := Undisturbed(w), w.cancelAt.value;
    UndisturbedAttempt(c, u, n, now);
    FinishLater(c, u, n, now);
    if now < at {
      CancelledAttempt(c, w, n, now);
      var next := now + Lasts(c, w, n) + Pos(c.delay);
      if !Succeeds(c, u, n) && n <= c.retries {
        FinishLater(c, u, n + 1, next);
        CancelledFrom(c, w, n + 1, next);
      }
    }
  }

  lemma FinishLater(c: ActionConfig, w: World, n: nat, now: int)
    requires 1 <= n <= Pos(c.retries) + 1
    ensures now <= RunFrom(c, w, n, now).finish
  {
    RunTimeBound(c, w, n, now);
  }

  /** A cancellation that comes after the run would have ended changes nothing; one that comes before ends it
      at once, with a context error, whether an attempt or a delay is under way. */
  lemma CancellationExactly(c: ActionConfig, w: World, start: int)
    requires w.cancelAt.Some?
    ensures var o, f, at := RunFrom(c, w, 1, start), RunFrom(c, Undisturbed(w), 1, start), w.cancelAt.value;
      && (f.finish < at ==> o == f)
      && (at < f.finish ==> o.err.ContextError? && o.finish == Larger(start, at))
      && (at == f.finish ==> o.finish == at)
  {
    CancelledFrom(c, w, 1, start);
  }

  // ---------------------------------------------------------------- how long it takes

  /** Every allowed attempt runs into its timeout. */
  function Worst(c: ActionConfig): nat {
    (Pos(c.retries) + 1) * Pos(c.timeout) + Pos(c.retries) * Pos(c.delay)
  }

  lemma OneMore(k: int, d: nat)
    requires k >= 1
    ensures k * d == d + (k - 1) * d && (k - 1) * d >= 0
  {
  }

  lemma {:induction false} RunTimeBound(c: ActionConfig, w: World, n: nat, now: int)
    requires 1 <= n <= Pos(c.retries) + 1
    ensures var o := RunFrom(c, w, n, now);
      now <= o.finish <= now + Left(c, n) * Pos(c.timeout) + (Left(c, n) - 1) * Pos(c.delay)
    decreases Left(c, n)
  {
    var k, d, p := Left(c, n), Pos(c.timeout), Pos(c.delay);
    var r, t := AttemptGives(c, w, n, now), AttemptEnds(c, w, n, now);
    OneMore(k, d);
    OneMore(k, p);
    if k > 1 { OneMore(k - 1, p); }
    assert !Cancelled(w, now) ==> now <= t <= now + d;
    if !Cancelled(w, now) && Failed(r) && n <= c.retries && !DelayCut(c, w, n, t) {
      RunTimeBound(c, w, n + 1, t + p);
    }
  }

  /** A world in which every attempt hangs and nobody cancels. */
  function Hanging(c: ActionConfig): World {
    World(None, _ => Attempt(Pos(c.timeout), false, false), _ => false, _ => false)
  }

  lemma {:induction false} HangingTakesWorst(c: ActionConfig, n: nat, now: int)
    requires 1 <= n <= Pos(c.retries) + 1
    ensures RunFrom(c, Hanging(c), n, now).finish == now + Left(c, n) * Pos(c.timeout) + (Left(c, n) - 1) * Pos(c.delay)
    decreases Left(c, n)
  {
    var k, d, p := Left(c, n), Pos(c.timeout), Pos(c.delay);
    OneMore(k, d);
    if k > 1 { OneMore(k - 1, p); }
    assert AttemptGives(c, Hanging(c), n, now) == ContextDone(true) && AttemptEnds(c, Hanging(c), n, now) == now + d;
    if n <= c.retries {
      HangingTakesWorst(c, n + 1, now + d + p);
    }
  }

  ghost predicate CoversAllRuns(c: ActionConfig, limit: int) {
    forall w: World, start: int :: RunFrom(c, w, 1, start).finish - start <= limit
  }

  /** Exactly: a limit holds for every run of an action, whatever the world does, if and only if it is at
      least the worst case. */
  lemma RunTimeExact(c: ActionConfig, limit: int)
    ensures CoversAllRuns(c, limit) <==> Worst(c) <= limit
  {
    if Worst(c) <= limit {
      forall w: World, start: int ensures RunFrom(c, w, 1, start).finish - start <= limit {
        RunTimeBound(c, w, 1, start);
      }
    } else {
      HangingTakesWorst(c, 1, 0);
      assert RunFrom(c, Hanging(c), 1, 0).finish - 0 > limit;
    }
  }
}
