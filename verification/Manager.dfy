// The lifecycle manager: which actions exist, and the delay that is meant to cover any one of them.
module Managers {
  import opened Types
  import opened Runner

  /** time.Duration and int are 64 bits wide: results wrap around. */
  const TWO_63 := 0x8000_0000_0000_0000
  const MILLISECOND := 1_000_000

  function Wrap64(x: int): int {
    (x + TWO_63) % (2 * TWO_63) - TWO_63
  }

  /** What MaxDelay computes for one action. */
  function DelayOf(c: ActionConfig): int {
    Wrap64(Wrap64(c.delay + c.timeout) * Wrap64(c.retries + 1))
  }

  /** The three actions of a container's lifecycle. */
  datatype ActionKind = Initialize | Healthcheck | Reset

  /** What asking for one gives. */
  datatype ActionResult = NotConfigured | Ran(o: Outcome)

  class Manager {
    const initialize: Option<ActionConfig>
    const healthcheck: Option<ActionConfig>
    const reset: Option<ActionConfig>

    constructor (initialize: Option<ActionConfig>, healthcheck: Option<ActionConfig>, reset: Option<ActionConfig>)
      ensures this.initialize == initialize && this.healthcheck == healthcheck && this.reset == reset
    {
      this.initialize, this.healthcheck, this.reset := initialize, healthcheck, reset;
    }

    predicate Configured(c: ActionConfig) {
      initialize == Some(c) || healthcheck == Some(c) || reset == Some(c)
    }

    /** The largest of the configured actions' delays, or zero if none is larger. */
    ghost predicate IsMaxDelay(max: int) {
      && max >= 0
      && (forall c :: Configured(c) ==> DelayOf(c) <= max)
      && (max == 0 || exists c :: Configured(c) && DelayOf(c) == max)
    }

    method Actions() returns (actions: seq<ActionConfig>)
      ensures forall c :: c in actions <==> Configured(c)
    {
      actions := [];
      if initialize.Some? { actions := actions + [initialize.value]; }
      if healthcheck.Some? { actions := actions + [healthcheck.value]; }
      if reset.Some? { actions := actions + [reset.value]; }
    }

    method MaxDelay() returns (max: int)
      ensures IsMaxDelay(max)
    {
      hide Wrap64;
      var actions := Actions();
      max := 0;
      for k := 0 to |actions|
        invariant max >= 0
        invariant forall j :: 0 <= j < k ==> DelayOf(actions[j]) <= max
        invariant max == 0 || exists c :: Configured(c) && DelayOf(c) == max
      {
        var val := Wrap64(Wrap64(actions[k].delay + actions[k].timeout) * Wrap64(actions[k].retries + 1));
        if val > max {
          assert actions[k] in actions;
          max := val;
        }
      }
      forall c | Configured(c) ensures DelayOf(c) <= max {
        assert c in actions;
      }
    }

    /** How long Checkout waits unless told otherwise. */
    method DefaultCheckoutTimeout() returns (timeout: int)
      ensures exists max :: IsMaxDelay(max) && timeout == Wrap64(max + 500 * MILLISECOND)
    {
      var max := MaxDelay();
      timeout := Wrap64(max + 500 * MILLISECOND);
    }

    function ActionOf(kind: ActionKind): Option<ActionConfig> {
      match kind
      case Initialize => initialize
      case Healthcheck => healthcheck
      case Reset => reset
    }

    /** DoInitialize, DoHealthcheck and DoReset: the action of that kind runs if there is one. */
    method Do(kind: ActionKind, w: World, start: int) returns (r: ActionResult)
      ensures r.NotConfigured? <==> ActionOf(kind).None?
      ensures kind.Initialize? && initialize.Some? ==> r == Ran(RunFrom(initialize.value, w, 1, start))
      ensures kind.Healthcheck? && healthcheck.Some? ==> r == Ran(RunFrom(healthcheck.value, w, 1, start))
      ensures kind.Reset? && reset.Some? ==> r == Ran(RunFrom(reset.value, w, 1, start))
      ensures r.Ran? ==> Configured(ActionOf(kind).value) && r.o == RunFrom(ActionOf(kind).value, w, 1, start)
    {
      var action := match kind case Initialize => initialize case Healthcheck => healthcheck case Reset => reset;
      if action.None? {
        return NotConfigured;
      }
      var o := Run(action.value, w, start);
      r := Ran(o);
    }
  }

  /** An action's delay as it would be without the limits of 64 bits. */
  function TrueDelay(c: ActionConfig): int {
    (c.delay + c.timeout) * (c.retries + 1)
  }

  /** Settings for which no arithmetic wraps around. */
  predicate Sane(c: ActionConfig) {
    && c.retries >= 0 && c.timeout >= 0 && c.delay >= 0
    && TrueDelay(c) + 500 * MILLISECOND < TWO_63
  }

  predicate Fits(x: int) {
    -TWO_63 <= x < TWO_63
  }

  lemma WrapSmall(x: int)
    requires Fits(x)
    ensures Wrap64(x) == x
  {
  }

  // ---------------------------------------------------------------- wrapping around once or often is the same

  /** Wrapping around takes off a multiple of two to the 64th, ... */
  lemma WrapShift(x: int) returns (q: int)
    ensures Wrap64(x) == x - q * (2 * TWO_63)
  {
    q := (x + TWO_63) / (2 * TWO_63);
  }

  lemma WrapFits(x: int)
    ensures Fits(Wrap64(x))
  {
  }

  lemma ShiftedProduct(x: int, y: int, p: int, q: int, w: int)
    ensures (x - p * w) * (y - q * w) == x * y - (p * y + q * x - p * q * w) * w
  {
  }

  /** ... and so does the whole computation, however often it wraps on the way. */
  lemma DelayShift(c: ActionConfig) returns (m: int)
    ensures DelayOf(c) == TrueDelay(c) - m * (2 * TWO_63)
  {
    hide Wrap64;
    var x, y, w := c.delay + c.timeout, c.retries + 1, 2 * TWO_63;
    var p := WrapShift(x);
    var q := WrapShift(y);
    ShiftedProduct(x, y, p, q, w);
    var k := p * y + q * x - p * q * w;
    var r := WrapShift(Wrap64(x) * Wrap64(y));
    m := k + r;
    assert m * w == k * w + r * w;
  }

  lemma SameMultiple(a: int, b: int, m: int, q: int)
    requires Fits(a) && Fits(b) && a + m * (2 * TWO_63) == b + q * (2 * TWO_63)
    ensures a == b
  {
  }

  /** So the computed delay is the true one, wrapped once. */
  lemma DelayIsTrueDelayWrapped(c: ActionConfig)
    ensures DelayOf(c) == Wrap64((c.delay + c.timeout) * (c.retries + 1)) && Fits(DelayOf(c))
    ensures DelayOf(c) == Wrap64(TrueDelay(c))
  {
    assert TrueDelay(c) == (c.delay + c.timeout) * (c.retries + 1);
    hide Wrap64, TrueDelay;
    var m, q;
    m := DelayShift(c);
    q := WrapShift(TrueDelay(c));
    WrapFits(Wrap64(c.delay + c.timeout) * Wrap64(c.retries + 1));
    WrapFits(TrueDelay(c));
    SameMultiple(DelayOf(c), Wrap64(TrueDelay(c)), m, q);
  }

  // ---------------------------------------------------------------- the worst case against the true delay

  lemma AllNatural(n: nat, d: nat, t: nat)
    ensures (d + t) * (n + 1) == (n + 1) * t + n * d + d && (n + 1) * t >= t && n * d >= 0
  {
  }

  lemma NegativeTimeout(n: int, d: int, t: int)
    ensures (d + t) * (n + 1) == n * d + (d + t * (n + 1))
  {
  }

  lemma NegativeDelay(n: nat, d: int, t: nat)
    requires d < 0
    ensures (d + t) * (n + 1) < (n + 1) * t && t <= (n + 1) * t
  {
  }

  lemma NegativeRetries(n: int, x: nat)
    requires n < 0
    ensures x * (n + 1) <= 0
  {
    var k: nat := -(n + 1);
    assert 0 <= x * k == -(x * (n + 1));
  }

  lemma WorstOf(c: ActionConfig)
    ensures var n, d, t := c.retries, c.delay, c.timeout;
      && (t <= 0 && (n <= 0 || d <= 0) ==> Worst(c) == 0)
      && (t <= 0 && n > 0 && d > 0 ==> Worst(c) == n * d > 0)
      && (t > 0 && n < 0 ==> Worst(c) == t)
      && (t > 0 && n >= 0 && d < 0 ==> Worst(c) == (n + 1) * t)
      && (t > 0 && n >= 0 && d >= 0 ==> Worst(c) == (n + 1) * t + n * d)
  {
  }

  /** Nothing to wait for: no timeout, and no retry or no delay. */
  predicate Instant(c: ActionConfig) {
    c.timeout <= 0 && (c.retries <= 0 || c.delay <= 0)
  }

  /** When a delay that fits 64 bits is enough. */
  predicate Balanced(c: ActionConfig) {
    if c.timeout <= 0 then c.delay + c.timeout * (c.retries + 1) >= 0
    else if c.retries >= 0 then c.delay >= 0
    else c.delay < 0 && c.timeout <= TrueDelay(c)
  }

  /** When an overflowing one is, by accident: it never is on its way up, unless the retry count is negative. */
  predicate Lucky(c: ActionConfig) {
    (c.retries < 0 || TrueDelay(c) < 0) && Worst(c) <= Wrap64(TrueDelay(c))
  }

  predicate Adequate(c: ActionConfig) {
    Instant(c) || if Fits(TrueDelay(c)) then Balanced(c) else Lucky(c)
  }

  lemma BalancedExactly(c: ActionConfig)
    requires !Instant(c)
    ensures 0 < Worst(c)
    ensures Worst(c) <= TrueDelay(c) <==> Balanced(c)
  {
    hide Worst;
    WorstOf(c);
    var n, d, t := c.retries, c.delay, c.timeout;
    if t <= 0 { NegativeTimeout(n, d, t); }
    else if n >= 0 { if d >= 0 { AllNatural(n, d, t); } else { NegativeDelay(n, d, t); } }
    else if d >= 0 { NegativeRetries(n, d + t); }
  }

  /** A true delay that overflows upwards is off by more than it was ahead of the worst case. */
  lemma OverflowLoses(c: ActionConfig)
    requires !Instant(c) && c.retries >= 0 && c.delay < TWO_63 && TrueDelay(c) >= TWO_63
    ensures Wrap64(TrueDelay(c)) < Worst(c)
  {
    hide Worst, TrueDelay;
    WorstOf(c);
    AheadByDelay(c);
    var q;
    q := WrapShift(TrueDelay(c));
    WrapFits(TrueDelay(c));
    hide Wrap64;
    assert q >= 1;
  }

  lemma AheadByDelay(c: ActionConfig)
    requires !Instant(c) && c.retries >= 0
    ensures TrueDelay(c) <= Worst(c) + Larger(0, c.delay)
  {
    hide Worst;
    WorstOf(c);
    var n, d, t := c.retries, c.delay, c.timeout;
    if t <= 0 { NegativeTimeout(n, d, t); NegativeRetries(-1 - n, -t); }
    else if d >= 0 { AllNatural(n, d, t); }
    else { NegativeDelay(n, d, t); }
  }

  /** What the delay of one action covers, exactly, for whatever settings of type int and time.Duration: with
      a delay that fits, everything if no setting is negative; some combinations of negative ones balance out. */
  lemma DelayCoversExactly(c: ActionConfig)
    requires c.delay < TWO_63
    ensures CoversAllRuns(c, Larger(0, DelayOf(c))) <==> Adequate(c)
  {
    hide Worst, DelayOf, Wrap64, TrueDelay, CoversAllRuns, Balanced;
    RunTimeExact(c, Larger(0, DelayOf(c)));
    DelayIsTrueDelayWrapped(c);
    if Instant(c) {
      WorstOf(c);
    } else {
      BalancedExactly(c);
      if Fits(TrueDelay(c)) { WrapSmall(TrueDelay(c)); }
      else if c.retries >= 0 && TrueDelay(c) >= 0 { OverflowLoses(c); }
    }
  }

  /** In particular, if no setting is negative: exactly when the true delay fits 64 bits. */
  lemma CoveredUnlessOverflow(c: ActionConfig)
    requires c.retries >= 0 && c.timeout >= 0 && 0 <= c.delay < TWO_63
    ensures CoversAllRuns(c, Larger(0, DelayOf(c))) <==> (c.delay + c.timeout) * (c.retries + 1) < TWO_63
  {
    hide CoversAllRuns, Wrap64, DelayOf;
    DelayCoversExactly(c);
    AllNatural(c.retries, c.delay, c.timeout);
    if Instant(c) { InstantFits(c); }
  }

  lemma InstantFits(c: ActionConfig)
    requires c.retries >= 0 && c.timeout == 0 && 0 <= c.delay < TWO_63 && Instant(c)
    ensures TrueDelay(c) < TWO_63
  {
    if c.delay == 0 { assert TrueDelay(c) == 0 * (c.retries + 1); }
  }

  /** With sane settings the delay of an action covers its worst case. */
  lemma DelayCoversWorst(c: ActionConfig)
    requires Sane(c)
    ensures Worst(c) <= DelayOf(c) == TrueDelay(c) < TWO_63 - 500 * MILLISECOND
  {
    hide DelayOf, Wrap64, Worst;
    DelayIsTrueDelayWrapped(c);
    AllNatural(c.retries, c.delay, c.timeout);
    WrapSmall(TrueDelay(c));
    WorstOf(c);
  }

  /** Every run of every configured action ends within MaxDelay, and before a default checkout times out. */
  lemma ActionTimeBound(m: Manager, c: ActionConfig, max: int, w: World, start: int)
    requires forall a :: m.Configured(a) ==> Sane(a)
    requires m.Configured(c)
    requires m.IsMaxDelay(max)
    ensures RunFrom(c, w, 1, start).finish - start <= Worst(c) <= max
    ensures max < Wrap64(max + 500 * MILLISECOND)
  {
    RunTimeBound(c, w, 1, start);
    DelayCoversWorst(c);
    if max != 0 {
      var a :| m.Configured(a) && DelayOf(a) == max;
      DelayCoversWorst(a);
    }
    WrapSmall(max + 500 * MILLISECOND);
  }

  /** The action's worst case is covered by the delay of some configured action, maybe another one. */
  ghost predicate CoveredBySome(m: Manager, c: ActionConfig) {
    Worst(c) == 0 || exists a :: m.Configured(a) && Worst(c) <= Wrap64(TrueDelay(a))
  }

  /** Exactly: MaxDelay bounds every run of every configured action if and only if the settings give each
      worst case a delay that covers it. */
  lemma MaxDelayExact(m: Manager, max: int)
    requires m.IsMaxDelay(max)
    ensures (forall c :: m.Configured(c) ==> CoversAllRuns(c, max)) <==> (forall c :: m.Configured(c) ==> CoveredBySome(m, c))
  {
    hide Worst, Wrap64, DelayOf, TrueDelay, CoversAllRuns;
    forall c ensures CoversAllRuns(c, max) <==> Worst(c) <= max {
      RunTimeExact(c, max);
    }
    forall a ensures DelayOf(a) == Wrap64(TrueDelay(a)) {
      DelayIsTrueDelayWrapped(a);
    }
  }

  /** A negative delay makes the computed delay too small, ... */
  lemma NegativeDelayFallsShort()
    ensures var c := ActionConfig(3, 1000, -1); DelayOf(c) < Worst(c)
  {
    assert Worst(ActionConfig(3, 1000, -1)) == 4 * 1000 + 3 * 0;
  }

  /** ... so does a retry count of -1, which still means one attempt, ... */
  lemma NegativeRetriesFallShort()
    ensures var c := ActionConfig(-1, 1000, 500); DelayOf(c) < Worst(c)
  {
    assert Worst(ActionConfig(-1, 1000, 500)) == 1 * 1000 + 0 * 500;
  }

  /** ... so does a negative timeout, which still leaves the delays between the attempts, ... */
  lemma NegativeTimeoutFallsShort()
    ensures var c := ActionConfig(3, -1000, 1000); DelayOf(c) < Worst(c)
  {
    assert Worst(ActionConfig(3, -1000, 1000)) == 4 * 0 + 3 * 1000;
  }

  /** ... and so does an overflow. */
  lemma OverflowFallsShort()
    ensures var c := ActionConfig(0x7FFF_FFFF, 0x1_0000_0000, 0); DelayOf(c) < Worst(c)
  {
    assert Wrap64(0x1_0000_0000) == 0x1_0000_0000 && Wrap64(0x8000_0000) == 0x8000_0000;
    assert 0x1_0000_0000 * 0x8000_0000 == TWO_63;
    assert Wrap64(TWO_63) == -TWO_63;
  }
}
