/**
  * Retry decisions: capped exponential backoff and the failure update (core/backoff.ts, core/workflow-definition.ts).
  */
module Retry {
  import opened Workflows

  type Time = int

  /** Intervals in milliseconds; a maximum of 0 attempts means no maximum. */
  datatype Policy = Policy(initialInterval: nat, coefficient: real, maximumInterval: nat, maximumAttempts: int)

  /** The outcome for a run that failed: try again at a time, or fail for good. */
  datatype Update = Again(at: Time, error: Value) | GiveUp(error: Value)

  function Power(x: real, n: nat): real {
    if n == 0 then 1.0 else x * Power(x, n - 1)
  }

  /** The delay's exponent for an attempt. */
  function Exponent(attempt: int): nat {
    if attempt <= 1 then 0 else attempt - 1
  }

  function Exponential(p: Policy, attempt: int): real {
    p.initialInterval as real * Power(p.coefficient, Exponent(attempt))
  }

  /** The delay before the next try; attempt 1 waits the initial interval. */
  function BackoffDelay(p: Policy, attempt: int): real {
    Below(Exponential(p, attempt), p.maximumInterval as real)
  }

  function Below(delay: real, cap: real): real {
    if delay <= cap then delay else cap
  }

  const DEADLINE_EXCEEDED := Record([("message", Text("Workflow run deadline exceeded"))])

  /** When to retry; dates are whole milliseconds. */
  function NextRetryAt(p: Policy, attempts: int, now: Time): Time {
    now + BackoffDelay(p, attempts).Floor
  }

  function FailedUpdate(p: Policy, attempts: int, deadlineAt: Option<Time>, error: Value, now: Time): Update {
    if deadlineAt.Some? && now >= deadlineAt.value then GiveUp(DEADLINE_EXCEEDED)
    else if p.maximumAttempts > 0 && attempts >= p.maximumAttempts then GiveUp(error)
    else if deadlineAt.Some? && NextRetryAt(p, attempts, now) >= deadlineAt.value then GiveUp(error)
    else Again(NextRetryAt(p, attempts, now), error)
  }

  // ---- the delay ----

  lemma ScaleGrows(k: real, x: real, y: real)
    requires k >= 0.0 && x <= y
    ensures k * x <= k * y
  {
    assert k * (y - x) >= 0.0;
    assert k * (y - x) == k * y - k * x;
  }

  lemma {:induction false} PowerIsNatural(x: real, n: nat)
    requires x >= 0.0
    ensures Power(x, n) >= 0.0
  {
    if n > 0 {
      PowerIsNatural(x, n - 1);
      ScaleGrows(x, 0.0, Power(x, n - 1));
    }
  }

  lemma {:induction false} PowerGrows(x: real, m: nat, n: nat)
    requires x >= 1.0 && m <= n
    ensures Power(x, m) <= Power(x, n)
  {
    if m < n {
      PowerGrows(x, m, n - 1);
      PowerIsNatural(x, n - 1);
      ScaleGrows(Power(x, n - 1), 1.0, x);
    }
  }

  lemma ExponentialGrows(p: Policy, a: int, b: int)
    requires p.coefficient >= 1.0 && a <= b
    ensures Exponential(p, a) <= Exponential(p, b)
  {
    PowerGrows(p.coefficient, Exponent(a), Exponent(b));
    ScaleGrows(p.initialInterval as real, Power(p.coefficient, Exponent(a)), Power(p.coefficient, Exponent(b)));
  }

  /**
    * With a coefficient of at least 1 the delay grows with the attempt, from min(initial, cap) and never above the cap.
    */
  lemma BackoffIsMonotoneAndCapped(p: Policy, a: int, b: int)
    requires p.coefficient >= 1.0 && a <= b
    ensures BackoffDelay(p, a) <= BackoffDelay(p, b) <= p.maximumInterval as real
    ensures BackoffDelay(p, a) >= BackoffDelay(p, 1)
    ensures BackoffDelay(p, a) == p.maximumInterval as real ==> BackoffDelay(p, b) == p.maximumInterval as real
  {
    ExponentialGrows(p, a, b);
    if a <= 1 {
      assert Exponential(p, a) == Exponential(p, 1);
    } else {
      ExponentialGrows(p, 1, a);
    }
  }

  ghost predicate NeverShrinks(p: Policy) {
    forall a, b :: a <= b ==> BackoffDelay(p, a) <= BackoffDelay(p, b)
  }

  /** Delays never shrink exactly when they start at zero, or grow, or are capped at zero without being negative. */
  lemma NeverShrinksExactly(p: Policy)
    ensures NeverShrinks(p) <==>
      p.initialInterval == 0 || p.coefficient >= 1.0 || (p.maximumInterval == 0 && p.coefficient >= 0.0)
  {
    if p.coefficient >= 1.0 {
      forall a, b | a <= b
        ensures BackoffDelay(p, a) <= BackoffDelay(p, b)
      {
        BackoffIsMonotoneAndCapped(p, a, b);
      }
    } else if p.initialInterval == 0 || (p.maximumInterval == 0 && p.coefficient >= 0.0) {
      forall a
        ensures BackoffDelay(p, a) == 0.0
      {
        DelayIsZero(p, a);
      }
    } else if p.coefficient <= 0.0 {
      SecondIsLess(p);
    } else {
      SomeDelayShrinks(p);
    }
  }

  lemma DelayIsZero(p: Policy, a: int)
    requires p.initialInterval == 0 || (p.maximumInterval == 0 && p.coefficient >= 0.0)
    ensures BackoffDelay(p, a) == 0.0
  {
    if p.initialInterval > 0 {
      PowerIsNatural(p.coefficient, Exponent(a));
      ScaleGrows(p.initialInterval as real, 0.0, Power(p.coefficient, Exponent(a)));
    }
  }

  /** Without a positive coefficient the second delay is not positive, and shorter. */
  lemma SecondIsLess(p: Policy)
    requires p.initialInterval > 0 && p.coefficient <= 0.0 && (p.maximumInterval > 0 || p.coefficient < 0.0)
    ensures BackoffDelay(p, 2) < BackoffDelay(p, 1)
  {
    var k := p.initialInterval as real;
    assert Power(p.coefficient, 0) == 1.0 && Power(p.coefficient, 1) == p.coefficient;
    NotPositive(k, p.coefficient);
    BelowIsLess(k * p.coefficient, k, p.maximumInterval as real);
    assert Exponential(p, 1) == k && Exponential(p, 2) == k * p.coefficient;
  }

  lemma NotPositive(k: real, x: real)
    requires k > 0.0 && x <= 0.0
    ensures k * x <= 0.0 && (x < 0.0 ==> k * x < 0.0)
  {
  }

  lemma BelowIsLess(x: real, y: real, cap: real)
    requires x <= 0.0 < y && cap >= 0.0 && (cap > 0.0 || x < 0.0)
    ensures Below(x, cap) < Below(y, cap)
  {
  }

  /** With a coefficient between 0 and 1 the delays fall below a positive cap, and then shrink. */
  lemma SomeDelayShrinks(p: Policy)
    requires p.initialInterval > 0 && 0.0 < p.coefficient < 1.0 && p.maximumInterval > 0
    ensures !NeverShrinks(p)
  {
    var x, c, cap := p.initialInterval as real, p.coefficient, p.maximumInterval as real;
    StepIsPositive(c, cap);
    var n := EnoughSteps(x, (1.0 - c) * cap);
    var m := FallsBelow(x, c, cap, n);
    assert Exponential(p, m + 1) == x * Power(c, m);
    ExponentialShrinks(p, m + 1);
    BelowShrinks(Exponential(p, m + 2), Exponential(p, m + 1), cap);
    assert BackoffDelay(p, m + 2) < BackoffDelay(p, m + 1);
  }

  lemma ExponentialShrinks(p: Policy, a: int)
    requires p.initialInterval > 0 && 0.0 < p.coefficient < 1.0 && a >= 1
    ensures Exponential(p, a + 1) < Exponential(p, a)
  {
    NextIsLess(p.initialInterval as real, p.coefficient, a - 1);
  }

  lemma EnoughSteps(x: real, step: real) returns (n: int)
    requires step > 0.0
    ensures x < n as real * step
  {
    n := (x / step).Floor + 1;
    var rest := n as real - x / step;
    assert rest * step > 0.0;
    assert rest * step == n as real * step - x / step * step;
  }

  lemma StepIsPositive(c: real, cap: real)
    requires c < 1.0 && cap > 0.0
    ensures (1.0 - c) * cap > 0.0
  {
  }

  /** While it is not below the cap, the delay loses at least a fixed step each time. */
  lemma {:induction false} FallsBelow(x: real, c: real, cap: real, n: int) returns (m: nat)
    requires x > 0.0 && 0.0 < c < 1.0 && cap > 0.0 && x < cap + n as real * ((1.0 - c) * cap)
    ensures x * Power(c, m) < cap
    decreases n
  {
    if x < cap {
      m := 0;
    } else {
      StepIsTaken(x, c, cap, n);
      m := FallsBelow(x * c, c, cap, n - 1);
      PowerNext(x, c, m);
      m := m + 1;
    }
  }

  lemma StepIsTaken(x: real, c: real, cap: real, n: int)
    requires 0.0 < c < 1.0 && cap > 0.0 && cap <= x < cap + n as real * ((1.0 - c) * cap)
    ensures 0.0 < x * c < cap + (n - 1) as real * ((1.0 - c) * cap) && n > 0
  {
    var step := (1.0 - c) * cap;
    ScaleGrows(1.0 - c, cap, x);
    assert x * c == x - (1.0 - c) * x;
    assert (n - 1) as real * step == n as real * step - step;
    if n <= 0 {
      ScaleGrows(step, n as real, 0.0);
    }
  }

  lemma PowerNext(x: real, c: real, m: nat)
    ensures x * Power(c, m + 1) == x * c * Power(c, m)
  {
  }

  lemma NextIsLess(x: real, c: real, m: nat)
    requires x > 0.0 && 0.0 < c < 1.0
    ensures x * Power(c, m + 1) < x * Power(c, m)
  {
    PowerIsPositive(c, m);
    assert x * Power(c, m) > 0.0;
    PowerNext(x, c, m);
    ProductShrinks(x * Power(c, m), c);
    assert x * c * Power(c, m) == x * Power(c, m) * c;
  }

  lemma {:induction false} PowerIsPositive(c: real, m: nat)
    requires c > 0.0
    ensures Power(c, m) > 0.0
  {
    if m > 0 {
      PowerIsPositive(c, m - 1);
    }
  }

  lemma BelowShrinks(x: real, y: real, cap: real)
    requires x < y < cap
    ensures Below(x, cap) < Below(y, cap)
  {
  }

  lemma ProductShrinks(k: real, x: real)
    requires k > 0.0 && x < 1.0
    ensures k * x < k
  {
    var rest := 1.0 - x;
    assert k * rest > 0.0;
    assert k * rest == k - k * x;
  }

  // ---- the decision ----

  /**
    * The run fails for good exactly when the deadline has passed, the tries are used up, or no try fits before the
    * deadline.
    */
  lemma GivesUpExactly(p: Policy, attempts: int, deadlineAt: Option<Time>, error: Value, now: Time)
    requires p.coefficient >= 0.0
    ensures FailedUpdate(p, attempts, deadlineAt, error, now).GiveUp? <==>
      || (p.maximumAttempts > 0 && attempts >= p.maximumAttempts)
      || (deadlineAt.Some? && now + BackoffDelay(p, attempts).Floor >= deadlineAt.value)
  {
    DelayIsNatural(p, attempts);
  }

  lemma DelayIsNatural(p: Policy, attempts: int)
    requires p.coefficient >= 0.0
    ensures BackoffDelay(p, attempts).Floor >= 0
  {
    PowerIsNatural(p.coefficient, Exponent(attempts));
    ScaleGrows(p.initialInterval as real, 0.0, Power(p.coefficient, Exponent(attempts)));
  }

  /** A retry is never set at or past the deadline, never in the past, and never later than the cap allows. */
  lemma RetryWindow(p: Policy, attempts: int, deadlineAt: Option<Time>, error: Value, now: Time)
    requires p.coefficient >= 0.0
    ensures
      var u := FailedUpdate(p, attempts, deadlineAt, error, now);
      u.Again? ==>
        && now <= u.at <= now + p.maximumInterval
        && (deadlineAt.Some? ==> u.at < deadlineAt.value)
        && (p.maximumAttempts > 0 ==> attempts < p.maximumAttempts)
  {
    DelayIsNatural(p, attempts);
  }
}
