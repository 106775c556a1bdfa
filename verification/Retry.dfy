/** Retry with exponential backoff against a deadline (shared/retry.py). */
module Retry {
  import opened Prelude

  datatype Policy = Policy(maxTime: real, initialDelay: real, maxDelay: real, factor: real)

  const DEFAULTS: Policy := Policy(60.0, 1.0, 30.0, 1.5)

  predicate Sane(p: Policy) {
    p.factor >= 1.0 && 0.0 < p.initialDelay <= p.maxDelay
  }

  /** One call of the wrapped function: it returns, raises an exception to retry on, one giveup rejects, or another. */
  datatype Attempt = Returns | Retryable | GivenUp | Raises

  /** How the decorated call ends: with a value, or with the exception of its last attempt. */
  datatype Ending = Returned | RaisedAtOnce | DeadlinePassed

  function Min(a: real, b: real): real {
    if a <= b then a else b
  }

  function Pow(x: real, k: nat): real {
    if k == 0 then 1.0 else Pow(x, k - 1) * x
  }

  function NextDelay(p: Policy, delay: real): real {
    Min(delay * p.factor, p.maxDelay)
  }

  /** The delay before attempt k + 1, as the loop computes it. */
  function Delay(p: Policy, k: nat): real {
    if k == 0 then p.initialDelay else NextDelay(p, Delay(p, k - 1))
  }

  /** The k-th delay without the cap. */
  function Uncapped(p: Policy, k: nat): real {
    p.initialDelay * Pow(p.factor, k)
  }

  function Sum(p: Policy, k: nat): real {
    if k == 0 then 0.0 else Sum(p, k - 1) + Delay(p, k - 1)
  }

  lemma ScaleMonotone(a: real, b: real, x: real)
    requires a <= b && x >= 0.0
    ensures a * x <= b * x
  {
  }

  lemma TimesAssociates(a: real, b: real, c: real)
    ensures a * (b * c) == (a * b) * c
  {
  }

  lemma UncappedStep(p: Policy, k: nat)
    requires k > 0
    ensures Uncapped(p, k) == Uncapped(p, k - 1) * p.factor
  {
    TimesAssociates(p.initialDelay, Pow(p.factor, k - 1), p.factor);
  }

  lemma CapCommutes(p: Policy, power: real, next: real)
    requires Sane(p) && power >= p.initialDelay && next == power * p.factor
    ensures NextDelay(p, Min(power, p.maxDelay)) == Min(next, p.maxDelay)
    ensures next >= p.initialDelay
  {
    ScaleMonotone(1.0, p.factor, power);
    ScaleMonotone(1.0, p.factor, p.maxDelay);
  }

  lemma DelayStep(p: Policy, k: nat)
    ensures Delay(p, k + 1) == NextDelay(p, Delay(p, k))
  {
  }

  /** Capping at every step is the same as capping the power once. */
  lemma {:induction false} DelayClosedForm(p: Policy, k: nat)
    requires Sane(p)
    ensures Delay(p, k) == Min(Uncapped(p, k), p.maxDelay)
    ensures Uncapped(p, k) >= p.initialDelay
    ensures p.initialDelay <= Delay(p, k) <= p.maxDelay
  {
    if k == 0 {
      assert Uncapped(p, 0) == p.initialDelay * 1.0 == p.initialDelay;
    } else {
      hide Uncapped, NextDelay, Delay, Pow;
      DelayClosedForm(p, k - 1);
      UncappedStep(p, k);
      CapCommutes(p, Uncapped(p, k - 1), Uncapped(p, k));
      DelayStep(p, k - 1);
    }
  }

  lemma {:induction false} SumGrows(p: Policy, k: nat)
    requires Sane(p)
    ensures Sum(p, k) >= k as real * p.initialDelay
  {
    if k > 0 {
      SumGrows(p, k - 1);
      DelayClosedForm(p, k - 1);
      assert k as real * p.initialDelay == (k - 1) as real * p.initialDelay + p.initialDelay;
    }
  }

  lemma {:induction false} SumMonotone(p: Policy, j: nat, k: nat)
    requires Sane(p) && j <= k
    ensures Sum(p, j) <= Sum(p, k)
  {
    if j < k {
      SumMonotone(p, j, k - 1);
      DelayClosedForm(p, k - 1);
    }
  }

  lemma StartOf(p: Policy)
    ensures Delay(p, 0) == p.initialDelay && Sum(p, 0) == 0.0
  {
  }

  lemma SumStep(p: Policy, k: nat)
    ensures Sum(p, k + 1) == Sum(p, k) + Delay(p, k)
  {
  }

  /** Some number of delays fills any deadline. */
  function Enough(p: Policy): (n: nat)
    requires Sane(p)
    ensures Sum(p, n) >= p.maxTime
  {
    var n := if p.maxTime <= 0.0 then 0 else (p.maxTime / p.initialDelay).Floor + 1;
    SumGrows(p, n);
    assert p.maxTime > 0.0 ==> n as real > p.maxTime / p.initialDelay;
    if p.maxTime > 0.0 then
      ScaleMonotone(p.maxTime / p.initialDelay, n as real, p.initialDelay);
      assert p.maxTime / p.initialDelay * p.initialDelay == p.maxTime;
      n
    else n
  }

  /** `took(k)` is the duration of attempt k, `late(k)` how much longer than asked the k-th sleep lasts. */
  method Call(p: Policy, attempts: nat -> Attempt, took: nat -> real, late: nat -> real)
    returns (ending: Ending, calls: nat, delays: seq<real>, lastStart: real)
    requires Sane(p)
    requires forall k: nat :: took(k) >= 0.0 && late(k) >= 0.0
    ensures calls >= 1 && |delays| == calls - 1
    ensures forall k: nat :: k < |delays| ==> delays[k] == Delay(p, k)
    ensures forall k: nat :: k < calls - 1 ==> attempts(k).Retryable?
    ensures match attempts(calls - 1)
            case Returns => ending.Returned?
            case Retryable => ending.DeadlinePassed?
            case _ => ending.RaisedAtOnce?
    ensures ending.DeadlinePassed? <==> attempts(calls - 1).Retryable? && lastStart + took(calls - 1) >= p.maxTime
    ensures lastStart >= Sum(p, calls - 1)
    ensures calls >= 2 ==> Sum(p, calls - 2) < p.maxTime
    ensures (forall k: nat :: late(k) == 0.0) && calls > 1 ==> lastStart < p.maxTime + p.maxDelay
  {
    hide Sane, NextDelay, Delay, Sum;
    StartOf(p);
    ghost var bound := Enough(p);
    var now, delay := 0.0, p.initialDelay;
    calls, delays, lastStart := 0, [], 0.0;
    while true
      invariant |delays| == calls <= bound
      invariant forall k: nat :: k < calls ==> delays[k] == Delay(p, k) && attempts(k).Retryable?
      invariant delay == Delay(p, calls)
      invariant now >= Sum(p, calls)
      invariant calls > 0 ==> Sum(p, calls - 1) < p.maxTime
      invariant (forall k: nat :: late(k) == 0.0) && calls > 0 ==> now < p.maxTime + p.maxDelay
      decreases bound - calls
    {
      lastStart := now;
      var attempt := attempts(calls);
      now := now + took(calls);
      calls := calls + 1;
      match attempt {
        case Returns => return Returned, calls, delays, lastStart;
        case GivenUp => return RaisedAtOnce, calls, delays, lastStart;
        case Raises => return RaisedAtOnce, calls, delays, lastStart;
        case Retryable =>
      }
      if now >= p.maxTime {
        return DeadlinePassed, calls, delays, lastStart;
      }
      DelayClosedForm(p, calls - 1);
      DelayStep(p, calls - 1);
      SumStep(p, calls - 1);
      if bound < calls {
        SumMonotone(p, bound, calls - 1);
      }
      now := now + delay + late(calls - 1);
      delays := delays + [delay];
      delay := NextDelay(p, delay);
    }
  }

  /** The number of calls is at most one more than the number of delays that fill the deadline. */
  lemma CallsBound(p: Policy, calls: nat, m: nat)
    requires Sane(p) && Sum(p, m) >= p.maxTime && (calls >= 2 ==> Sum(p, calls - 2) < p.maxTime)
    ensures calls <= m + 1
  {
    if calls >= m + 2 {
      SumMonotone(p, m, calls - 2);
    }
  }

  /** With the defaults nine delays fill the sixty seconds, so there are at most ten calls; the cap is met by the tenth
      delay. */
  lemma DefaultsAllowTenCalls()
    ensures Sane(DEFAULTS)
    ensures Sum(DEFAULTS, 8) < DEFAULTS.maxTime == 60.0 <= Sum(DEFAULTS, 9)
    ensures Delay(DEFAULTS, 8) < Delay(DEFAULTS, 9) == 30.0
  {
    var p := DEFAULTS;
    assert Delay(p, 1) == 1.5 && Delay(p, 2) == 2.25 && Delay(p, 3) == 3.375;
    assert Delay(p, 4) == 5.0625 && Delay(p, 5) == 7.59375 && Delay(p, 6) == 11.390625;
    assert Delay(p, 7) == 17.0859375 && Delay(p, 8) == 25.62890625 && Delay(p, 9) == 30.0;
    assert Sum(p, 1) == 1.0 && Sum(p, 2) == 2.5 && Sum(p, 3) == 4.75 && Sum(p, 4) == 8.125;
    assert Sum(p, 5) == 13.1875 && Sum(p, 6) == 20.78125 && Sum(p, 7) == 32.171875 && Sum(p, 8) == 49.2578125;
    assert Sum(p, 9) == 74.88671875;
  }
}
