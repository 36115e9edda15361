/** Exponential back-off with a ceiling, with an exact multiplier and truncation to whole time units. */
module Backoff {

  datatype RetryPolicy = RetryPolicy(maxAttempts: nat, initialWait: nat, multiplier: real, maxWait: nat)

  /** What configuration validation accepts. */
  predicate ValidPolicy(p: RetryPolicy) {
    p.maxAttempts >= 1 && p.initialWait > 0 && p.multiplier >= 1.0 && p.maxWait > 0
  }

  function Scaled(x: real, m: real): real {
    x * m
  }

  lemma Grows(x: real, m: real)
    requires x >= 0.0 && m >= 1.0
    ensures Scaled(x, m) >= x
  {
  }

  lemma Monotone(x: real, y: real, m: real)
    requires x <= y && m >= 0.0
    ensures Scaled(x, m) <= Scaled(y, m)
  {
  }

  lemma Reassociate(x: real, y: real, m: real)
    ensures Scaled(x * y, m) == x * (m * y)
  {
  }

  /** A whole multiplier keeps a whole number whole. */
  lemma StaysWhole(n: nat, m: real)
    requires IsWhole(m)
    ensures IsWhole(Scaled(n as real, m))
  {
    assert Scaled(n as real, m) == (n * m.Floor) as real;
  }

  predicate IsWhole(m: real) {
    m == m.Floor as real
  }

  /** The wait after a wait: multiplied, truncated, capped. */
  function NextWait(p: RetryPolicy, wait: nat): nat
    requires p.multiplier >= 1.0
  {
    Grows(wait as real, p.multiplier);
    var longer := Scaled(wait as real, p.multiplier).Floor;
    if longer > p.maxWait then p.maxWait else longer
  }

  /** The k-th wait, counted from one. */
  function Wait(p: RetryPolicy, k: nat): nat
    requires p.multiplier >= 1.0 && k >= 1
  {
    if k == 1 then p.initialWait else NextWait(p, Wait(p, k - 1))
  }

  function Power(m: real, k: nat): real {
    if k == 0 then 1.0 else m * Power(m, k - 1)
  }

  function TotalWait(p: RetryPolicy, k: nat): nat
    requires p.multiplier >= 1.0
  {
    if k == 0 then 0 else TotalWait(p, k - 1) + Wait(p, k)
  }

  /** A wait never shrinks, except when the first one is above the ceiling. */
  lemma NextWaitGrows(p: RetryPolicy, wait: nat)
    requires p.multiplier >= 1.0
    ensures wait <= p.maxWait ==> wait <= NextWait(p, wait) <= p.maxWait
    ensures NextWait(p, wait) <= p.maxWait
  {
    hide Scaled;
    Grows(wait as real, p.multiplier);
  }

  lemma {:induction false} WaitsCapped(p: RetryPolicy, k: nat)
    requires p.multiplier >= 1.0 && k >= 2
    ensures Wait(p, k) <= p.maxWait
  {
    NextWaitGrows(p, Wait(p, k - 1));
  }

  /** Consecutive waits never decrease exactly when the first does not exceed the ceiling. */
  lemma WaitsNeverDecreaseExactlyWhen(p: RetryPolicy)
    requires ValidPolicy(p)
    ensures p.initialWait <= p.maxWait <==> forall k: nat | k >= 1 :: Wait(p, k) <= Wait(p, k + 1)
  {
    if p.initialWait <= p.maxWait {
      forall k: nat | k >= 1 ensures Wait(p, k) <= Wait(p, k + 1) {
        if k >= 2 {
          WaitsCapped(p, k);
        }
        NextWaitGrows(p, Wait(p, k));
      }
    } else {
      NextWaitGrows(p, Wait(p, 1));
      assert Wait(p, 2) == NextWait(p, Wait(p, 1));
    }
  }

  /** The ceiling is absorbing. */
  lemma {:induction false} CeilingAbsorbs(p: RetryPolicy, j: nat, k: nat)
    requires p.multiplier >= 1.0 && 1 <= j <= k && Wait(p, j) == p.maxWait
    ensures Wait(p, k) == p.maxWait
    decreases k
  {
    if j < k {
      CeilingAbsorbs(p, j, k - 1);
      NextWaitGrows(p, p.maxWait);
    }
  }

  lemma NextIsProduct(p: RetryPolicy, wait: nat)
    requires p.multiplier >= 1.0
    ensures var product, next := Scaled(wait as real, p.multiplier), NextWait(p, wait) as real;
            if next < p.maxWait as real then next <= product < next + 1.0
            else next == p.maxWait as real && product >= p.maxWait as real
  {
    hide Scaled;
    var product := Scaled(wait as real, p.multiplier);
    assert product.Floor as real <= product < product.Floor as real + 1.0;
  }

  /**
   Every wait from the second on is the ceiling, where the product with the multiplier reaches it, and
   otherwise the whole part of that product: less than one time unit is ever lost.
   */
  lemma WaitsAreProducts(p: RetryPolicy, k: nat)
    requires ValidPolicy(p) && k >= 1
    ensures Wait(p, 1) == p.initialWait
    ensures var now, next := Wait(p, k) as real, Wait(p, k + 1) as real;
            if next < p.maxWait as real then next <= now * p.multiplier < next + 1.0
            else next == p.maxWait as real && now * p.multiplier >= p.maxWait as real
  {
    hide NextWait;
    NextIsProduct(p, Wait(p, k));
    assert Scaled(Wait(p, k) as real, p.multiplier) == Wait(p, k) as real * p.multiplier;
  }

  /** How much truncation can have taken from the k-th wait: less than a unit each time, multiplied since. */
  function Slack(p: RetryPolicy, k: nat): real {
    if k == 0 then 0.0 else Scaled(Slack(p, k - 1), p.multiplier) + 1.0
  }

  lemma Distribute(x: real, y: real, m: real)
    ensures Scaled(x - y, m) == Scaled(x, m) - Scaled(y, m)
  {
  }

  /** And so a wait below the ceiling is within that slack of the ideal one. */
  lemma {:induction false} WaitNearIdeal(p: RetryPolicy, k: nat)
    requires ValidPolicy(p) && k >= 1
    ensures Wait(p, k) as real > Ideal(p, k - 1) - Slack(p, k) || Wait(p, k) >= p.maxWait
    decreases k
  {
    hide Scaled, NextWait, Wait;
    if k == 1 {
      FirstIsNear(p);
    } else {
      WaitNearIdeal(p, k - 1);
      StepNearIdeal(p, k);
    }
  }

  lemma FirstIsNear(p: RetryPolicy)
    ensures p.multiplier >= 1.0 ==> Wait(p, 1) as real == Ideal(p, 0) && Slack(p, 1) == 1.0
  {
    assert Slack(p, 0) == 0.0;
  }

  lemma StepNearIdeal(p: RetryPolicy, k: nat)
    requires ValidPolicy(p) && k >= 2
    requires Wait(p, k - 1) as real > Ideal(p, k - 2) - Slack(p, k - 1) || Wait(p, k - 1) >= p.maxWait
    ensures Wait(p, k) as real > Ideal(p, k - 1) - Slack(p, k) || Wait(p, k) >= p.maxWait
  {
    hide Wait, NextWait;
    var before := Wait(p, k - 1) as real;
    WaitsAreProducts(p, k - 1);
    assert Scaled(before, p.multiplier) == before * p.multiplier;
    hide Scaled;
    if Wait(p, k) < p.maxWait {
      Grows(before, p.multiplier);
      Monotone(Ideal(p, k - 2) - Slack(p, k - 1), before, p.multiplier);
      Distribute(Ideal(p, k - 2), Slack(p, k - 1), p.multiplier);
    }
  }

  /** The untruncated, uncapped exponential: initialWait * multiplier ^ k. */
  function Ideal(p: RetryPolicy, k: nat): real {
    if k == 0 then p.initialWait as real else Scaled(Ideal(p, k - 1), p.multiplier)
  }

  lemma {:induction false} IdealIsExponential(p: RetryPolicy, k: nat)
    ensures Ideal(p, k) == p.initialWait as real * Power(p.multiplier, k)
  {
    if k > 0 {
      IdealIsExponential(p, k - 1);
      Reassociate(p.initialWait as real, Power(p.multiplier, k - 1), p.multiplier);
    }
  }

  function Min(x: real, y: real): real {
    if x <= y then x else y
  }

  lemma StepWithinIdeal(p: RetryPolicy, wait: nat, ideal: real)
    requires p.multiplier >= 1.0 && wait as real <= ideal
    ensures NextWait(p, wait) as real <= Min(Scaled(ideal, p.multiplier), p.maxWait as real)
  {
    hide Scaled;
    Monotone(wait as real, ideal, p.multiplier);
    var longer := Scaled(wait as real, p.multiplier).Floor;
    assert longer as real <= Scaled(wait as real, p.multiplier);
  }

  /** Truncation only ever shortens: each wait after the first is within the capped exponential. */
  lemma {:induction false} WaitWithinIdeal(p: RetryPolicy, k: nat)
    requires ValidPolicy(p) && k >= 1
    ensures Wait(p, k) as real <= Ideal(p, k - 1)
    ensures Wait(p, k + 1) as real <= Min(Ideal(p, k), p.maxWait as real)
    decreases k
  {
    hide Scaled, NextWait;
    if k > 1 {
      WaitWithinIdeal(p, k - 1);
    }
    StepWithinIdeal(p, Wait(p, k), Ideal(p, k - 1));
  }

  /** With a whole multiplier, the next wait of a capped ideal is the next capped ideal. */
  lemma WholeStep(p: RetryPolicy, wait: nat, ideal: real)
    requires ValidPolicy(p) && IsWhole(p.multiplier) && ideal >= 0.0
    requires wait as real == ideal || (wait == p.maxWait && ideal >= p.maxWait as real)
    ensures NextWait(p, wait) as real == Min(Scaled(ideal, p.multiplier), p.maxWait as real)
  {
    hide Scaled;
    StaysWhole(wait, p.multiplier);
    if wait as real != ideal {
      Grows(p.maxWait as real, p.multiplier);
      Grows(ideal, p.multiplier);
    }
  }

  /** With a whole multiplier nothing is truncated: every wait after the first is the capped exponential. */
  lemma {:induction false} WholeMultiplierIsExact(p: RetryPolicy, k: nat)
    requires ValidPolicy(p) && IsWhole(p.multiplier) && k >= 1
    ensures Wait(p, k + 1) as real == Min(Ideal(p, k), p.maxWait as real)
    decreases k
  {
    hide Scaled, NextWait;
    if k > 1 {
      WholeMultiplierIsExact(p, k - 1);
    }
    IdealPositive(p, k - 1);
    WholeStep(p, Wait(p, k), Ideal(p, k - 1));
  }

  lemma {:induction false} IdealPositive(p: RetryPolicy, k: nat)
    requires ValidPolicy(p)
    ensures Ideal(p, k) >= 0.0
  {
    hide Scaled;
    if k > 0 {
      IdealPositive(p, k - 1);
      Grows(Ideal(p, k - 1), p.multiplier);
    }
  }

  lemma OneMore(n: nat, x: nat)
    ensures n * x + x == (n + 1) * x
  {
  }

  /** All sleeps of one operation together. */
  lemma {:induction false} TotalWaitBounded(p: RetryPolicy, k: nat)
    requires ValidPolicy(p) && k >= 1
    ensures TotalWait(p, k) <= p.initialWait + (k - 1) * p.maxWait
    decreases k
  {
    if k == 1 {
      assert TotalWait(p, 0) == 0;
    } else {
      hide Wait;
      TotalWaitBounded(p, k - 1);
      OneMore(k - 2, p.maxWait);
      WaitsCapped(p, k);
    }
  }

  function Sum(sleeps: seq<nat>): nat {
    if sleeps == [] then 0 else Sum(sleeps[..|sleeps| - 1]) + sleeps[|sleeps| - 1]
  }

  /** The sleeps are the first waits, in order. */
  ghost predicate AsPlanned(p: RetryPolicy, sleeps: seq<nat>)
    requires p.multiplier >= 1.0
  {
    forall i | 0 <= i < |sleeps| :: sleeps[i] == Wait(p, i + 1)
  }

  lemma {:induction false} SumIsTotal(p: RetryPolicy, sleeps: seq<nat>)
    requires p.multiplier >= 1.0 && AsPlanned(p, sleeps)
    ensures Sum(sleeps) == TotalWait(p, |sleeps|)
    decreases |sleeps|
  {
    if sleeps != [] {
      SumIsTotal(p, sleeps[..|sleeps| - 1]);
    }
  }

  lemma MoreAttempts(n: nat, m: nat, x: nat)
    requires n <= m
    ensures n * x <= m * x
  {
  }

  /** However an operation goes, it sleeps no longer than the first wait and a full one for each further retry. */
  lemma SleepBounded(p: RetryPolicy, sleeps: seq<nat>)
    requires ValidPolicy(p) && p.maxAttempts >= 2 && AsPlanned(p, sleeps) && |sleeps| < p.maxAttempts
    ensures Sum(sleeps) <= p.initialWait + (p.maxAttempts - 2) * p.maxWait
  {
    SumIsTotal(p, sleeps);
    MoreAttempts(0, p.maxAttempts - 2, p.maxWait);
    if sleeps != [] {
      TotalWaitBounded(p, |sleeps|);
      MoreAttempts(|sleeps| - 1, p.maxAttempts - 2, p.maxWait);
    }
  }
}
