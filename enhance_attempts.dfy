/** The exact expected number of attempts when every failure adds one
    failstack point (protected attempts), computed by backward dynamic
    programming from a pity horizon at which success is certain. */
module EnhanceAttempts {
  import opened Common
  import opened EnhanceChance

  /** The pity horizon: after this many failures the next attempt succeeds. */
  const MaxAttempts: nat := 100000

  /** Success probability (in [0, 1]) of an attempt at failstack `fs`; here
      the linear rule is capped at 100 percent, not at 90. */
  function StepProbability(base: real, fs: real): real
  {
    Min(Linear(base, fs), 100.0) / 100.0
  }

  /** Expected attempts still to be made after `a` failures, the next
      attempt being made at failstack `fs`; each failure adds one point. */
  function Expected(base: real, fs: real, a: nat): real
    requires a <= MaxAttempts
    decreases MaxAttempts - a
  {
    if a == MaxAttempts then 1.0
    else
      var p := StepProbability(base, fs);
      if p >= 1.0 then 1.0 else OneMore(p, Expected(base, fs + 1.0, a + 1))
  }

  /** One attempt, followed on failure (probability 1 - p) by `rest` more. */
  function OneMore(p: real, rest: real): real
  {
    1.0 + (1.0 - p) * rest
  }

  /** What the solver returns: 0 for a zero base rate, otherwise the
      expectation from the first attempt. */
  function ExactAttempts(base: real, fs0: nat): real
  {
    if base == 0.0 then 0.0 else Expected(base, fs0 as real, 0)
  }

  method ExactAverageAttempts(baseRate: real, initialFailstack: nat) returns (e: real)
    ensures e == ExactAttempts(baseRate, initialFailstack)
    ensures baseRate == 0.0 ==> e == 0.0
    ensures baseRate > 0.0 ==> 1.0 <= e <= (MaxAttempts + 1) as real
    ensures baseRate > 0.0 && StepProbability(baseRate, initialFailstack as real) >= 1.0 ==> e == 1.0
  {
    if baseRate == 0.0 {
      return 0.0;
    }
    var limit := MaxAttempts;
    var table := new real[limit + 2](_ => 0.0);
    table[limit] := 1.0;
    for a := limit downto 0
      invariant forall j :: a <= j <= limit ==> table[j] == Expected(baseRate, (initialFailstack + j) as real, j)
    {
      var fs := initialFailstack + a;
      var p := Min(baseRate + (fs as real) * baseRate / 10.0, 100.0) / 100.0;
      assert p == StepProbability(baseRate, fs as real);
      if p >= 1.0 {
        table[a] := 1.0;
      } else {
        table[a] := OneMore(p, table[a + 1]);
      }
    }
    e := table[0];
    if baseRate > 0.0 {
      ExpectedBounds(baseRate, initialFailstack as real, 0);
    }
  }

  // ----- Facts about the step probability -----

  lemma StepProbabilityBounds(base: real, fs: real)
    requires base > 0.0 && fs >= 0.0
    ensures 0.0 < StepProbability(base, fs) <= 1.0
  {
    LinearNotBelowBase(base, fs);
  }

  lemma StepProbabilityMonotone(base: real, fs1: real, fs2: real)
    requires base > 0.0 && fs1 <= fs2
    ensures StepProbability(base, fs1) <= StepProbability(base, fs2)
  {
    LinearMonotone(base, fs1, fs2);
  }

  /** Below certainty, one more failstack point strictly raises the chance. */
  lemma StepProbabilityRises(base: real, fs: real)
    requires base > 0.0 && StepProbability(base, fs) < 1.0
    ensures StepProbability(base, fs) < StepProbability(base, fs + 1.0)
  {
    assert Linear(base, fs + 1.0) == Linear(base, fs) + base / 10.0;
  }

  // ----- Arithmetic helpers -----

  lemma ScaleMonotone(c: real, x: real, y: real)
    requires c >= 0.0 && x <= y
    ensures c * x <= c * y
  {
    ProductNonNegative(c, y - x);
    assert c * y - c * x == c * (y - x);
  }

  lemma ScaleStrict(c: real, x: real, y: real)
    requires c > 0.0 && x < y
    ensures c * x < c * y
  {
    assert c * y - c * x == c * (y - x);
  }

  lemma ReciprocalAntitone(x: real, y: real)
    requires 0.0 < x <= y
    ensures 1.0 / y <= 1.0 / x
  {
    assert 1.0 / x - 1.0 / y == (y - x) / (x * y);
  }

  lemma ReciprocalStrict(x: real, y: real)
    requires 0.0 < x < y
    ensures 1.0 / y < 1.0 / x
  {
    assert 1.0 / x - 1.0 / y == (y - x) / (x * y);
  }

  /** One backward step keeps the order: a higher chance and a smaller
      remainder give a smaller expectation. */
  lemma StepCompare(p1: real, p2: real, rest1: real, rest2: real)
    requires 0.0 <= p1 <= p2 < 1.0 && 0.0 <= rest2 <= rest1
    ensures OneMore(p2, rest2) <= OneMore(p1, rest1)
  {
    ScaleMonotone(1.0 - p2, rest2, rest1);
    ScaleMonotone(rest1, 1.0 - p2, 1.0 - p1);
  }

  /** One attempt and at most `h` more (at least one) take between 1 and
      h + 1 attempts. */
  lemma OneMoreBounds(p: real, rest: real, h: real)
    requires 0.0 <= p <= 1.0 && 1.0 <= rest <= h
    ensures 1.0 <= OneMore(p, rest) <= h + 1.0
  {
    ProductNonNegative(1.0 - p, rest);
    ProductNonNegative(p, rest);
    assert (1.0 - p) * rest == rest - p * rest;
  }

  /** One attempt at chance p followed by fewer than 1 / p attempts on
      failure stays below the geometric mean 1 / p. */
  lemma OneMoreBelowGeometric(p: real, rest: real)
    requires 0.0 < p < 1.0 && rest < 1.0 / p
    ensures OneMore(p, rest) < 1.0 / p
  {
    var g := 1.0 / p;
    ScaleStrict(1.0 - p, rest, g);
    assert p * g == 1.0;
    assert (1.0 - p) * g == g - p * g;
  }

  // ----- Properties of the expectation -----

  /** One backward step of the recurrence below certainty. */
  lemma ExpectedStep(base: real, fs: real, a: nat)
    requires a < MaxAttempts && StepProbability(base, fs) < 1.0
    ensures Expected(base, fs, a) == OneMore(StepProbability(base, fs), Expected(base, fs + 1.0, a + 1))
  {
  }

  /** Every expectation is at least one attempt and at most the attempts
      left before the horizon plus one. */
  lemma {:induction false} ExpectedBounds(base: real, fs: real, a: nat)
    requires base > 0.0 && fs >= 0.0 && a <= MaxAttempts
    ensures 1.0 <= Expected(base, fs, a) <= (MaxAttempts - a + 1) as real
    decreases MaxAttempts - a
  {
    if a < MaxAttempts {
      var p := StepProbability(base, fs);
      StepProbabilityBounds(base, fs);
      if p < 1.0 {
        ExpectedBounds(base, fs + 1.0, a + 1);
        OneMoreBounds(p, Expected(base, fs + 1.0, a + 1), (MaxAttempts - a) as real);
        ExpectedStep(base, fs, a);
      }
    }
  }

  /** The inductive step of ExpectedAntitone. */
  lemma AntitoneStep(base: real, fs1: real, fs2: real, a: nat)
    requires base > 0.0 && 0.0 <= fs1 <= fs2 && a < MaxAttempts
    requires StepProbability(base, fs2) < 1.0
    requires Expected(base, fs2 + 1.0, a + 1) <= Expected(base, fs1 + 1.0, a + 1)
    ensures Expected(base, fs2, a) <= Expected(base, fs1, a)
  {
    var p1 := StepProbability(base, fs1);
    var p2 := StepProbability(base, fs2);
    var rest1 := Expected(base, fs1 + 1.0, a + 1);
    var rest2 := Expected(base, fs2 + 1.0, a + 1);
    assert 0.0 <= p1 <= p2 by {
      StepProbabilityMonotone(base, fs1, fs2);
      StepProbabilityBounds(base, fs1);
    }
    assert 0.0 <= rest2 by { ExpectedBounds(base, fs2 + 1.0, a + 1); }
    StepCompare(p1, p2, rest1, rest2);
    ExpectedStep(base, fs2, a);
    ExpectedStep(base, fs1, a);
  }

  /** A higher starting failstack never needs more attempts on average. */
  lemma {:induction false} ExpectedAntitone(base: real, fs1: real, fs2: real, a: nat)
    requires base > 0.0 && 0.0 <= fs1 <= fs2 && a <= MaxAttempts
    ensures Expected(base, fs2, a) <= Expected(base, fs1, a)
    decreases MaxAttempts - a
  {
    if a < MaxAttempts && StepProbability(base, fs2) < 1.0 {
      ExpectedAntitone(base, fs1 + 1.0, fs2 + 1.0, a + 1);
      AntitoneStep(base, fs1, fs2, a);
    } else {
      ExpectedBounds(base, fs1, a);
    }
  }

  /** The expectation never exceeds the geometric mean 1 / p of an attempt
      whose chance stayed at its current value. */
  lemma {:induction false} ExpectedAtMostGeometric(base: real, fs: real, a: nat)
    requires base > 0.0 && fs >= 0.0 && a <= MaxAttempts
    ensures StepProbability(base, fs) > 0.0
    ensures Expected(base, fs, a) <= 1.0 / StepProbability(base, fs)
    decreases MaxAttempts - a, 1
  {
    var p := StepProbability(base, fs);
    StepProbabilityBounds(base, fs);
    ReciprocalAntitone(p, 1.0);
    if a < MaxAttempts && p < 1.0 {
      ExpectedBelowGeometric(base, fs, a);
    }
  }

  /** Rising failstack strictly shortens the expectation: below certainty it
      is strictly less than the geometric mean 1 / p. */
  lemma {:induction false} ExpectedBelowGeometric(base: real, fs: real, a: nat)
    requires base > 0.0 && fs >= 0.0 && a < MaxAttempts
    requires StepProbability(base, fs) < 1.0
    ensures StepProbability(base, fs) > 0.0
    ensures Expected(base, fs, a) < 1.0 / StepProbability(base, fs)
    decreases MaxAttempts - a, 0
  {
    var p := StepProbability(base, fs);
    var q := StepProbability(base, fs + 1.0);
    var rest := Expected(base, fs + 1.0, a + 1);
    assert 0.0 < p < q by {
      StepProbabilityBounds(base, fs);
      StepProbabilityRises(base, fs);
    }
    assert rest <= 1.0 / q by { ExpectedAtMostGeometric(base, fs + 1.0, a + 1); }
    ReciprocalStrict(p, q);
    OneMoreBelowGeometric(p, rest);
    ExpectedStep(base, fs, a);
  }

  /** With protection from zero failstack, the expectation is strictly below
      the 100 / baseChance attempts of a chance that never rose. */
  lemma FeedbackBeatsGeometric(base: real)
    requires 0.0 < base < 100.0
    ensures ExactAttempts(base, 0) < 100.0 / base
  {
    assert StepProbability(base, 0.0) == base / 100.0;
    ExpectedBelowGeometric(base, 0.0, 0);
  }

  /** The solver's result never grows with the starting failstack. */
  lemma ExactAttemptsAntitone(base: real, fs1: nat, fs2: nat)
    requires base > 0.0 && fs1 <= fs2
    ensures ExactAttempts(base, fs2) <= ExactAttempts(base, fs1)
  {
    ExpectedAntitone(base, fs1 as real, fs2 as real, 0);
  }
}
