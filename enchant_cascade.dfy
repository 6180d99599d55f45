/** The multi-rung cost cascade of the older calculator. Each step takes
    100 / chance attempts; without cron, a step above the base rung that is
    not the run's first also pays, per expected downgrade, for climbing back
    once through the rung just below it (one rung of look-back only). */
module EnchantCascade {
  import opened Common
  import opened EnchantData
  import opened EnchantChance
  import opened EnchantCost

  /** The calculator's inputs: the run starts at rung `startIndex` of the
      family's ladder and makes one step per failstack. */
  datatype Request = Request(
    item: Item,
    startIndex: nat,
    failstacks: seq<nat>,
    useCron: bool,
    prices: Prices)

  /** Every step's rung lies on the ladder. */
  predicate ValidRequest(r: Request)
  {
    r.startIndex + |r.failstacks| <= |Ladder(r.item)|
  }

  function LevelAt(r: Request, index: nat): Level
    requires ValidRequest(r) && index < |r.failstacks|
  {
    Ladder(r.item)[r.startIndex + index]
  }

  function ChanceAt(r: Request, index: nat): (sc: real)
    requires ValidRequest(r) && index < |r.failstacks|
    ensures 0.0 < sc <= 90.0
  {
    SuccessChance(r.item, LevelAt(r, index), r.failstacks[index])
  }

  function AttemptsAt(r: Request, index: nat): (e: real)
    requires ValidRequest(r) && index < |r.failstacks|
    ensures e > 0.0
  {
    AttemptsPerSuccess(ChanceAt(r, index))
  }

  function CostAt(r: Request, index: nat): real
    requires ValidRequest(r) && index < |r.failstacks|
  {
    AttemptCostOf(r.item, LevelAt(r, index), r.useCron, r.prices)
  }

  /** Steps whose failures downgrade the item and are paid for. */
  predicate Downgrades(r: Request, index: nat)
    requires ValidRequest(r) && index < |r.failstacks|
  {
    !r.useCron && LevelAt(r, index) != Base && index > 0
  }

  /** The attempts of a step times their cost. */
  function DirectCost(r: Request, index: nat): real
    requires ValidRequest(r) && index < |r.failstacks|
  {
    Mul(CostAt(r, index), AttemptsAt(r, index))
  }

  /** Climbing back through the rung below once per expected downgrade:
      that rung's cost times its 100 / chance, times failures per success
      here. */
  function DowngradeCost(r: Request, index: nat): real
    requires ValidRequest(r) && 0 < index < |r.failstacks|
  {
    Mul(DirectCost(r, index - 1), FailuresPerSuccess(ChanceAt(r, index)))
  }

  function LevelCostAt(r: Request, index: nat): real
    requires ValidRequest(r) && index < |r.failstacks|
  {
    if Downgrades(r, index) then DirectCost(r, index) + DowngradeCost(r, index) else DirectCost(r, index)
  }

  /** What the calculator records per step. */
  datatype LevelResult = LevelResult(
    level: Level,
    successChance: real,
    expectedAttempts: real,
    levelCost: real)

  function StepSpec(r: Request, index: nat): LevelResult
    requires ValidRequest(r) && index < |r.failstacks|
  {
    LevelResult(LevelAt(r, index), ChanceAt(r, index), AttemptsAt(r, index), LevelCostAt(r, index))
  }

  function StepsUpTo(r: Request, n: nat): (s: seq<LevelResult>)
    requires ValidRequest(r) && n <= |r.failstacks|
    ensures |s| == n
  {
    if n == 0 then [] else StepsUpTo(r, n - 1) + [StepSpec(r, n - 1)]
  }

  function Steps(r: Request): seq<LevelResult>
    requires ValidRequest(r)
  {
    StepsUpTo(r, |r.failstacks|)
  }

  function TotalCost(levels: seq<LevelResult>): real
  {
    if levels == [] then 0.0 else TotalCost(levels[..|levels| - 1]) + levels[|levels| - 1].levelCost
  }

  function TotalAttempts(levels: seq<LevelResult>): real
  {
    if levels == [] then 0.0 else TotalAttempts(levels[..|levels| - 1]) + levels[|levels| - 1].expectedAttempts
  }

  /** What the calculator returns, before display rounding. */
  datatype Enchantment = Enchantment(levels: seq<LevelResult>, totalCost: real, totalAttempts: real)

  /** The calculator: one step per failstack, with running totals of the
      cost and the attempts. */
  method CalculateEnchantment(r: Request) returns (res: Enchantment)
    requires ValidRequest(r)
    ensures |res.levels| == |r.failstacks|
    ensures res.levels == Steps(r)
    ensures res.totalCost == TotalCost(res.levels)
    ensures res.totalAttempts == TotalAttempts(res.levels)
  {
    var levels: seq<LevelResult> := [];
    var totalAttempts := 0.0;
    var totalCostValue := 0.0;
    for index := 0 to |r.failstacks|
      invariant levels == StepsUpTo(r, index)
      invariant totalCostValue == TotalCost(levels)
      invariant totalAttempts == TotalAttempts(levels)
    {
      var l := Step(r, index);
      assert (levels + [l])[..|levels|] == levels;
      levels := levels + [l];
      totalAttempts := totalAttempts + l.expectedAttempts;
      totalCostValue := totalCostValue + l.levelCost;
    }
    res := Enchantment(levels, totalCostValue, totalAttempts);
  }

  /** One pass of the calculator's loop. */
  method Step(r: Request, index: nat) returns (l: LevelResult)
    requires ValidRequest(r) && index < |r.failstacks|
    ensures l == StepSpec(r, index)
  {
    var fs := r.failstacks[index];
    var currentLevel := LevelAt(r, index);
    var successChance := SuccessChance(r.item, currentLevel, fs);
    var failChance := 100.0 - successChance;
    var expectedAttempts := 100.0 / successChance;
    var attemptCost := CalculateAttemptCost(r.item, currentLevel, r.useCron, r.prices);
    var levelCost := 0.0;
    if !r.useCron && currentLevel != Base {
      var expectedDowngrades := failChance / successChance;
      if index > 0 {
        var downgradeCost := DowngradeOf(r, index, expectedDowngrades);
        levelCost := Mul(attemptCost, expectedAttempts) + downgradeCost;
      } else {
        levelCost := Mul(attemptCost, expectedAttempts);
      }
    } else {
      levelCost := Mul(attemptCost, expectedAttempts);
    }
    l := LevelResult(currentLevel, successChance, expectedAttempts, levelCost);
  }

  /** The look-back to the rung below. */
  method DowngradeOf(r: Request, index: nat, expectedDowngrades: real) returns (downgradeCost: real)
    requires ValidRequest(r) && 0 < index < |r.failstacks|
    requires expectedDowngrades == FailuresPerSuccess(ChanceAt(r, index))
    ensures downgradeCost == DowngradeCost(r, index)
  {
    var prevLevel := LevelAt(r, index - 1);
    var reEnhanceCost := CalculateAttemptCost(r.item, prevLevel, r.useCron, r.prices);
    var prevFS := r.failstacks[index - 1];
    var prevSuccessChance := SuccessChance(r.item, prevLevel, prevFS);
    var prevExpectedAttempts := 100.0 / prevSuccessChance;
    downgradeCost := Mul(Mul(reEnhanceCost, prevExpectedAttempts), expectedDowngrades);
  }

  // ----- Properties of the cascade -----

  lemma {:induction false} StepsAreStepSpecs(r: Request, n: nat, i: nat)
    requires ValidRequest(r) && i < n <= |r.failstacks|
    ensures StepsUpTo(r, n)[i] == StepSpec(r, i)
  {
    if i < n - 1 {
      StepsAreStepSpecs(r, n - 1, i);
    }
  }

  /** Each record holds the chance at its rung and failstack and the
      100 / chance attempts that chance implies. */
  lemma StepsRecordChances(r: Request)
    requires ValidRequest(r)
    ensures forall i :: 0 <= i < |r.failstacks| ==>
      Steps(r)[i].level == LevelAt(r, i)
      && Steps(r)[i].successChance == SuccessChance(r.item, LevelAt(r, i), r.failstacks[i])
      && Steps(r)[i].expectedAttempts == AttemptsPerSuccess(Steps(r)[i].successChance)
  {
    forall i | 0 <= i < |r.failstacks|
      ensures Steps(r)[i] == StepSpec(r, i)
    {
      StepsAreStepSpecs(r, |r.failstacks|, i);
    }
  }

  /** The first step never pays for a downgrade, even without cron. */
  lemma FirstStepNeverDowngrades(r: Request)
    requires ValidRequest(r) && |r.failstacks| > 0
    ensures StepSpec(r, 0).levelCost == DirectCost(r, 0)
  {
  }

  /** With cron, or from the base rung, a step costs its attempts only. */
  lemma ProtectedStepCost(r: Request, index: nat)
    requires ValidRequest(r) && index < |r.failstacks|
    requires r.useCron || LevelAt(r, index) == Base
    ensures StepSpec(r, index).levelCost == DirectCost(r, index)
  {
  }

  /** A downgrading step adds exactly one term, the climb through the rung
      just below; nothing from any lower rung enters. */
  lemma DowngradeLooksBackOneRung(r: Request, r': Request, index: nat)
    requires ValidRequest(r) && ValidRequest(r') && 0 < index < |r.failstacks| && index < |r'.failstacks|
    requires r.item == r'.item && r.startIndex == r'.startIndex && r.useCron == r'.useCron && r.prices == r'.prices
    requires r.failstacks[index - 1] == r'.failstacks[index - 1] && r.failstacks[index] == r'.failstacks[index]
    ensures StepSpec(r, index) == StepSpec(r', index)
  {
  }

  /** With prices that are never negative, a step never costs less than its
      own attempts, and the downgrade term it adds is never negative. */
  lemma LevelCostCoversDirect(r: Request, index: nat)
    requires ValidRequest(r) && index < |r.failstacks| && NonNegativePrices(r.prices)
    ensures DirectCost(r, index) >= 0.0
    ensures StepSpec(r, index).levelCost >= DirectCost(r, index)
  {
    assert DirectCost(r, index) >= 0.0 by {
      AttemptCostNonNegative(r.item, LevelAt(r, index), r.useCron, r.prices);
      MulNonNegative(CostAt(r, index), AttemptsAt(r, index));
    }
    if index > 0 {
      assert DirectCost(r, index - 1) >= 0.0 by {
        AttemptCostNonNegative(r.item, LevelAt(r, index - 1), r.useCron, r.prices);
        MulNonNegative(CostAt(r, index - 1), AttemptsAt(r, index - 1));
      }
      MulNonNegative(DirectCost(r, index - 1), FailuresPerSuccess(ChanceAt(r, index)));
    }
  }

  /** With prices that are never negative, the total cost is never
      negative, and every step takes more than one attempt on average. */
  lemma {:induction false} TotalsNonNegative(r: Request, n: nat)
    requires ValidRequest(r) && n <= |r.failstacks| && NonNegativePrices(r.prices)
    ensures TotalCost(StepsUpTo(r, n)) >= 0.0
    ensures TotalAttempts(StepsUpTo(r, n)) >= (n as real) * (100.0 / 90.0)
  {
    if n > 0 {
      var s := StepsUpTo(r, n);
      assert s[..n - 1] == StepsUpTo(r, n - 1);
      TotalsNonNegative(r, n - 1);
      LevelCostCoversDirect(r, n - 1);
      ReciprocalAtLeast(ChanceAt(r, n - 1));
    }
  }

  lemma ReciprocalAtLeast(sc: real)
    requires 0.0 < sc <= 90.0
    ensures AttemptsPerSuccess(sc) >= 100.0 / 90.0
  {
    assert 100.0 / sc - 100.0 / 90.0 == 100.0 * (90.0 - sc) / (sc * 90.0);
  }
}
