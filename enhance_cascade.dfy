/** The multi-rung cost cascade of the live calculator. For every step from
    the start rung it picks protected attempts (cron stones, no downgrade)
    or unprotected ones, whose failures drop the item a rung and so add the
    cost of climbing back through every earlier rung of the run. */
module EnhanceCascade {
  import opened Common
  import opened EnhanceData
  import opened EnhanceChance
  import opened EnhanceAttempts
  import opened EnhanceCost

  /** The calculator's inputs: the run starts at rung `startIndex` of the
      family's ladder and makes one step per failstack; `cronBox` and
      `costumeBox` are the two cron checkboxes, `useMemFrags` the repair one. */
  datatype Request = Request(
    item: Item,
    startIndex: nat,
    failstacks: seq<nat>,
    cronBox: bool,
    costumeBox: bool,
    useMemFrags: bool,
    prices: Prices)

  /** Every step's rung lies on the ladder (the top rung itself has no
      requirements and falls back to defaults). */
  predicate ValidRequest(r: Request)
  {
    r.startIndex + |r.failstacks| <= |Ladder(r.item)|
  }

  /** Either cron checkbox turns protection on for the whole run. */
  predicate UseCron(r: Request)
  {
    r.cronBox || r.costumeBox
  }

  function LevelAt(r: Request, index: nat): Level
    requires ValidRequest(r) && index < |r.failstacks|
  {
    Ladder(r.item)[r.startIndex + index]
  }

  /** A step is protected when cron stones are on, and the first step is
      always protected unless it starts from the base rung, so the item
      never drops below where the run began. */
  predicate Protected(r: Request, index: nat)
    requires ValidRequest(r) && index < |r.failstacks|
  {
    UseCron(r) || (index == 0 && LevelAt(r, index) != Base)
  }

  /** A step whose failures downgrade the item. */
  predicate Recovers(r: Request, index: nat)
    requires ValidRequest(r) && index < |r.failstacks|
  {
    !Protected(r, index) && LevelAt(r, index) != Base
  }

  function ChanceAt(r: Request, index: nat): (sc: real)
    requires ValidRequest(r) && index < |r.failstacks|
    ensures 0.0 < sc <= ChanceCap
  {
    SuccessChance(r.item, LevelAt(r, index), r.failstacks[index])
  }

  /** Attempts per success when the chance never moves: 100 / chance. */
  function RawAttemptsAt(r: Request, index: nat): (e: real)
    requires ValidRequest(r) && index < |r.failstacks|
    ensures e > 0.0
  {
    AttemptsPerSuccess(ChanceAt(r, index))
  }

  /** Expected downgrades per success at a step: its failures per success. */
  function Downgrades(r: Request, index: nat): (d: real)
    requires ValidRequest(r) && index < |r.failstacks|
    ensures d >= 0.0
  {
    FailuresPerSuccess(ChanceAt(r, index))
  }

  /** Table base chance of a rung, 0 for a rung without requirements. */
  function TableBaseChance(item: Item, level: Level): real
  {
    match Requirement(item, level)
    case Some(req) => req.baseChance
    case None => 0.0
  }

  /** Protected steps use the exact expectation with rising failstack,
      unprotected ones the raw 100 / chance. */
  function AttemptsAt(r: Request, index: nat): real
    requires ValidRequest(r) && index < |r.failstacks|
  {
    if Protected(r, index) then ExactAttempts(TableBaseChance(r.item, LevelAt(r, index)), r.failstacks[index])
    else RawAttemptsAt(r, index)
  }

  function CostAt(r: Request, index: nat): AttemptCost
    requires ValidRequest(r) && index < |r.failstacks|
  {
    AttemptCostOf(r.item, LevelAt(r, index), Protected(r, index), r.useMemFrags, r.costumeBox, r.prices)
  }

  // ----- Downgrade recovery -----

  /** What climbing back through earlier rungs costs. */
  datatype Recovery = Recovery(
    cost: real,
    memFragsCost: real,
    memFragsCount: real,
    cronCost: real,
    cronCount: real)

  const NoRecovery := Recovery(0.0, 0.0, 0.0, 0.0, 0.0)

  function Plus(x: Recovery, y: Recovery): Recovery
  {
    Recovery(x.cost + y.cost, x.memFragsCost + y.memFragsCost, x.memFragsCount + y.memFragsCount,
             x.cronCost + y.cronCost, x.cronCount + y.cronCount)
  }

  /** Walking down from rung k takes rung k's share, then the walk below
      it with the next multiplier; so adding that share to what is already
      collected leaves the rest of the walk to go. */
  lemma RecoveryWalkStep(r: Request, k: nat, m: real, acc: Recovery)
    requires ValidRequest(r) && k < |r.failstacks|
    ensures Plus(Plus(acc, RecoveryRung(r, k, m)), RecoveryWalk(r, k, NextMultiplier(r, k, m)))
         == Plus(acc, RecoveryWalk(r, k + 1, m))
  {
    PlusAssociative(acc, RecoveryRung(r, k, m), RecoveryWalk(r, k, NextMultiplier(r, k, m)));
  }

  lemma PlusNoRecovery(x: Recovery)
    ensures Plus(NoRecovery, x) == x && Plus(x, NoRecovery) == x
  {
  }

  lemma PlusAssociative(x: Recovery, y: Recovery, z: Recovery)
    ensures Plus(Plus(x, y), z) == Plus(x, Plus(y, z))
  {
  }

  /** Recovery through an earlier rung is protected only by the global cron
      setting, or because it is the run's first, non-base rung. */
  predicate RecoveryProtected(r: Request, prevIdx: nat)
    requires ValidRequest(r) && prevIdx < |r.failstacks|
  {
    UseCron(r) || (prevIdx == 0 && LevelAt(r, prevIdx) != Base)
  }

  /** Climbing through rung `prevIdx` `m` times, each time with 100 / chance
      attempts. */
  function RecoveryRung(r: Request, prevIdx: nat, m: real): Recovery
    requires ValidRequest(r) && prevIdx < |r.failstacks|
  {
    var protected := RecoveryProtected(r, prevIdx);
    var c := AttemptCostOf(r.item, LevelAt(r, prevIdx), protected, r.useMemFrags, r.costumeBox, r.prices);
    var ea := RawAttemptsAt(r, prevIdx);
    var cronCount := if protected then Mul(Mul(CronStones(r.item, LevelAt(r, prevIdx)) as real, ea), m) else 0.0;
    Recovery(
      Mul(Mul(c.totalCost, ea), m),
      if r.useMemFrags then Mul(Mul(c.memFragsCost, ea), m) else 0.0,
      if r.useMemFrags then Mul(Mul(c.memFragsCount as real, ea), m) else 0.0,
      if protected then Mul(CronPrice(r.costumeBox), cronCount) else 0.0,
      cronCount)
  }

  /** Share of a rung's attempts that fail. */
  function FailRate(sc: real): real
  {
    (100.0 - sc) / 100.0
  }

  /** The multiplier handed to the rung below `prevIdx`: every climb through
      `prevIdx` fails its fail rate times its 100 / chance attempts, and each
      failure drops one rung more. */
  function NextMultiplier(r: Request, prevIdx: nat, m: real): real
    requires ValidRequest(r) && prevIdx < |r.failstacks|
  {
    Mul(m, Mul(FailRate(ChanceAt(r, prevIdx)), RawAttemptsAt(r, prevIdx)))
  }

  /** Recovery through rungs k - 1 down to 0, the highest climbed `m` times. */
  function RecoveryWalk(r: Request, k: nat, m: real): Recovery
    requires ValidRequest(r) && k <= |r.failstacks|
    decreases k
  {
    if k == 0 then NoRecovery
    else Plus(RecoveryRung(r, k - 1, m), RecoveryWalk(r, k - 1, NextMultiplier(r, k - 1, m)))
  }

  /** The recovery a step pays for: none unless its failures downgrade. */
  function RecoveryAt(r: Request, index: nat): Recovery
    requires ValidRequest(r) && index < |r.failstacks|
  {
    if Recovers(r, index) then RecoveryWalk(r, index, Downgrades(r, index)) else NoRecovery
  }

  // ----- Recovery attempts -----

  function Pow(x: real, n: nat): real
  {
    if n == 0 then 1.0 else Mul(x, Pow(x, n - 1))
  }

  /** Falloff per rung of distance applied to deeper recovery attempts. */
  const CascadeFalloff: real := 0.85

  /** Attempts spent re-climbing rung `prevIdx` for the downgrades of step
      `index`, damped by 0.85 per rung of distance beyond the first. */
  function RecoveryAttemptTerm(r: Request, index: nat, prevIdx: nat): real
    requires ValidRequest(r) && prevIdx < index < |r.failstacks|
  {
    var direct := Mul(RawAttemptsAt(r, prevIdx), Downgrades(r, index));
    if prevIdx == index - 1 then direct
    else Mul(direct, Pow(CascadeFalloff, index - prevIdx - 1))
  }

  /** The terms for rungs 0 .. n - 1. */
  function RecoveryAttemptSum(r: Request, index: nat, n: nat): real
    requires ValidRequest(r) && n <= index < |r.failstacks|
  {
    if n == 0 then 0.0 else RecoveryAttemptSum(r, index, n - 1) + RecoveryAttemptTerm(r, index, n - 1)
  }

  /** Recovery attempts are counted without cron, above the base rung and
      after the first step. */
  function RecoveryAttemptsAt(r: Request, index: nat): real
    requires ValidRequest(r) && index < |r.failstacks|
  {
    if !UseCron(r) && LevelAt(r, index) != Base && index > 0 then RecoveryAttemptSum(r, index, index)
    else 0.0
  }

  // ----- One step -----

  datatype LevelResult = LevelResult(
    level: Level,
    usedCron: bool,
    successChance: real,
    expectedAttempts: real,
    rawAttempts: real,
    recoveryAttempts: real,
    levelCost: real,
    materialsCost: real,
    memFragsCost: real,
    memFragsCount: real,
    cronCost: real,
    cronStoneCount: real,
    recoveryCronCost: real,
    recoveryCronCount: real)

  /** Attempts times their cost, plus the recovery of a downgrading step. */
  function LevelCostAt(r: Request, index: nat): real
    requires ValidRequest(r) && index < |r.failstacks|
  {
    var direct := Mul(CostAt(r, index).totalCost, AttemptsAt(r, index));
    if Recovers(r, index) then direct + RecoveryAt(r, index).cost else direct
  }

  /** Fragments for the durability lost: one set per failure of a
      downgrading step (its attempts less the final success) plus those of
      the recovery, otherwise one set per attempt. */
  function MemFragsCostAt(r: Request, index: nat): real
    requires ValidRequest(r) && index < |r.failstacks|
  {
    var c := CostAt(r, index);
    if !r.useMemFrags then 0.0
    else if Recovers(r, index) then Mul(c.memFragsCost, AttemptsAt(r, index) - 1.0) + RecoveryAt(r, index).memFragsCost
    else Mul(c.memFragsCost, AttemptsAt(r, index))
  }

  function MemFragsCountAt(r: Request, index: nat): real
    requires ValidRequest(r) && index < |r.failstacks|
  {
    var c := CostAt(r, index);
    if !r.useMemFrags then 0.0
    else if Recovers(r, index) then Mul(c.memFragsCount as real, AttemptsAt(r, index) - 1.0) + RecoveryAt(r, index).memFragsCount
    else Mul(c.memFragsCount as real, AttemptsAt(r, index))
  }

  function CronCostAt(r: Request, index: nat): real
    requires ValidRequest(r) && index < |r.failstacks|
  {
    if Protected(r, index) then Mul(CostAt(r, index).cronCost, AttemptsAt(r, index)) else 0.0
  }

  function CronCountAt(r: Request, index: nat): real
    requires ValidRequest(r) && index < |r.failstacks|
  {
    if Protected(r, index) then Mul(CronStones(r.item, LevelAt(r, index)) as real, AttemptsAt(r, index)) else 0.0
  }

  /** Everything the calculator records for step `index`. */
  function StepSpec(r: Request, index: nat): LevelResult
    requires ValidRequest(r) && index < |r.failstacks|
  {
    LevelResult(
      LevelAt(r, index),
      Protected(r, index),
      ChanceAt(r, index),
      AttemptsAt(r, index),
      RawAttemptsAt(r, index),
      RecoveryAttemptsAt(r, index),
      LevelCostAt(r, index),
      Mul(CostAt(r, index).materialsCost, AttemptsAt(r, index)),
      MemFragsCostAt(r, index),
      MemFragsCountAt(r, index),
      CronCostAt(r, index),
      CronCountAt(r, index),
      RecoveryAt(r, index).cronCost,
      RecoveryAt(r, index).cronCount)
  }

  /** The records of all steps, one per failstack. */
  function Steps(r: Request): seq<LevelResult>
    requires ValidRequest(r)
  {
    seq(|r.failstacks|, i requires 0 <= i < |r.failstacks| => StepSpec(r, i))
  }

  // ----- Totals -----

  /** The per-step quantities the calculator adds up. */
  datatype Field = LevelCostOf | MaterialsOf | AttemptsOf | MemFragsCostOf | MemFragsCountOf
                 | CronCostOf | CronCountOf | RecoveryCronCostOf | RecoveryCronCountOf

  function FieldValue(l: LevelResult, f: Field): real
  {
    match f
    case LevelCostOf => l.levelCost
    case MaterialsOf => l.materialsCost
    case AttemptsOf => l.expectedAttempts + l.recoveryAttempts
    case MemFragsCostOf => l.memFragsCost
    case MemFragsCountOf => l.memFragsCount
    case CronCostOf => l.cronCost
    case CronCountOf => l.cronStoneCount
    case RecoveryCronCostOf => l.recoveryCronCost
    case RecoveryCronCountOf => l.recoveryCronCount
  }

  /** The sum of one quantity over the steps. */
  function Total(levels: seq<LevelResult>, f: Field): real
  {
    if levels == [] then 0.0
    else Total(levels[..|levels| - 1], f) + FieldValue(levels[|levels| - 1], f)
  }

  /** The running totals of the calculator's outer loop. */
  datatype Totals = Totals(
    attempts: real,
    cost: real,
    memFragsCost: real,
    memFragsCount: real,
    cronCost: real,
    cronCount: real)

  const NoTotals := Totals(0.0, 0.0, 0.0, 0.0, 0.0, 0.0)

  /** One pass of the outer loop's accumulation; recovery cron stones are
      counted on top of the step's own. */
  function AddLevel(t: Totals, l: LevelResult): Totals
  {
    Totals(
      t.attempts + (l.expectedAttempts + l.recoveryAttempts),
      t.cost + l.levelCost,
      t.memFragsCost + l.memFragsCost,
      t.memFragsCount + l.memFragsCount,
      t.cronCost + l.recoveryCronCost + l.cronCost,
      t.cronCount + l.recoveryCronCount + l.cronStoneCount)
  }

  function Accumulated(levels: seq<LevelResult>): Totals
  {
    if levels == [] then NoTotals
    else AddLevel(Accumulated(levels[..|levels| - 1]), levels[|levels| - 1])
  }

  /** What the calculator returns, before display rounding. */
  datatype Enhancement = Enhancement(
    levels: seq<LevelResult>,
    totalCost: real,
    totalMaterialCost: real,
    totalAttempts: real,
    totalMemFragsCost: real,
    totalMemFragsCount: real,
    totalCronCost: real,
    totalCronCount: real)

  // ----- The calculator -----

  /** The calculator: one step per failstack, then the totals. Each total is
      the sum of its per-step column; the cron totals add the stones spent
      in recovery to the steps' own. */
  method CalculateEnhancement(r: Request) returns (res: Enhancement)
    requires ValidRequest(r)
    ensures |res.levels| == |r.failstacks|
    ensures res.levels == Steps(r)
    ensures res.totalCost == Total(res.levels, LevelCostOf)
    ensures res.totalMaterialCost == Total(res.levels, MaterialsOf)
    ensures res.totalAttempts == Total(res.levels, AttemptsOf)
    ensures res.totalMemFragsCost == Total(res.levels, MemFragsCostOf)
    ensures res.totalMemFragsCount == Total(res.levels, MemFragsCountOf)
    ensures res.totalCronCost == Total(res.levels, CronCostOf) + Total(res.levels, RecoveryCronCostOf)
    ensures res.totalCronCount == Total(res.levels, CronCountOf) + Total(res.levels, RecoveryCronCountOf)
    ensures NonNegativePrices(r.prices) ==> res.totalCronCost >= Total(res.levels, CronCostOf)
  {
    var levels, totals := StepLoop(r);
    var totalMaterialCost := MaterialTotal(levels);
    AccumulatedIsTotal(levels);
    if NonNegativePrices(r.prices) {
      RecoveryCronTotalNonNegative(r);
    }
    res := Enhancement(levels, totals.cost, totalMaterialCost, totals.attempts, totals.memFragsCost,
                       totals.memFragsCount, totals.cronCost, totals.cronCount);
  }

  /** The outer loop: one record per failstack, and the running totals. */
  method StepLoop(r: Request) returns (levels: seq<LevelResult>, totals: Totals)
    requires ValidRequest(r)
    ensures levels == Steps(r)
    ensures totals == Accumulated(levels)
  {
    ghost var all := Steps(r);
    levels, totals := [], NoTotals;
    for index := 0 to |r.failstacks|
      invariant levels == all[..index]
      invariant totals == Accumulated(levels)
    {
      var l := Step(r, index);
      assert l == all[index];
      totals := AddStep(totals, l);
      PrefixExtend(all, index);
      assert (levels + [l])[..|levels|] == levels;
      levels := levels + [l];
    }
    assert all[..|all|] == all;
  }


  /** The closing loop that adds up the per-step materials. */
  method MaterialTotal(levels: seq<LevelResult>) returns (totalMaterialCost: real)
    ensures totalMaterialCost == Total(levels, MaterialsOf)
  {
    totalMaterialCost := 0.0;
    for i := 0 to |levels|
      invariant totalMaterialCost == Total(levels[..i], MaterialsOf)
    {
      assert levels[..i + 1][..i] == levels[..i];
      totalMaterialCost := totalMaterialCost + levels[i].materialsCost;
    }
    assert levels[..|levels|] == levels;
  }

  /** The accumulation at the end of a pass of the outer loop. */
  method AddStep(t: Totals, l: LevelResult) returns (t': Totals)
    ensures t' == AddLevel(t, l)
  {
    var totalAttempts, totalCostValue := t.attempts, t.cost;
    var totalMemFragsCost, totalMemFragsCount := t.memFragsCost, t.memFragsCount;
    var totalCronCost, totalCronCount := t.cronCost, t.cronCount;
    totalCronCost := totalCronCost + l.recoveryCronCost;
    totalCronCount := totalCronCount + l.recoveryCronCount;
    totalAttempts := totalAttempts + (l.expectedAttempts + l.recoveryAttempts);
    totalCostValue := totalCostValue + l.levelCost;
    totalMemFragsCost := totalMemFragsCost + l.memFragsCost;
    totalMemFragsCount := totalMemFragsCount + l.memFragsCount;
    totalCronCost := totalCronCost + l.cronCost;
    totalCronCount := totalCronCount + l.cronStoneCount;
    t' := Totals(totalAttempts, totalCostValue, totalMemFragsCost, totalMemFragsCount, totalCronCost, totalCronCount);
  }

  /** One pass of the calculator's outer loop. */
  method Step(r: Request, index: nat) returns (l: LevelResult)
    requires ValidRequest(r) && index < |r.failstacks|
    ensures l == StepSpec(r, index)
  {
    var currentLevel := LevelAt(r, index);
    var useCronForThisLevel := UseCron(r) || (index == 0 && currentLevel != Base);
    var successChance, rawAttempts, expectedAttempts := StepAttempts(r, index);
    var costDetails := CalculateAttemptCost(r.item, currentLevel, useCronForThisLevel, r.useMemFrags,
                                            r.costumeBox, r.prices);
    var levelCost, recovery := StepCost(r, index, successChance, expectedAttempts, costDetails);
    var levelMemFragsCost, levelMemFragsCount := StepMemFrags(r, index, expectedAttempts, costDetails, recovery);
    var recoveryAttempts := 0.0;
    if !UseCron(r) && currentLevel != Base && index > 0 {
      recoveryAttempts := RecoveryAttemptsLoop(r, index);
    }
    var cronCost, cronStoneCount := StepCron(r, index, expectedAttempts, costDetails);
    var materialsCost := Mul(costDetails.materialsCost, expectedAttempts);
    l := LevelResult(currentLevel, useCronForThisLevel, successChance, expectedAttempts, rawAttempts,
                     recoveryAttempts, levelCost, materialsCost, levelMemFragsCost, levelMemFragsCount,
                     cronCost, cronStoneCount, recovery.cronCost, recovery.cronCount);
  }

  /** The chance of a step and its attempts: the raw 100 / chance, and the
      exact solver's expectation for a protected step. */
  method StepAttempts(r: Request, index: nat) returns (successChance: real, rawAttempts: real, expectedAttempts: real)
    requires ValidRequest(r) && index < |r.failstacks|
    ensures successChance == ChanceAt(r, index)
    ensures rawAttempts == RawAttemptsAt(r, index)
    ensures expectedAttempts == AttemptsAt(r, index)
  {
    var fs := r.failstacks[index];
    var currentLevel := LevelAt(r, index);
    var useCronForThisLevel := UseCron(r) || (index == 0 && currentLevel != Base);
    successChance := SuccessChance(r.item, currentLevel, fs);
    var baseChance := TableBaseChance(r.item, currentLevel);
    rawAttempts := AttemptsPerSuccess(successChance);
    if useCronForThisLevel {
      expectedAttempts := ExactAverageAttempts(baseChance, fs);
    } else {
      expectedAttempts := rawAttempts;
    }
  }

  /** The cost of a step: a downgrading step adds the recovery through every
      earlier rung. The first step never downgrades: it is protected unless
      it starts from the base rung. */
  method StepCost(r: Request, index: nat, successChance: real, expectedAttempts: real, costDetails: AttemptCost)
    returns (levelCost: real, recovery: Recovery)
    requires ValidRequest(r) && index < |r.failstacks|
    requires successChance == ChanceAt(r, index) && expectedAttempts == AttemptsAt(r, index)
    requires costDetails == CostAt(r, index)
    ensures levelCost == LevelCostAt(r, index)
    ensures recovery == RecoveryAt(r, index)
  {
    var currentLevel := LevelAt(r, index);
    var useCronForThisLevel := UseCron(r) || (index == 0 && currentLevel != Base);
    recovery := NoRecovery;
    if !useCronForThisLevel && currentLevel != Base {
      var expectedDowngrades := FailuresPerSuccess(successChance);
      if index > 0 {
        recovery := RecoveryLoop(r, index, expectedDowngrades);
        levelCost := Mul(costDetails.totalCost, expectedAttempts) + recovery.cost;
      } else {
        assert false;
        levelCost := 0.0;
      }
    } else {
      levelCost := Mul(costDetails.totalCost, expectedAttempts);
    }
  }

  /** The fragments of a step, given its recovery. */
  method StepMemFrags(r: Request, index: nat, expectedAttempts: real, costDetails: AttemptCost, recovery: Recovery)
    returns (levelMemFragsCost: real, levelMemFragsCount: real)
    requires ValidRequest(r) && index < |r.failstacks|
    requires expectedAttempts == AttemptsAt(r, index) && costDetails == CostAt(r, index)
    requires recovery == RecoveryAt(r, index)
    ensures levelMemFragsCost == MemFragsCostAt(r, index)
    ensures levelMemFragsCount == MemFragsCountAt(r, index)
  {
    var currentLevel := LevelAt(r, index);
    var useCronForThisLevel := UseCron(r) || (index == 0 && currentLevel != Base);
    levelMemFragsCost, levelMemFragsCount := 0.0, 0.0;
    if r.useMemFrags {
      if !useCronForThisLevel && currentLevel != Base {
        levelMemFragsCost := Mul(costDetails.memFragsCost, expectedAttempts - 1.0) + recovery.memFragsCost;
        levelMemFragsCount := Mul(costDetails.memFragsCount as real, expectedAttempts - 1.0) + recovery.memFragsCount;
      } else {
        levelMemFragsCost := Mul(costDetails.memFragsCost, expectedAttempts);
        levelMemFragsCount := Mul(costDetails.memFragsCount as real, expectedAttempts);
      }
    }
  }

  /** The cron stones of a step: only a protected step pays for them. */
  method StepCron(r: Request, index: nat, expectedAttempts: real, costDetails: AttemptCost)
    returns (cronCost: real, cronStoneCount: real)
    requires ValidRequest(r) && index < |r.failstacks|
    requires expectedAttempts == AttemptsAt(r, index) && costDetails == CostAt(r, index)
    ensures cronCost == CronCostAt(r, index)
    ensures cronStoneCount == CronCountAt(r, index)
  {
    var currentLevel := LevelAt(r, index);
    var useCronForThisLevel := UseCron(r) || (index == 0 && currentLevel != Base);
    cronCost, cronStoneCount := 0.0, 0.0;
    if useCronForThisLevel {
      cronStoneCount := Mul(CronStones(r.item, currentLevel) as real, expectedAttempts);
      cronCost := Mul(costDetails.cronCost, expectedAttempts);
    }
  }

  /** The recovery loop of a downgrading step: rungs index - 1 down to 0,
      the multiplier starting at the step's expected downgrades. */
  method RecoveryLoop(r: Request, index: nat, expectedDowngrades: real) returns (rec: Recovery)
    requires ValidRequest(r) && index < |r.failstacks|
    ensures rec == RecoveryWalk(r, index, expectedDowngrades)
  {
    var recoveryCostMultiplier := expectedDowngrades;
    rec := NoRecovery;
    PlusNoRecovery(RecoveryWalk(r, index, expectedDowngrades));
    for prevIdx := index downto 0
      invariant Plus(rec, RecoveryWalk(r, prevIdx, recoveryCostMultiplier)) == RecoveryWalk(r, index, expectedDowngrades)
    {
      var part, next := RecoveryThroughRung(r, prevIdx, recoveryCostMultiplier);
      RecoveryWalkStep(r, prevIdx, recoveryCostMultiplier, rec);
      rec := Plus(rec, part);
      recoveryCostMultiplier := next;
    }
    PlusNoRecovery(rec);
  }

  /** One pass of the recovery loop: rung `prevIdx` climbed `m` times, and
      the multiplier handed to the rung below. */
  method RecoveryThroughRung(r: Request, prevIdx: nat, m: real) returns (part: Recovery, next: real)
    requires ValidRequest(r) && prevIdx < |r.failstacks|
    ensures part == RecoveryRung(r, prevIdx, m)
    ensures next == NextMultiplier(r, prevIdx, m)
  {
    var prevLevel := LevelAt(r, prevIdx);
    var useCronForRecovery := UseCron(r) || (prevIdx == 0 && prevLevel != Base);
    var c := CalculateAttemptCost(r.item, prevLevel, useCronForRecovery, r.useMemFrags, r.costumeBox, r.prices);
    var levelSuccessChance := SuccessChance(r.item, prevLevel, r.failstacks[prevIdx]);
    var levelExpectedAttempts := AttemptsPerSuccess(levelSuccessChance);
    var levelTotalCost := Mul(Mul(c.totalCost, levelExpectedAttempts), m);
    var levelMemCost, levelMemCount := 0.0, 0.0;
    if r.useMemFrags {
      levelMemCost := Mul(Mul(c.memFragsCost, levelExpectedAttempts), m);
      levelMemCount := Mul(Mul(c.memFragsCount as real, levelExpectedAttempts), m);
    }
    var levelCronCost, levelCronCount := 0.0, 0.0;
    if useCronForRecovery {
      levelCronCount := Mul(Mul(CronStones(r.item, prevLevel) as real, levelExpectedAttempts), m);
      levelCronCost := Mul(CronPrice(r.costumeBox), levelCronCount);
    }
    part := Recovery(levelTotalCost, levelMemCost, levelMemCount, levelCronCost, levelCronCount);
    var levelFailRate := FailRate(levelSuccessChance);
    next := Mul(m, Mul(levelFailRate, levelExpectedAttempts));
  }

  /** The recovery-attempts loop over rungs 0 .. index - 1. */
  method RecoveryAttemptsLoop(r: Request, index: nat) returns (recoveryAttempts: real)
    requires ValidRequest(r) && 0 < index < |r.failstacks|
    ensures recoveryAttempts == RecoveryAttemptSum(r, index, index)
  {
    recoveryAttempts := 0.0;
    for prevIdx := 0 to index
      invariant recoveryAttempts == RecoveryAttemptSum(r, index, prevIdx)
    {
      var term := RecoveryAttemptsOf(r, index, prevIdx);
      recoveryAttempts := recoveryAttempts + term;
    }
  }

  /** One pass of the recovery-attempts loop: what rung `prevIdx` adds. */
  method RecoveryAttemptsOf(r: Request, index: nat, prevIdx: nat) returns (term: real)
    requires ValidRequest(r) && prevIdx < index < |r.failstacks|
    ensures term == RecoveryAttemptTerm(r, index, prevIdx)
  {
    var successChance := SuccessChance(r.item, LevelAt(r, index), r.failstacks[index]);
    var expectedDowngrades := FailuresPerSuccess(successChance);
    var prevSuccessChance := SuccessChance(r.item, LevelAt(r, prevIdx), r.failstacks[prevIdx]);
    var prevExpectedAttempts := AttemptsPerSuccess(prevSuccessChance);
    if prevIdx == index - 1 {
      term := Mul(prevExpectedAttempts, expectedDowngrades);
    } else {
      var cascadeFactor := Pow(CascadeFalloff, index - prevIdx - 1);
      term := Mul(Mul(prevExpectedAttempts, expectedDowngrades), cascadeFactor);
    }
  }

  // ----- Properties -----

  /** The running totals are the column sums. */
  lemma {:induction false} AccumulatedIsTotal(levels: seq<LevelResult>)
    ensures Accumulated(levels) == Totals(
      Total(levels, AttemptsOf), Total(levels, LevelCostOf), Total(levels, MemFragsCostOf),
      Total(levels, MemFragsCountOf), Total(levels, CronCostOf) + Total(levels, RecoveryCronCostOf),
      Total(levels, CronCountOf) + Total(levels, RecoveryCronCountOf))
  {
    if levels != [] {
      AccumulatedIsTotal(levels[..|levels| - 1]);
    }
  }

  /** The i-th record is the specification of step i. */
  /** The first step never pays for a downgrade, even without cron: either
      it starts from the base rung, or it is protected. */
  lemma FirstStepNeverDowngrades(r: Request)
    requires ValidRequest(r) && |r.failstacks| > 0
    ensures !Recovers(r, 0)
    ensures RecoveryAt(r, 0) == NoRecovery && RecoveryAttemptsAt(r, 0) == 0.0
    ensures StepSpec(r, 0).levelCost == Mul(CostAt(r, 0).totalCost, AttemptsAt(r, 0))
  {
  }

  /** After the first step the rung is never the base rung, so protection
      there is exactly the global cron setting. */
  lemma LaterStepsProtectedOnlyByCron(r: Request, index: nat)
    requires ValidRequest(r) && 0 < index < |r.failstacks|
    ensures LevelAt(r, index) != Base
    ensures Protected(r, index) <==> UseCron(r)
    ensures Recovers(r, index) <==> !UseCron(r)
  {
  }

  /** A protected step, or one from the base rung, costs exactly its attempts
      times the attempt cost, with no recovery of any kind. */
  lemma NonDowngradingStepCost(r: Request, index: nat)
    requires ValidRequest(r) && index < |r.failstacks|
    requires Protected(r, index) || LevelAt(r, index) == Base
    ensures StepSpec(r, index).levelCost == Mul(CostAt(r, index).totalCost, AttemptsAt(r, index))
    ensures StepSpec(r, index).recoveryAttempts == 0.0
    ensures StepSpec(r, index).recoveryCronCost == 0.0 && StepSpec(r, index).recoveryCronCount == 0.0
  {
  }

  /** The multiplier of each rung below is the rung's own expected
      downgrades per success: fail rate times 100 / chance is
      (100 - chance) / chance. */
  lemma NextMultiplierIsDowngrades(r: Request, prevIdx: nat, m: real)
    requires ValidRequest(r) && prevIdx < |r.failstacks|
    ensures NextMultiplier(r, prevIdx, m) == Mul(m, Downgrades(r, prevIdx))
  {
    FailRateTimesAttempts(ChanceAt(r, prevIdx));
  }

  /** Failures per attempt times attempts per success is failures per
      success. */
  lemma FailRateTimesAttempts(sc: real)
    requires 0.0 < sc <= 100.0
    ensures Mul(FailRate(sc), AttemptsPerSuccess(sc)) == FailuresPerSuccess(sc)
  {
    assert FailRate(sc) * (100.0 / sc) == (100.0 - sc) / sc;
  }

  /** One rung's share of a recovery is never negative. */
  lemma RecoveryRungNonNegative(r: Request, prevIdx: nat, m: real)
    requires ValidRequest(r) && prevIdx < |r.failstacks|
    requires NonNegativePrices(r.prices) && m >= 0.0
    ensures var x := RecoveryRung(r, prevIdx, m);
      x.cost >= 0.0 && x.memFragsCost >= 0.0 && x.memFragsCount >= 0.0 && x.cronCost >= 0.0 && x.cronCount >= 0.0
    ensures NextMultiplier(r, prevIdx, m) >= 0.0
  {
    var protected := RecoveryProtected(r, prevIdx);
    var level := LevelAt(r, prevIdx);
    var c := AttemptCostOf(r.item, level, protected, r.useMemFrags, r.costumeBox, r.prices);
    var ea := RawAttemptsAt(r, prevIdx);
    AttemptCostNonNegative(r.item, level, protected, r.useMemFrags, r.costumeBox, r.prices);
    MulNonNegative(c.totalCost, ea);
    MulNonNegative(Mul(c.totalCost, ea), m);
    MulNonNegative(c.memFragsCost, ea);
    MulNonNegative(Mul(c.memFragsCost, ea), m);
    MulNonNegative(c.memFragsCount as real, ea);
    MulNonNegative(Mul(c.memFragsCount as real, ea), m);
    MulNonNegative(CronStones(r.item, level) as real, ea);
    MulNonNegative(Mul(CronStones(r.item, level) as real, ea), m);
    MulNonNegative(CronPrice(r.costumeBox), Mul(Mul(CronStones(r.item, level) as real, ea), m));
    MulNonNegative(FailRate(ChanceAt(r, prevIdx)), ea);
    MulNonNegative(m, Mul(FailRate(ChanceAt(r, prevIdx)), ea));
  }

  /** With prices that are never negative, recovering through earlier rungs
      never pays back anything. */
  lemma {:induction false} RecoveryWalkNonNegative(r: Request, k: nat, m: real)
    requires ValidRequest(r) && k <= |r.failstacks|
    requires NonNegativePrices(r.prices) && m >= 0.0
    ensures var x := RecoveryWalk(r, k, m);
      x.cost >= 0.0 && x.memFragsCost >= 0.0 && x.memFragsCount >= 0.0 && x.cronCost >= 0.0 && x.cronCount >= 0.0
    decreases k
  {
    if k > 0 {
      RecoveryRungNonNegative(r, k - 1, m);
      RecoveryWalkNonNegative(r, k - 1, NextMultiplier(r, k - 1, m));
    }
  }

  /** A step never costs less than its own attempts: a downgrading step adds
      a non-negative recovery on top, any other step costs exactly that. */
  lemma LevelCostCoversDirect(r: Request, index: nat)
    requires ValidRequest(r) && index < |r.failstacks|
    requires NonNegativePrices(r.prices)
    ensures StepSpec(r, index).levelCost >= Mul(CostAt(r, index).totalCost, AttemptsAt(r, index))
    ensures StepSpec(r, index).recoveryCronCost >= 0.0
  {
    if Recovers(r, index) {
      RecoveryWalkNonNegative(r, index, Downgrades(r, index));
    }
  }

  /** Below the cap, each failure is a downgrade: a positive number per
      success. */
  lemma DowngradesPositive(r: Request, index: nat)
    requires ValidRequest(r) && index < |r.failstacks|
    ensures Downgrades(r, index) > 0.0
  {
    var sc := ChanceAt(r, index);
    assert 100.0 - sc > 0.0;
  }

  lemma {:induction false} PowPositive(x: real, n: nat)
    requires x > 0.0
    ensures Pow(x, n) > 0.0
  {
    if n > 0 {
      PowPositive(x, n - 1);
      MulPositive(x, Pow(x, n - 1));
    }
  }

  /** Re-climbing any earlier rung takes a positive number of attempts. */
  lemma RecoveryAttemptTermPositive(r: Request, index: nat, prevIdx: nat)
    requires ValidRequest(r) && prevIdx < index < |r.failstacks|
    ensures RecoveryAttemptTerm(r, index, prevIdx) > 0.0
  {
    var direct := Mul(RawAttemptsAt(r, prevIdx), Downgrades(r, index));
    DowngradesPositive(r, index);
    MulPositive(RawAttemptsAt(r, prevIdx), Downgrades(r, index));
    if prevIdx != index - 1 {
      PowPositive(CascadeFalloff, index - prevIdx - 1);
      MulPositive(direct, Pow(CascadeFalloff, index - prevIdx - 1));
    }
  }

  /** Every earlier rung adds a positive number of recovery attempts. */
  lemma {:induction false} RecoveryAttemptSumPositive(r: Request, index: nat, n: nat)
    requires ValidRequest(r) && 0 < n <= index < |r.failstacks|
    ensures RecoveryAttemptSum(r, index, n) > 0.0
  {
    RecoveryAttemptTermPositive(r, index, n - 1);
    if n > 1 {
      RecoveryAttemptSumPositive(r, index, n - 1);
    }
  }

  /** A later step without cron always re-climbs: its recovery attempts are
      positive. */
  lemma RecoveryAttemptsPositive(r: Request, index: nat)
    requires ValidRequest(r) && 0 < index < |r.failstacks| && !UseCron(r)
    ensures StepSpec(r, index).recoveryAttempts > 0.0
  {
    RecoveryAttemptSumPositive(r, index, index);
  }

  /** The geometric mean at the solver's step probability (linear rule
      capped at 100) is at most 100 / chance (linear rule capped at 90). */
  lemma GeometricAtMostRaw(base: real, fs: real)
    requires base > 0.0 && fs >= 0.0
    ensures StepProbability(base, fs) > 0.0 && Min(Linear(base, fs), ChanceCap) > 0.0
    ensures 1.0 / StepProbability(base, fs) <= 100.0 / Min(Linear(base, fs), ChanceCap)
  {
    LinearNotBelowBase(base, fs);
    var sc := Min(Linear(base, fs), ChanceCap);
    var p := StepProbability(base, fs);
    assert sc / 100.0 <= p;
    ReciprocalAntitone(sc / 100.0, p);
    assert 1.0 / (sc / 100.0) == 100.0 / sc;
  }

  /** The exact solver never expects more attempts than the raw 100 /
      chance: the failstack only rises, and its cap of 100 is above the
      chance cap of 90. */
  lemma ProtectedAttemptsAtMostRaw(r: Request, index: nat)
    requires ValidRequest(r) && index < |r.failstacks|
    ensures AttemptsAt(r, index) <= RawAttemptsAt(r, index)
  {
    if Protected(r, index) {
      var level := LevelAt(r, index);
      var base := TableBaseChance(r.item, level);
      var fs := r.failstacks[index];
      if base != 0.0 {
        assert base == BaseChanceOrDefault(r.item, level);
        ExpectedAtMostGeometric(base, fs as real, 0);
        GeometricAtMostRaw(base, fs as real);
      }
    }
  }

  /** A column whose every entry is non-negative has a non-negative sum. */
  lemma {:induction false} TotalNonNegative(levels: seq<LevelResult>, f: Field)
    requires forall i :: 0 <= i < |levels| ==> FieldValue(levels[i], f) >= 0.0
    ensures Total(levels, f) >= 0.0
  {
    if levels != [] {
      TotalNonNegative(levels[..|levels| - 1], f);
    }
  }

  /** The recovery cron spending summed over the run is never negative. */
  lemma RecoveryCronTotalNonNegative(r: Request)
    requires ValidRequest(r) && NonNegativePrices(r.prices)
    ensures Total(Steps(r), RecoveryCronCostOf) >= 0.0
  {
    var s := Steps(r);
    forall i | 0 <= i < |s|
      ensures FieldValue(s[i], RecoveryCronCostOf) >= 0.0
    {
      LevelCostCoversDirect(r, i);
    }
    TotalNonNegative(s, RecoveryCronCostOf);
  }
}
