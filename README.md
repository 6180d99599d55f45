# Black Desert enhancement cost calculators in Dafny

This project models the economics behind two browser calculators for
enhancing gear in Black Desert Online (Kharazad, Sovereign and Fallen God's
Armor). You enhance gear one rung at a time (BASE, I, II … X). Each attempt
costs materials. It may also cost cron stones, which stop a failure from
downgrading the item, and memory fragments, which repair the durability a
failure loses. The failstack is a counter of previous failures, and it
raises the success chance.

- **`bdoEnhance.js`, the live calculator.**
  - The chance is capped-linear: base plus a tenth of base per failstack
    point, capped at 90 percent.
  - Protected attempts use an exact dynamic-programming expectation in
    which each failure adds a failstack point.
  - Unprotected failures pay to climb back through every earlier rung of
    the run.
  - A simulator replays one rung with injected rolls and an optional
    "prayer" that alters the chance.
- **`bdoEnchant.js`, the older calculator.**
  - The chance is piecewise linear, with a soft cap and a hard cap.
  - A downgrade looks back only to the rung just below.
  - It has its own simulator.

Modules:

- `Common`: gear families and ladders, prices, the materials sum, and
  arithmetic helpers.
- Live calculator: `EnhanceData` (rate table), `EnhanceChance`,
  `EnhanceAttempts` (exact expectation), `EnhanceCost` (one attempt),
  `EnhanceCascade` (multi-rung calculator), `EnhanceSimulation`.
- Older calculator: `EnchantData`, `EnchantChance`, `EnchantCost`,
  `EnchantCascade`, `EnchantSimulation`.

Percentages and silver are `real`, so the model uses exact arithmetic.
Failstacks are `nat`. Where the source works by updating variables in a
loop, the model is a method with that loop. Each such method is proved
equal to a specification function, and the lemmas state the properties of
that function:

- the exact-attempts table;
- the materials sum;
- both cascades, including the recovery walk and the recovery-attempts
  sum;
- both simulators.

## Model

| member | source | states |
|---|---|---|
| Common.Ladder | bdoEnhance.js:47-51 | every ladder has at least two rungs, starts at BASE, and BASE occurs nowhere else |
| Common.SumMaterials | bdoEnhance.js:612-630 | the accumulating loop over the required materials returns the sum of price times count |
| Common.MaterialsCostNonNegative | bdoEnhance.js:615-623 | with prices that are never negative, the materials sum is never negative |
| Common.CeilDivIsCeiling | bdoEnhance.js:670 | the fragment count is the least whole number of fragments whose repair covers the loss |
| EnhanceData.Requirement | bdoEnhance.js:204-440 | exactly the rungs below the top of each ladder have requirements; each has non-empty materials and a base chance in (0, 90] |
| EnhanceData.MemFragPerDurability | bdoEnhance.js:207 | one fragment restores a positive amount of durability, so the ceiling division is defined |
| EnhanceChance.SuccessChance | bdoEnhance.js:546-557 | the chance is in (0, 90] for every rung and failstack |
| EnhanceChance.BaseChanceOrDefault | bdoEnhance.js:547-553 | the base rate used is in (0, 90], the table's or the default 2 |
| EnhanceChance.SuccessChanceIsCappedLinear | bdoEnhance.js:553-554 | the chance is base + fs·base/10 while that is below 90, and exactly 90 from there on |
| EnhanceChance.SuccessChanceAtZero | bdoEnhance.js:553-554 | at failstack 0 the chance is the base chance |
| EnhanceChance.MissingLevelUsesDefault | bdoEnhance.js:547-552 | a rung without requirements behaves as base chance 2 |
| EnhanceChance.SuccessChanceMonotone | bdoEnhance.js:553-554 | more failstack never lowers the chance |
| EnhanceAttempts.ExactAverageAttempts | bdoEnhance.js:565-590 | the backward table loop returns the recursive expectation; 0 for base rate 0; otherwise between 1 and 100001; exactly 1 when the first attempt is certain |
| EnhanceAttempts.ExpectedBounds | bdoEnhance.js:576-587 | every table entry E[a] lies between 1 and limit − a + 1 |
| EnhanceAttempts.ExpectedAntitone | bdoEnhance.js:578-587 | every table entry is non-increasing in the failstack it starts from |
| EnhanceAttempts.ExactAttemptsAntitone | bdoEnhance.js:565-590 | the solver's result never grows with the initial failstack |
| EnhanceAttempts.ExpectedAtMostGeometric | bdoEnhance.js:578-587 | the expectation never exceeds 1/p, the attempts needed if the chance p stayed fixed |
| EnhanceAttempts.ExpectedBelowGeometric | bdoEnhance.js:578-587 | below certainty the rising failstack makes the expectation strictly less than 1/p |
| EnhanceAttempts.FeedbackBeatsGeometric | bdoEnhance.js:565-590 | from failstack 0 the solver's result is strictly below 100 / base rate |
| EnhanceAttempts.StepProbabilityBounds | bdoEnhance.js:581 | the per-attempt probability is in (0, 1] for a positive base rate |
| EnhanceAttempts.StepProbabilityMonotone | bdoEnhance.js:581 | the per-attempt probability never falls with the failstack |
| EnhanceAttempts.StepProbabilityRises | bdoEnhance.js:581 | below certainty, one more failstack point strictly raises the probability |
| EnhanceAttempts.ExpectedStep | bdoEnhance.js:585 | below certainty, an entry is one attempt plus (1 − P) times the next entry |
| EnhanceAttempts.AntitoneStep | bdoEnhance.js:581-586 | one backward step keeps the order of two entries with different starting failstacks |
| EnhanceAttempts.StepCompare | bdoEnhance.js:585 | a higher chance with a smaller remainder gives a smaller backward step |
| EnhanceAttempts.OneMoreBounds | bdoEnhance.js:585 | one attempt plus between 1 and h more, on failure, is between 1 and h + 1 |
| EnhanceAttempts.OneMoreBelowGeometric | bdoEnhance.js:585 | one attempt at chance p plus fewer than 1/p more, on failure, stays below 1/p |
| EnhanceCost.CronPrice | bdoEnhance.js:644-657 | the cron price is positive: 2185297 for costume crons, otherwise 3000000 |
| EnhanceCost.AttemptCostOf | bdoEnhance.js:684-696 | the total is materials + cron + fragments; durabilityLoss and memFragPerDurability are the family's |
| EnhanceCost.CostOf | bdoEnhance.js:684 | under any requirement record the total is the sum of the three parts |
| EnhanceCost.CalculateAttemptCost | bdoEnhance.js:608-697 | the routine returns the cost breakdown of AttemptCostOf |
| EnhanceCost.CostOfRequirements | bdoEnhance.js:612-684 | the materials loop, the cron branch and the fragment branch together produce CostOf |
| EnhanceCost.CronCostOf | bdoEnhance.js:638-661 | the cron branch charges the rung's stones at 2185297 (costume) or 3000000 each when protection is on, and nothing otherwise |
| EnhanceCost.FragsCostOf | bdoEnhance.js:664-681 | the fragment branch buys ceil(loss / per-fragment) fragments at the fragment price when repair is on, and none otherwise |
| EnhanceCost.CostOfNonNegative | bdoEnhance.js:612-684 | for any requirement record and non-negative prices, every part is non-negative and the total covers the materials |
| EnhanceCost.NoRequirementsCostNothing | bdoEnhance.js:612-684 | a rung without requirements costs nothing, whatever the options |
| EnhanceCost.CronCostOnlyWhenProtected | bdoEnhance.js:638-660 | the cron cost is the rung's stones times the chosen price when protection is on, otherwise 0 |
| EnhanceCost.MemFragsRepairDurability | bdoEnhance.js:664-681 | no fragments without repair; with repair, ceil(loss / per-fragment) fragments at the fragment price |
| EnhanceCost.FragsCountCoversLoss | bdoEnhance.js:670 | the fragment count covers the loss, and one fewer would not |
| EnhanceCost.AttemptCostNonNegative | bdoEnhance.js:608-697 | with prices that are never negative, every part is non-negative and the total covers the materials |
| EnhanceCost.CronNeverCheaper | bdoEnhance.js:638-660 | turning protection on never makes an attempt cheaper |
| EnhanceCascade.ChanceAt | bdoEnhance.js:1100 | each step's chance is in (0, 90] |
| EnhanceCascade.RawAttemptsAt | bdoEnhance.js:1108 | the raw attempts 100 / chance are positive |
| EnhanceCascade.Downgrades | bdoEnhance.js:1139 | expected downgrades (100 − chance) / chance are never negative |
| EnhanceCascade.CalculateEnhancement | bdoEnhance.js:1060-1399 | one record per failstack, each the step's specification; every total is the sum of its column; the cron totals add the recovery crons; with non-negative prices, totalCronCost covers the cron column |
| EnhanceCascade.StepLoop | bdoEnhance.js:1088-1359 | the outer loop yields exactly the specified record of every step, with running totals equal to their accumulation |
| EnhanceCascade.MaterialTotal | bdoEnhance.js:1366-1369 | the closing loop returns the sum of the per-step materials column |
| EnhanceCascade.AddStep | bdoEnhance.js:1326-1349 | one pass of the accumulators adds the step's attempts, cost, fragments and crons, with recovery crons on top |
| EnhanceCascade.Step | bdoEnhance.js:1089-1358 | one pass of the outer loop produces the step's specified record |
| EnhanceCascade.StepAttempts | bdoEnhance.js:1096-1118 | protected steps take the exact expectation, the others 100 / chance |
| EnhanceCascade.StepCost | bdoEnhance.js:1129-1250 | the level cost is the direct cost plus, for a downgrading step, the recovery walk |
| EnhanceCascade.StepMemFrags | bdoEnhance.js:1225-1265 | fragments per failure (attempts − 1) plus recovery for a downgrading step, per attempt otherwise, none without repair |
| EnhanceCascade.StepCron | bdoEnhance.js:1340-1355 | a protected step spends its cron cost and stones per attempt; otherwise none |
| EnhanceCascade.RecoveryLoop | bdoEnhance.js:1154-1219 | the loop from the rung below down to the first rung adds up the recovery walk |
| EnhanceCascade.RecoveryThroughRung | bdoEnhance.js:1166-1218 | one rung's recovery share, and the multiplier for the rung below |
| EnhanceCascade.RecoveryAttemptsLoop | bdoEnhance.js:1286-1310 | the recovery-attempts loop returns the sum of its terms |
| EnhanceCascade.RecoveryAttemptsOf | bdoEnhance.js:1293-1307 | the rung just below counts in full; deeper rungs are damped by 0.85 per extra rung |
| EnhanceCascade.AccumulatedIsTotal | bdoEnhance.js:1326-1349 | the running totals equal the column sums of the records |
| EnhanceCascade.FirstStepNeverDowngrades | bdoEnhance.js:1094-1097 | the first step never recovers: no recovery, no recovery attempts, cost = attempts × attempt cost |
| EnhanceCascade.LaterStepsProtectedOnlyByCron | bdoEnhance.js:1096 | after the first step the rung is above BASE, and a step is protected exactly when cron is on |
| EnhanceCascade.NonDowngradingStepCost | bdoEnhance.js:1248-1250 | a protected or BASE step costs attempts × attempt cost, with no recovery attempts or crons |
| EnhanceCascade.NextMultiplierIsDowngrades | bdoEnhance.js:1217-1218 | the multiplier passed down equals m times the rung's own expected downgrades |
| EnhanceCascade.FailRateTimesAttempts | bdoEnhance.js:1217-1218 | fail rate per attempt times 100 / chance attempts equals the failures per success |
| EnhanceCascade.RecoveryWalkStep | bdoEnhance.js:1165-1219 | one pass of the recovery loop adds rung k's share and leaves the walk below with the next multiplier |
| EnhanceCascade.RecoveryRungNonNegative | bdoEnhance.js:1174-1218 | with non-negative prices, one rung's recovery share and the next multiplier are never negative |
| EnhanceCascade.RecoveryWalkNonNegative | bdoEnhance.js:1165-1219 | with non-negative prices, every part of a recovery walk is non-negative |
| EnhanceCascade.LevelCostCoversDirect | bdoEnhance.js:1142-1222 | with non-negative prices, a step's cost is at least its attempts × attempt cost, and its recovery crons are non-negative |
| EnhanceCascade.DowngradesPositive | bdoEnhance.js:1139 | below the 90 cap, expected downgrades per success are positive |
| EnhanceCascade.RecoveryAttemptTermPositive | bdoEnhance.js:1295-1307 | re-climbing any earlier rung takes a positive number of attempts |
| EnhanceCascade.RecoveryAttemptSumPositive | bdoEnhance.js:1292-1308 | a sum over one or more earlier rungs is positive |
| EnhanceCascade.RecoveryAttemptsPositive | bdoEnhance.js:1286-1310 | without cron every step after the first has positive recovery attempts |
| EnhanceCascade.GeometricAtMostRaw | bdoEnhance.js:546-581 | the solver's 100-capped probability gives 1/p at most the 100 / chance of the 90-capped chance |
| EnhanceCascade.ProtectedAttemptsAtMostRaw | bdoEnhance.js:1104-1118 | a step's expected attempts never exceed its raw 100 / chance |
| EnhanceCascade.TotalNonNegative | bdoEnhance.js:1326-1349 | a column of non-negative entries has a non-negative sum |
| EnhanceCascade.RecoveryCronTotalNonNegative | bdoEnhance.js:1207-1209 | with non-negative prices, the recovery crons summed over the run are non-negative |
| EnhanceSimulation.PrayedChance | bdoEnhance.js:2020-2028 | the prayed chance stays in (0, 90] and equals the chance without a prayer |
| EnhanceSimulation.Log | bdoEnhance.js:2012-2072 | the log has one entry per roll |
| EnhanceSimulation.LogStep | bdoEnhance.js:2012-2072 | one more roll appends exactly one entry, made at the failstack the log so far leaves |
| EnhanceSimulation.RunSimulation | bdoEnhance.js:1987-2076 | the log is the specified log; successes and failures count its outcomes; each total is attempts × that part of the fixed attempt cost |
| EnhanceSimulation.Attempt | bdoEnhance.js:2014-2039 | one attempt's chance, prayer and roll give the specified log entry |
| EnhanceSimulation.Spend | bdoEnhance.js:2031-2035 | after one more attempt each total is one more copy of the attempt cost |
| EnhanceSimulation.RapolasNeverLowers | bdoEnhance.js:2022-2024 | the MrRapolas prayer never lowers the chance and gives exactly 90 iff 1.7 × chance reaches 90 |
| EnhanceSimulation.BiceptimusLowersAboveFloor | bdoEnhance.js:2025-2028 | the BiceptimusPrime prayer lowers the chance iff it is above 0.1, and never goes below 0.1 |
| EnhanceSimulation.SuccessesPlusFailures | bdoEnhance.js:2044-2072 | every logged attempt is a success or a failure |
| EnhanceSimulation.RunCounts | bdoEnhance.js:2012-2073 | successes + failures equals the number of attempts |
| EnhanceSimulation.LogRecordsAttempts | bdoEnhance.js:2038-2067 | entry i is attempt i + 1 at the fixed cost, with the chance at its failstack before and after the prayer, and is a success iff the roll is below the prayed chance |
| EnhanceSimulation.FailstackChain | bdoEnhance.js:2006-2071 | the first attempt is at the starting failstack; each later one follows reset-on-success, +1-on-failure-with-cron |
| EnhanceSimulation.FailstackFromStart | bdoEnhance.js:2006-2071 | the failstack never goes below the start, and without cron it never moves |
| EnchantData.Requirement | bdoEnchant.js:126-316 | Kharazad and Sovereign have requirements for every rung below the top, Fallen God's Armor for none; every curve is well-formed and every materials list non-empty |
| EnchantData.CurveOf | bdoEnchant.js:399-409 | the curve used is always well-formed |
| EnchantData.MissingLevelUsesDefault | bdoEnchant.js:399-409 | a rung off the ladder, or the top rung, uses the default curve {2, (100, 40), (220, 90)} |
| EnchantData.FallenGodsArmorUsesDefault | bdoEnchant.js:313-315 | every Fallen God's Armor rung uses the default curve |
| EnchantChance.SuccessChance | bdoEnchant.js:396-428 | the chance is in (0, 90] for every rung and failstack |
| EnchantChance.PiecewiseAtThresholds | bdoEnchant.js:414-425 | base chance at failstack 0, soft-cap chance at the soft cap, hard-cap chance at and beyond the hard cap |
| EnchantChance.PiecewiseContinuous | bdoEnchant.js:414-425 | adjacent segments meet at the soft cap and at the hard cap |
| EnchantChance.PiecewiseBounds | bdoEnchant.js:414-425 | on a well-formed curve the chance lies between the base chance and the hard-cap chance |
| EnchantChance.PiecewiseMonotone | bdoEnchant.js:414-425 | on a well-formed curve more failstack never lowers the chance |
| EnchantChance.SuccessChanceMonotone | bdoEnchant.js:396-428 | the calculator's chance never falls with the failstack |
| EnchantChance.MissingLevelChance | bdoEnchant.js:399-409 | a rung without data gives 2 at failstack 0, 40 at 100 and 90 from 220 |
| EnchantChance.BelowSoftcapBounds | bdoEnchant.js:414-417 | below the soft cap the chance lies between the base and soft-cap chances |
| EnchantChance.BetweenCapsBounds | bdoEnchant.js:421-424 | between the caps the chance lies between the soft-cap and hard-cap chances |
| EnchantCost.CalculateAttemptCost | bdoEnchant.js:444-487 | the materials loop plus the cron branch returns the specified attempt cost |
| EnchantCost.CostOfRequirements | bdoEnchant.js:449-484 | given the rung's requirements, the materials loop plus the cron branch give materials part plus cron part |
| EnchantCost.NoRequirementsCostNothing | bdoEnchant.js:449-484 | a rung without requirements costs 0, with or without cron |
| EnchantCost.CronAddsStones | bdoEnchant.js:475-484 | turning cron on adds exactly the rung's stones at 3000000 each |
| EnchantCost.AttemptCostNonNegative | bdoEnchant.js:444-487 | with non-negative prices the cost is non-negative and cron never makes it cheaper |
| EnchantCascade.ChanceAt | bdoEnchant.js:834 | each step's chance is in (0, 90] |
| EnchantCascade.AttemptsAt | bdoEnchant.js:838 | each step's 100 / chance attempts are positive |
| EnchantCascade.StepsUpTo | bdoEnchant.js:827 | the records of the first n steps number exactly n |
| EnchantCascade.CalculateEnchantment | bdoEnchant.js:815-909 | one record per failstack, each the step's specification; the total cost and total attempts are the column sums |
| EnchantCascade.Step | bdoEnchant.js:828-895 | one pass of the loop produces the step's specified record |
| EnchantCascade.DowngradeOf | bdoEnchant.js:862-873 | the look-back is the rung below's cost × its 100 / chance × the downgrades here |
| EnchantCascade.StepsAreStepSpecs | bdoEnchant.js:827-896 | the i-th record is step i's specification |
| EnchantCascade.StepsRecordChances | bdoEnchant.js:831-838 | each record holds its rung, the chance at its failstack, and 100 / that chance |
| EnchantCascade.FirstStepNeverDowngrades | bdoEnchant.js:879-882 | the first step costs exactly its attempts × attempt cost, even without cron |
| EnchantCascade.ProtectedStepCost | bdoEnchant.js:850-886 | with cron or from BASE a step costs exactly its attempts × attempt cost |
| EnchantCascade.DowngradeLooksBackOneRung | bdoEnchant.js:856-874 | a step's record depends only on its own failstack and the one just before, not on any lower rung |
| EnchantCascade.LevelCostCoversDirect | bdoEnchant.js:874 | with non-negative prices, a step costs at least its attempts × attempt cost |
| EnchantCascade.TotalsNonNegative | bdoEnchant.js:887-891 | with non-negative prices the total cost is non-negative, and n steps total at least n × 100/90 attempts |
| EnchantCascade.ReciprocalAtLeast | bdoEnchant.js:838 | at a chance of at most 90, a step takes at least 100/90 attempts |
| EnchantSimulation.Log | bdoEnchant.js:1204-1244 | the log has one entry per roll |
| EnchantSimulation.LogStep | bdoEnchant.js:1204-1244 | one more roll appends exactly one entry, made at the failstack the log so far leaves |
| EnchantSimulation.Attempt | bdoEnchant.js:1206-1214 | one attempt's chance and roll give the specified log entry |
| EnchantSimulation.RunSimulation | bdoEnchant.js:1185-1247 | the log is the specified log; successes and failures count its outcomes; the total cost is attempts × the fixed attempt cost |
| EnchantSimulation.SuccessesPlusFailures | bdoEnchant.js:1216-1243 | every logged attempt is a success or a failure |
| EnchantSimulation.RunCounts | bdoEnchant.js:1204-1244 | successes + failures equals the number of attempts |
| EnchantSimulation.LogRecordsAttempts | bdoEnchant.js:1206-1236 | entry i is attempt i + 1 at the fixed cost, with the chance at its failstack, and is a success iff the roll is below it |
| EnchantSimulation.FailstackChain | bdoEnchant.js:1199-1242 | the first attempt is at the starting failstack; each later one follows reset-on-success, +1-on-failure-with-the-option |
| EnchantSimulation.FailstackFromStart | bdoEnchant.js:1199-1242 | the failstack never goes below the start, and without the option it never moves |

## Left out

- Page code is not modelled: DOM construction, event listeners, tab and
  region switching, and the result and simulation displays. Neither are the
  UI-only helpers in `ui-utilities.js` and `js/input-validation.js`. The
  input validation appears only as failstacks being `nat`.
- Market-price fetching (network, JSON files, the cache and its expiry) is
  not modelled. Prices are an input map, and an id missing from the map
  costs 0, as the lookup's last-resort fallback does. The standalone price
  fetcher `fetch-bdo-prices.js` is not part of this model.
- `Math.random` is replaced by an input sequence of rolls, one per
  attempt. The number of attempts is the length of that sequence.
- `async`/`await` is treated as sequential code, and console logging is
  not modelled.
- Display rounding is left out: `Math.round`, `toFixed` and
  `toLocaleString`. Totals, chances and attempts are the unrounded values
  the source rounds for display.
- IEEE-754 floating point is replaced by exact `real` arithmetic.
  Overflow, rounding of `100 / chance`, and NaN or Infinity are not
  modelled.
- Items and rungs are closed datatypes, so the source's "unknown item"
  case cannot arise. Only the "no entry for this rung" case is modelled,
  and it takes the same default path.
- The cascade's echoed inputs are not part of the result: item, start and
  target rungs, the failstack list and its unmodified copy, and the option
  flags. The per-rung cron decision is kept, as the `usedCron` field of
  each record.
- The cascade's `window.rawAttemptsArray` and `window.recoveryAttemptsArray`
  are global arrays that outlive one call. Here they are per-record fields.
  A step that computes no recovery attempts records 0; in the source that
  array slot keeps whatever an earlier call left there.
- The cascade's `previousLevels` list (bdoEnhance.js:1157-1162) is a copy
  of the earlier rungs and failstacks. The model reads those directly from
  the request.
- EnhanceCascade.ValidRequest: the source does not check that the start
  rung plus the number of failstacks stays on the ladder. The UI only
  offers such pairs, so the model requires it.
- EnhanceCost.CalculateAttemptCost: when called without the costume flag,
  the source reads the cron price from whichever tab is visible. The model
  always passes the flag: the cascade passes the main tab's costume
  checkbox, the simulator its own.
- EnhanceSimulation.RunSimulation: the per-entry prayer label (the
  `streamEffect` string) is not logged, because it follows from the
  request's prayer. The echoed inputs are not logged either.
- EnchantSimulation.RunSimulation: the echoed inputs are not part of the
  result.
