/** The price of one attempt in the older calculator: the materials plus,
    with cron stones, the stones at a flat vendor price. There is no
    repair cost in this calculator. */
module EnchantCost {
  import opened Common
  import opened EnchantData

  /** Price of one cron stone in this calculator. */
  const EnchantCronPrice: real := 3000000.0

  /** Materials of the rung's requirement, 0 when the table has none. */
  function MaterialsPart(req: Option<EnchantRequirement>, prices: Prices): real
  {
    if req.Some? && req.value.materials != [] then MaterialsCost(req.value.materials, prices) else 0.0
  }

  /** Cron stones are paid only with cron on and a requirement present. */
  function CronPart(req: Option<EnchantRequirement>, useCron: bool): real
  {
    if useCron && req.Some? then (req.value.cronStones as real) * EnchantCronPrice else 0.0
  }

  /** The cost of one attempt at `level`. */
  function AttemptCostOf(item: Item, level: Level, useCron: bool, prices: Prices): real
  {
    var req := Requirement(item, level);
    MaterialsPart(req, prices) + CronPart(req, useCron)
  }

  /** The calculator's cost routine: the materials loop, then the cron
      stones. */
  method CalculateAttemptCost(item: Item, level: Level, useCron: bool, prices: Prices) returns (totalCost: real)
    ensures totalCost == AttemptCostOf(item, level, useCron, prices)
  {
    var requirements := Requirement(item, level);
    totalCost := CostOfRequirements(requirements, useCron, prices);
  }

  /** The body of CalculateAttemptCost once the rung's requirements are
      looked up. */
  method CostOfRequirements(requirements: Option<EnchantRequirement>, useCron: bool, prices: Prices)
    returns (totalCost: real)
    ensures totalCost == MaterialsPart(requirements, prices) + CronPart(requirements, useCron)
  {
    var materialsCost := 0.0;
    if requirements.Some? && |requirements.value.materials| > 0 {
      materialsCost := SumMaterials(requirements.value.materials, prices);
    }
    var cronCost := 0.0;
    if useCron && requirements.Some? {
      var cronCount := requirements.value.cronStones;
      var cronPrice := 3000000.0;
      cronCost := (cronCount as real) * cronPrice;
    }
    totalCost := materialsCost + cronCost;
  }

  // ----- Properties of the attempt cost -----

  /** A rung the table lacks costs nothing, with or without cron. */
  lemma NoRequirementsCostNothing(item: Item, level: Level, useCron: bool, prices: Prices)
    requires Requirement(item, level).None?
    ensures AttemptCostOf(item, level, useCron, prices) == 0.0
  {
  }

  /** Turning cron on adds exactly the rung's stones at the flat price. */
  lemma CronAddsStones(item: Item, level: Level, prices: Prices)
    ensures AttemptCostOf(item, level, true, prices) == AttemptCostOf(item, level, false, prices)
      + (match Requirement(item, level)
         case Some(req) => (req.cronStones as real) * EnchantCronPrice
         case None => 0.0)
  {
  }

  /** With prices that are never negative, the cost is never negative and
      cron never makes an attempt cheaper. */
  lemma AttemptCostNonNegative(item: Item, level: Level, useCron: bool, prices: Prices)
    requires NonNegativePrices(prices)
    ensures AttemptCostOf(item, level, false, prices) >= 0.0
    ensures AttemptCostOf(item, level, useCron, prices) >= AttemptCostOf(item, level, false, prices)
  {
    var req := Requirement(item, level);
    if req.Some? {
      MaterialsCostNonNegative(req.value.materials, prices);
    }
    CronAddsStones(item, level, prices);
  }
}
