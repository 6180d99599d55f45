/** Cost of one enhancement attempt in the live calculator: the materials,
    plus the cron stones that protect the attempt, plus the memory fragments
    that repair the durability a failure costs. */
module EnhanceCost {
  import opened Common
  import opened EnhanceData

  /** Silver per cron stone bought as a costume cron. */
  const CostumeCronPrice: real := 2185297.0

  /** Silver per cron stone bought from the vendor. */
  const VendorCronPrice: real := 3000000.0

  function CronPrice(costume: bool): (r: real)
    ensures r > 0.0
  {
    if costume then CostumeCronPrice else VendorCronPrice
  }

  datatype AttemptCost = AttemptCost(
    totalCost: real,
    materialsCost: real,
    cronCost: real,
    memFragsCost: real,
    memFragsCount: nat,
    durabilityLoss: nat,
    memFragPerDurability: nat)

  /** The cost breakdown of one attempt at `level`. */
  function AttemptCostOf(item: Item, level: Level, useCron: bool, useMemFrags: bool,
                         costume: bool, prices: Prices): (c: AttemptCost)
    ensures c.totalCost == c.materialsCost + c.cronCost + c.memFragsCost
    ensures c.durabilityLoss == DurabilityLoss(item) && c.memFragPerDurability == MemFragPerDurability(item)
  {
    CostOf(item, Requirement(item, level), useCron, useMemFrags, costume, prices)
  }

  /** The cost breakdown of one attempt under the requirements `req` of its
      rung. */
  function CostOf(item: Item, req: Option<LevelRequirement>, useCron: bool, useMemFrags: bool,
                  costume: bool, prices: Prices): (c: AttemptCost)
    ensures c.totalCost == c.materialsCost + c.cronCost + c.memFragsCost
  {
    var materials := MaterialsPart(req, prices);
    var cron := CronPart(req, useCron, costume);
    var frags := FragsPart(item, req, useMemFrags, prices);
    AttemptCost(materials + cron + frags, materials, cron, frags, FragsCount(item, req, useMemFrags),
                DurabilityLoss(item), MemFragPerDurability(item))
  }

  /** The materials of one attempt; nothing for a rung without requirements. */
  function MaterialsPart(req: Option<LevelRequirement>, prices: Prices): real
  {
    if req.Some? then MaterialsCost(req.value.materials, prices) else 0.0
  }

  /** Cron stones are paid only when protection is asked for and the rung
      has requirements. */
  function CronPart(req: Option<LevelRequirement>, useCron: bool, costume: bool): real
  {
    if useCron && req.Some? then (req.value.cronStones as real) * CronPrice(costume) else 0.0
  }

  /** Fragments bought per attempt: only when repair is asked for and the
      rung has requirements. */
  function FragsCount(item: Item, req: Option<LevelRequirement>, useMemFrags: bool): nat
  {
    if useMemFrags && req.Some? then CeilDiv(DurabilityLoss(item), MemFragPerDurability(item)) else 0
  }

  function FragsPart(item: Item, req: Option<LevelRequirement>, useMemFrags: bool, prices: Prices): real
  {
    if useMemFrags && req.Some? then Price(prices, MemoryFragment) * (FragsCount(item, req, useMemFrags) as real)
    else 0.0
  }

  method CalculateAttemptCost(item: Item, level: Level, useCron: bool, useMemFrags: bool,
                              costume: bool, prices: Prices) returns (c: AttemptCost)
    ensures c == AttemptCostOf(item, level, useCron, useMemFrags, costume, prices)
  {
    var requirements := Requirement(item, level);
    c := CostOfRequirements(item, requirements, useCron, useMemFrags, costume, prices);
  }

  /** The body of CalculateAttemptCost once the rung's requirements are
      looked up. */
  method CostOfRequirements(item: Item, requirements: Option<LevelRequirement>, useCron: bool,
                            useMemFrags: bool, costume: bool, prices: Prices) returns (c: AttemptCost)
    ensures c == CostOf(item, requirements, useCron, useMemFrags, costume, prices)
  {
    var materialsCost := 0.0;
    if requirements.Some? && |requirements.value.materials| > 0 {
      materialsCost := SumMaterials(requirements.value.materials, prices);
    }
    assert materialsCost == MaterialsPart(requirements, prices);
    var cronCost := CronCostOf(requirements, useCron, costume);
    var memFragsCost, memFragsCount := FragsCostOf(item, requirements, useMemFrags, prices);
    c := AttemptCost(materialsCost + cronCost + memFragsCost, materialsCost, cronCost,
                     memFragsCost, memFragsCount, DurabilityLoss(item), MemFragPerDurability(item));
  }

  /** The cron branch of the cost routine. */
  method CronCostOf(requirements: Option<LevelRequirement>, useCron: bool, costume: bool) returns (cronCost: real)
    ensures cronCost == CronPart(requirements, useCron, costume)
  {
    cronCost := 0.0;
    if useCron && requirements.Some? {
      var cronCount := requirements.value.cronStones;
      var cronPrice := if costume then 2185297.0 else 3000000.0;
      cronCost := (cronCount as real) * cronPrice;
    }
  }

  /** The fragment branch of the cost routine. */
  method FragsCostOf(item: Item, requirements: Option<LevelRequirement>, useMemFrags: bool, prices: Prices)
    returns (memFragsCost: real, memFragsCount: nat)
    ensures memFragsCost == FragsPart(item, requirements, useMemFrags, prices)
    ensures memFragsCount == FragsCount(item, requirements, useMemFrags)
  {
    memFragsCost, memFragsCount := 0.0, 0;
    if useMemFrags && requirements.Some? {
      var durabilityLoss := DurabilityLoss(item);
      var memFragPerDurability := MemFragPerDurability(item);
      memFragsCount := CeilDiv(durabilityLoss, memFragPerDurability);
      var memFragPrice := Price(prices, MemoryFragment);
      memFragsCost := memFragPrice * (memFragsCount as real);
    }
  }

  /** A rung without requirements (the top of the ladder) costs nothing. */
  lemma NoRequirementsCostNothing(item: Item, level: Level, useCron: bool, useMemFrags: bool,
                                  costume: bool, prices: Prices)
    requires Requirement(item, level).None?
    ensures AttemptCostOf(item, level, useCron, useMemFrags, costume, prices).totalCost == 0.0
  {
  }

  /** Cron stones are paid exactly when protection is on: then the stone
      count times the chosen cron price, otherwise nothing. */
  lemma CronCostOnlyWhenProtected(item: Item, level: Level, useCron: bool, useMemFrags: bool,
                                  costume: bool, prices: Prices)
    ensures var c := AttemptCostOf(item, level, useCron, useMemFrags, costume, prices);
      c.cronCost == if useCron then (CronStones(item, level) as real) * CronPrice(costume) else 0.0
  {
  }

  /** Without repair no fragments are bought; with repair on a rung that has
      requirements, just enough fragments to restore the durability lost. */
  lemma MemFragsRepairDurability(item: Item, level: Level, useCron: bool, useMemFrags: bool,
                                 costume: bool, prices: Prices)
    ensures var c := AttemptCostOf(item, level, useCron, useMemFrags, costume, prices);
      && (!useMemFrags ==> c.memFragsCount == 0 && c.memFragsCost == 0.0)
      && (useMemFrags && Requirement(item, level).Some? ==>
            && c.memFragsCount * MemFragPerDurability(item) >= DurabilityLoss(item)
            && (c.memFragsCount - 1) * MemFragPerDurability(item) < DurabilityLoss(item)
            && c.memFragsCost == Price(prices, MemoryFragment) * (c.memFragsCount as real))
  {
    var req := Requirement(item, level);
    if useMemFrags && req.Some? {
      FragsCountCoversLoss(item, req);
    }
  }

  lemma FragsCountCoversLoss(item: Item, req: Option<LevelRequirement>)
    requires req.Some?
    ensures FragsCount(item, req, true) * MemFragPerDurability(item) >= DurabilityLoss(item)
    ensures (FragsCount(item, req, true) - 1) * MemFragPerDurability(item) < DurabilityLoss(item)
  {
    CeilDivIsCeiling(DurabilityLoss(item), MemFragPerDurability(item));
  }

  /** With prices that are never negative, every component is non-negative
      and the total covers the materials alone. */
  lemma AttemptCostNonNegative(item: Item, level: Level, useCron: bool, useMemFrags: bool,
                               costume: bool, prices: Prices)
    requires NonNegativePrices(prices)
    ensures var c := AttemptCostOf(item, level, useCron, useMemFrags, costume, prices);
      && c.materialsCost >= 0.0 && c.cronCost >= 0.0 && c.memFragsCost >= 0.0
      && c.totalCost >= c.materialsCost
  {
    CostOfNonNegative(item, Requirement(item, level), useCron, useMemFrags, costume, prices);
  }

  lemma CostOfNonNegative(item: Item, req: Option<LevelRequirement>, useCron: bool, useMemFrags: bool,
                          costume: bool, prices: Prices)
    requires NonNegativePrices(prices)
    ensures var c := CostOf(item, req, useCron, useMemFrags, costume, prices);
      && c.materialsCost >= 0.0 && c.cronCost >= 0.0 && c.memFragsCost >= 0.0
      && c.totalCost >= c.materialsCost
  {
    assert MaterialsPart(req, prices) >= 0.0 by {
      if req.Some? {
        MaterialsCostNonNegative(req.value.materials, prices);
      }
    }
    assert CronPart(req, useCron, costume) >= 0.0 by {
      if useCron && req.Some? {
        ProductNonNegative(req.value.cronStones as real, CronPrice(costume));
      }
    }
    assert FragsPart(item, req, useMemFrags, prices) >= 0.0 by {
      if useMemFrags && req.Some? {
        ProductNonNegative(Price(prices, MemoryFragment), FragsCount(item, req, useMemFrags) as real);
      }
    }
  }

  /** Turning protection on never makes an attempt cheaper. */
  lemma CronNeverCheaper(item: Item, level: Level, useMemFrags: bool, costume: bool, prices: Prices)
    requires NonNegativePrices(prices)
    ensures AttemptCostOf(item, level, false, useMemFrags, costume, prices).totalCost
         <= AttemptCostOf(item, level, true, useMemFrags, costume, prices).totalCost
  {
    AttemptCostNonNegative(item, level, true, useMemFrags, costume, prices);
  }
}
