/** The rate and requirement table of the live calculator (capped-linear
    success rule): per family and rung, the materials of one attempt, the
    cron stones that protect it, the base chance at zero failstack and the
    recommended failstack; per family, durability lost on a failure and how
    much durability one memory fragment restores. */
module EnhanceData {
  import opened Common

  datatype LevelRequirement = LevelRequirement(
    materials: seq<Material>,
    cronStones: nat,
    baseChance: real,
    recommendedFS: nat)

  function Essence(n: nat, crons: nat, base: real, fs: nat): LevelRequirement
  {
    LevelRequirement([Material(EssenceOfDawn, n)], crons, base, fs)
  }

  function BlackStone(crons: nat, base: real, fs: nat): LevelRequirement
  {
    LevelRequirement([Material(PrimordialBlackStone, 1)], crons, base, fs)
  }

  function FallenGod(crons: nat, base: real, fs: nat): LevelRequirement
  {
    LevelRequirement(
      [Material(CaphrasStone, 10), Material(SharpBlackCrystalShard, 1), Material(MassOfPureMagic, 1)],
      crons, base, fs)
  }

  /** The requirements for enhancing `item` from `level` to the next rung.
      Exactly the rungs of the family's ladder below its top have an entry. */
  function Requirement(item: Item, level: Level): (r: Option<LevelRequirement>)
    ensures r.Some? <==> level in Ladder(item) && level != Top(item)
    ensures r.Some? ==> 0.0 < r.value.baseChance <= 90.0 && r.value.materials != []
  {
    match item
    case Kharazad =>
      (match level
       case Base => Some(Essence(1, 0, 16.3, 38))
       case I => Some(Essence(2, 120, 7.3, 66))
       case II => Some(Essence(3, 280, 4.57, 96))
       case III => Some(Essence(4, 540, 2.89, 142))
       case IV => Some(Essence(6, 840, 1.91, 161))
       case V => Some(Essence(8, 1090, 1.29, 191))
       case VI => Some(Essence(10, 1480, 0.88, 225))
       case VII => Some(Essence(12, 1880, 0.57, 272))
       case VIII => Some(Essence(15, 2850, 0.32, 314))
       case IX => Some(LevelRequirement([Material(Dawn, 1)], 3650, 0.172, 316))
       case X => None)
    case Sovereign =>
      (match level
       case Base => Some(BlackStone(0, 8.55, 48))
       case I => Some(BlackStone(320, 4.12, 66))
       case II => Some(BlackStone(560, 2.0, 106))
       case III => Some(BlackStone(780, 0.91, 191))
       case IV => Some(BlackStone(970, 0.469, 234))
       case V => Some(BlackStone(1350, 0.273, 290))
       case VI => Some(BlackStone(1550, 0.16, 314))
       case VII => Some(BlackStone(2250, 0.107, 316))
       case VIII => Some(BlackStone(2760, 0.049, 346))
       case IX => Some(BlackStone(3920, 0.024, 346))
       case X => None)
    case FallenGodsArmor =>
      (match level
       case Base => Some(FallenGod(0, 2.0, 76))
       case I => Some(FallenGod(1500, 1.0, 142))
       case II => Some(FallenGod(2100, 0.5, 272))
       case III => Some(FallenGod(2700, 0.2, 314))
       case IV => Some(FallenGod(4000, 0.0025, 346))
       case _ => None)
  }

  /** Durability lost by one failed attempt. */
  function DurabilityLoss(item: Item): nat
  {
    match item
    case Kharazad => 20
    case Sovereign => 20
    case FallenGodsArmor => 30
  }

  /** Durability points restored by one memory fragment. */
  function MemFragPerDurability(item: Item): (r: nat)
    ensures r > 0
  {
    1
  }

  /** Cron stones for one attempt at `level`, 0 when the rung has no entry. */
  function CronStones(item: Item, level: Level): nat
  {
    match Requirement(item, level)
    case Some(req) => req.cronStones
    case None => 0
  }
}
