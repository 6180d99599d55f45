/** The rate and requirement table of the older calculator (piecewise
    success rule): per family and rung, the materials of one attempt, the
    cron stones that protect it, and the success curve, a base chance at
    zero failstack rising linearly to a soft cap and then more slowly to a
    hard cap. Fallen God's Armor has no entries in this table. */
module EnchantData {
  import opened Common

  /** A failstack threshold and the chance reached there. */
  datatype Cap = Cap(fs: nat, chance: real)

  datatype Curve = Curve(baseChance: real, softcap: Cap, hardcap: Cap)

  datatype EnchantRequirement = EnchantRequirement(
    materials: seq<Material>,
    cronStones: nat,
    curve: Curve)

  /** A well-formed curve: both thresholds positive and in order, the
      chances positive, rising and at most 90 percent. */
  predicate ValidCurve(c: Curve)
  {
    && 0 < c.softcap.fs < c.hardcap.fs
    && 0.0 < c.baseChance <= c.softcap.chance <= c.hardcap.chance <= 90.0
  }

  /** The curve used for a rung without table data. */
  const DefaultCurve: Curve := Curve(2.0, Cap(100, 40.0), Cap(220, 90.0))

  function Essence(n: nat, crons: nat, base: real, softFs: nat, softChance: real, hardFs: nat): EnchantRequirement
  {
    EnchantRequirement([Material(EssenceOfDawn, n)], crons, Curve(base, Cap(softFs, softChance), Cap(hardFs, 90.0)))
  }

  function BlackStone(crons: nat, base: real, softFs: nat, hardFs: nat): EnchantRequirement
  {
    EnchantRequirement([Material(PrimordialBlackStone, 1)], crons, Curve(base, Cap(softFs, 70.0), Cap(hardFs, 90.0)))
  }

  /** The requirements for enhancing `item` from `level` to the next rung.
      Kharazad and Sovereign have an entry for every rung below the top;
      Fallen God's Armor has none. */
  function Requirement(item: Item, level: Level): (r: Option<EnchantRequirement>)
    ensures r.Some? <==> item != FallenGodsArmor && level in Ladder(item) && level != Top(item)
    ensures r.Some? ==> ValidCurve(r.value.curve) && r.value.materials != []
  {
    match item
    case Kharazad =>
      (match level
       case Base => Some(Essence(1, 0, 16.3, 33, 70.09, 95))
       case I => Some(Essence(2, 120, 7.3, 86, 70.08, 223))
       case II => Some(Essence(3, 280, 4.57, 144, 70.38, 359))
       case III => Some(Essence(4, 540, 2.89, 233, 70.23, 576))
       case IV => Some(Essence(6, 840, 1.91, 357, 70.10, 878))
       case V => Some(Essence(8, 1090, 1.29, 533, 70.05, 1307))
       case VI => Some(Essence(10, 1480, 0.88, 786, 70.05, 1920))
       case VII => Some(Essence(12, 1880, 0.57, 1219, 69.54, 2969))
       case VIII => Some(Essence(15, 2850, 0.32, 2178, 70.02, 5300))
       case IX => Some(EnchantRequirement([Material(Dawn, 1)], 3650, Curve(0.172, Cap(4060, 70.0), Cap(9872, 90.0))))
       case X => None)
    case Sovereign =>
      (match level
       case Base => Some(BlackStone(0, 15.0, 30, 90))
       case I => Some(BlackStone(320, 7.0, 80, 220))
       case II => Some(BlackStone(560, 4.5, 140, 350))
       case III => Some(BlackStone(780, 2.8, 230, 570))
       case IV => Some(BlackStone(970, 1.9, 350, 870))
       case V => Some(BlackStone(1350, 1.25, 530, 1300))
       case VI => Some(BlackStone(1550, 0.85, 780, 1900))
       case VII => Some(BlackStone(2250, 0.55, 1200, 2950))
       case VIII => Some(BlackStone(2760, 0.3, 2150, 5250))
       case IX => Some(BlackStone(3920, 0.17, 4000, 9800))
       case X => None)
    case FallenGodsArmor => None
  }

  /** The curve of a rung, or the default curve when the table has none. */
  function CurveOf(item: Item, level: Level): (c: Curve)
    ensures ValidCurve(c)
  {
    match Requirement(item, level)
    case Some(req) => req.curve
    case None => DefaultCurve
  }

  /** The top rung, and any rung the table lacks, uses the default curve. */
  lemma MissingLevelUsesDefault(item: Item, level: Level)
    requires level !in Ladder(item) || level == Top(item)
    ensures CurveOf(item, level) == DefaultCurve
  {
  }

  /** Every rung of Fallen God's Armor uses the default curve. */
  lemma FallenGodsArmorUsesDefault(level: Level)
    ensures CurveOf(FallenGodsArmor, level) == DefaultCurve
  {
  }
}
