/** Success chance of the live calculator: the base chance grows by a tenth
    of itself per failstack point and is capped at 90 percent. */
module EnhanceChance {
  import opened Common
  import opened EnhanceData

  /** Base chance used for a rung without table data. */
  const DefaultBaseChance: real := 2.0

  /** The success cap in percent. */
  const ChanceCap: real := 90.0

  function BaseChanceOrDefault(item: Item, level: Level): (r: real)
    ensures 0.0 < r <= ChanceCap
  {
    match Requirement(item, level)
    case Some(req) => req.baseChance
    case None => DefaultBaseChance
  }

  /** Uncapped linear growth: base + fs * base / 10. */
  function Linear(base: real, fs: real): real
  {
    base + fs * base / 10.0
  }

  /** Success chance in percent at failstack `fs`. */
  function SuccessChance(item: Item, level: Level, fs: nat): (r: real)
    ensures 0.0 < r <= ChanceCap
  {
    var base := BaseChanceOrDefault(item, level);
    LinearNotBelowBase(base, fs as real);
    Min(Linear(base, fs as real), ChanceCap)
  }

  lemma LinearNotBelowBase(base: real, fs: real)
    requires base > 0.0 && fs >= 0.0
    ensures Linear(base, fs) >= base
  {
    ProductNonNegative(fs, base);
  }

  lemma LinearMonotone(base: real, fs1: real, fs2: real)
    requires base > 0.0 && fs1 <= fs2
    ensures Linear(base, fs1) <= Linear(base, fs2)
  {
    ProductNonNegative(fs2 - fs1, base);
    assert fs2 * base == fs1 * base + (fs2 - fs1) * base;
  }

  /** The chance is the linear rule where that stays under the cap, and the
      cap exactly where the linear rule reaches it. */
  lemma SuccessChanceIsCappedLinear(item: Item, level: Level, fs: nat)
    ensures var base := BaseChanceOrDefault(item, level);
      && (Linear(base, fs as real) < ChanceCap ==> SuccessChance(item, level, fs) == Linear(base, fs as real))
      && (Linear(base, fs as real) >= ChanceCap ==> SuccessChance(item, level, fs) == ChanceCap)
  {
  }

  /** At zero failstack the chance is the table's base chance. */
  lemma SuccessChanceAtZero(item: Item, level: Level)
    ensures SuccessChance(item, level, 0) == BaseChanceOrDefault(item, level)
  {
  }

  /** A rung without table data behaves like a rung with base chance 2. */
  lemma MissingLevelUsesDefault(item: Item, level: Level, fs: nat)
    requires Requirement(item, level).None?
    ensures SuccessChance(item, level, fs) == Min(Linear(DefaultBaseChance, fs as real), ChanceCap)
  {
  }

  /** More failstack never lowers the chance. */
  lemma SuccessChanceMonotone(item: Item, level: Level, fs1: nat, fs2: nat)
    requires fs1 <= fs2
    ensures SuccessChance(item, level, fs1) <= SuccessChance(item, level, fs2)
  {
    LinearMonotone(BaseChanceOrDefault(item, level), fs1 as real, fs2 as real);
  }
}
