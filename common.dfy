/** Vocabulary shared by both calculators: gear families, their enhancement
    ladders, market prices and the materials-cost sum. */
module Common {

  datatype Option<T> = None | Some(value: T)

  /** The three gear families the calculators know. */
  datatype Item = Kharazad | Sovereign | FallenGodsArmor

  /** Enhancement rungs, lowest first. */
  datatype Level = Base | I | II | III | IV | V | VI | VII | VIII | IX | X

  /** The ordered ladder of rungs of one gear family. */
  function Ladder(item: Item): (s: seq<Level>)
    ensures |s| >= 2 && s[0] == Base
    ensures forall k :: 0 < k < |s| ==> s[k] != Base
  {
    match item
    case Kharazad => [Base, I, II, III, IV, V, VI, VII, VIII, IX, X]
    case Sovereign => [Base, I, II, III, IV, V, VI, VII, VIII, IX, X]
    case FallenGodsArmor => [Base, I, II, III, IV, V]
  }

  /** The terminal rung of a ladder: nothing can be enhanced beyond it. */
  function Top(item: Item): Level
  {
    Ladder(item)[|Ladder(item)| - 1]
  }

  type ItemId = nat

  const EssenceOfDawn: ItemId := 820979
  const Dawn: ItemId := 820984
  const PrimordialBlackStone: ItemId := 820934
  const CaphrasStone: ItemId := 721003
  const SharpBlackCrystalShard: ItemId := 4998
  const MassOfPureMagic: ItemId := 752023
  const MemoryFragment: ItemId := 44195

  /** Market prices in silver, as the price lookup delivered them. */
  type Prices = map<ItemId, real>

  /** The lookup never fails: an item it cannot price costs 0. */
  function Price(prices: Prices, id: ItemId): real
  {
    if id in prices then prices[id] else 0.0
  }

  ghost predicate NonNegativePrices(prices: Prices)
  {
    forall id :: id in prices ==> prices[id] >= 0.0
  }

  datatype Material = Material(itemId: ItemId, count: nat)

  /** Price of one attempt's materials: the sum of price * count. */
  function MaterialsCost(materials: seq<Material>, prices: Prices): real
  {
    if materials == [] then 0.0
    else
      var last := materials[|materials| - 1];
      MaterialsCost(materials[..|materials| - 1], prices) + Price(prices, last.itemId) * (last.count as real)
  }

  lemma {:induction false} MaterialsCostNonNegative(materials: seq<Material>, prices: Prices)
    requires NonNegativePrices(prices)
    ensures MaterialsCost(materials, prices) >= 0.0
  {
    if materials != [] {
      var last := materials[|materials| - 1];
      MaterialsCostNonNegative(materials[..|materials| - 1], prices);
      assert Price(prices, last.itemId) >= 0.0;
      ProductNonNegative(Price(prices, last.itemId), last.count as real);
    }
  }

  /** The accumulating loop over the required materials. */
  method SumMaterials(materials: seq<Material>, prices: Prices) returns (total: real)
    ensures total == MaterialsCost(materials, prices)
  {
    total := 0.0;
    for i := 0 to |materials|
      invariant total == MaterialsCost(materials[..i], prices)
    {
      assert materials[..i + 1][..i] == materials[..i];
      var req := materials[i];
      total := total + Price(prices, req.itemId) * (req.count as real);
    }
    assert materials[..|materials|] == materials;
  }

  /** Multiplication behind a function symbol: two products of equal
      factors are then equal by congruence, which keeps the solver away from
      nonlinear arithmetic where the model only tracks who multiplies what. */
  /** A prefix one longer is the prefix followed by the next element. */
  lemma PrefixExtend<T>(s: seq<T>, k: nat)
    requires k < |s|
    ensures s[..k + 1] == s[..k] + [s[k]]
  {
  }

  function Mul(a: real, b: real): real
  {
    a * b
  }

  lemma MulNonNegative(a: real, b: real)
    requires a >= 0.0 && b >= 0.0
    ensures Mul(a, b) >= 0.0
  {
    ProductNonNegative(a, b);
  }

  lemma MulPositive(a: real, b: real)
    requires a > 0.0 && b > 0.0
    ensures Mul(a, b) > 0.0
  {
  }

  /** n + 1 copies of c are n copies and one more. */
  lemma MulStep(i: nat, c: real)
    ensures Mul((i + 1) as real, c) == Mul(i as real, c) + c
  {
    assert (i + 1) as real == i as real + 1.0;
  }

  /** Attempts per success at a chance of `sc` percent. */
  function AttemptsPerSuccess(sc: real): (e: real)
    requires sc > 0.0
    ensures e > 0.0
  {
    100.0 / sc
  }

  /** Failures per success at a chance of `sc` percent. */
  function FailuresPerSuccess(sc: real): (d: real)
    requires 0.0 < sc <= 100.0
    ensures d >= 0.0
  {
    (100.0 - sc) / sc
  }

  function Min(a: real, b: real): real
  {
    if a <= b then a else b
  }

  function Max(a: real, b: real): real
  {
    if a >= b then a else b
  }

  /** Integer ceiling of a / b. */
  function CeilDiv(a: nat, b: nat): nat
    requires b > 0
  {
    (a + b - 1) / b
  }

  /** CeilDiv(a, b) is the least count of b-sized portions covering a. */
  lemma CeilDivIsCeiling(a: nat, b: nat)
    requires b > 0
    ensures CeilDiv(a, b) * b >= a
    ensures CeilDiv(a, b) > 0 ==> (CeilDiv(a, b) - 1) * b < a
  {
    var r := CeilDiv(a, b);
    assert r * b + (a + b - 1) % b == a + b - 1;
  }

  lemma ProductNonNegative(a: real, b: real)
    requires a >= 0.0 && b >= 0.0
    ensures a * b >= 0.0
  {
  }
}
