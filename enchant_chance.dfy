/** Success chance of the older calculator: linear from the base chance at
    zero failstack to the soft cap, linear again from the soft cap to the
    hard cap, and flat at the hard cap beyond it. */
module EnchantChance {
  import opened Common
  import opened EnchantData

  /** The point a fraction `t` of the way from `a` to `b`. */
  function Lerp(a: real, b: real, t: real): real
  {
    a + t * (b - a)
  }

  /** The segment below the soft cap, from the base chance to the soft-cap
      chance. */
  function BelowSoftcap(c: Curve, fs: nat): real
    requires c.softcap.fs > 0
  {
    Lerp(c.baseChance, c.softcap.chance, (fs as real) / (c.softcap.fs as real))
  }

  /** The segment between the caps, from the soft-cap chance to the
      hard-cap chance. */
  function BetweenCaps(c: Curve, fs: nat): real
    requires c.softcap.fs < c.hardcap.fs
  {
    Lerp(c.softcap.chance, c.hardcap.chance,
         ((fs - c.softcap.fs) as real) / ((c.hardcap.fs - c.softcap.fs) as real))
  }

  /** The piecewise rule for one curve. The soft-cap threshold must be
      positive, since the first segment divides by it. */
  function Piecewise(c: Curve, fs: nat): real
    requires c.softcap.fs > 0
  {
    if fs <= c.softcap.fs then BelowSoftcap(c, fs)
    else if fs >= c.hardcap.fs then c.hardcap.chance
    else BetweenCaps(c, fs)
  }

  /** Success chance in percent of enhancing `item` from `level` at
      failstack `fs`. */
  function SuccessChance(item: Item, level: Level, fs: nat): (r: real)
    ensures 0.0 < r <= 90.0
  {
    var c := CurveOf(item, level);
    PiecewiseBounds(c, fs);
    Piecewise(c, fs)
  }

  // ----- Interpolation facts -----

  lemma LerpBounds(a: real, b: real, t: real)
    requires a <= b && 0.0 <= t <= 1.0
    ensures a <= Lerp(a, b, t) <= b
  {
    ProductNonNegative(t, b - a);
    ProductNonNegative(1.0 - t, b - a);
  }

  lemma LerpMonotone(a: real, b: real, t1: real, t2: real)
    requires a <= b && t1 <= t2
    ensures Lerp(a, b, t1) <= Lerp(a, b, t2)
  {
    ProductNonNegative(t2 - t1, b - a);
    assert t2 * (b - a) - t1 * (b - a) == (t2 - t1) * (b - a);
  }

  lemma RatioBounds(x: real, d: real)
    requires 0.0 <= x <= d && d > 0.0
    ensures 0.0 <= x / d <= 1.0
  {
  }

  lemma RatioMonotone(x: real, y: real, d: real)
    requires x <= y && d > 0.0
    ensures x / d <= y / d
  {
    assert y / d - x / d == (y - x) / d;
  }

  lemma BelowSoftcapBounds(c: Curve, fs: nat)
    requires ValidCurve(c) && fs <= c.softcap.fs
    ensures c.baseChance <= BelowSoftcap(c, fs) <= c.softcap.chance
  {
    RatioBounds(fs as real, c.softcap.fs as real);
    LerpBounds(c.baseChance, c.softcap.chance, (fs as real) / (c.softcap.fs as real));
  }

  lemma BetweenCapsBounds(c: Curve, fs: nat)
    requires ValidCurve(c) && c.softcap.fs <= fs <= c.hardcap.fs
    ensures c.softcap.chance <= BetweenCaps(c, fs) <= c.hardcap.chance
  {
    RatioBounds((fs - c.softcap.fs) as real, (c.hardcap.fs - c.softcap.fs) as real);
    LerpBounds(c.softcap.chance, c.hardcap.chance,
               ((fs - c.softcap.fs) as real) / ((c.hardcap.fs - c.softcap.fs) as real));
  }

  // ----- Properties of the rule -----

  /** The rule passes through the base chance at zero failstack, the
      soft-cap chance at the soft cap and the hard-cap chance at and beyond
      the hard cap. */
  lemma PiecewiseAtThresholds(c: Curve, fs: nat)
    requires c.softcap.fs > 0
    ensures Piecewise(c, 0) == c.baseChance
    ensures Piecewise(c, c.softcap.fs) == c.softcap.chance
    ensures c.softcap.fs < c.hardcap.fs <= fs ==> Piecewise(c, fs) == c.hardcap.chance
  {
    assert (c.softcap.fs as real) / (c.softcap.fs as real) == 1.0;
  }

  /** The segments meet: each one's end is the next one's start, so the
      rule has no jump. */
  lemma PiecewiseContinuous(c: Curve)
    requires 0 < c.softcap.fs < c.hardcap.fs
    ensures BelowSoftcap(c, c.softcap.fs) == BetweenCaps(c, c.softcap.fs) == c.softcap.chance
    ensures BetweenCaps(c, c.hardcap.fs) == c.hardcap.chance
  {
    assert (c.softcap.fs as real) / (c.softcap.fs as real) == 1.0;
    var w := (c.hardcap.fs - c.softcap.fs) as real;
    assert w / w == 1.0;
  }

  /** On a well-formed curve the chance stays between the base chance and
      the hard-cap chance. */
  lemma PiecewiseBounds(c: Curve, fs: nat)
    requires ValidCurve(c)
    ensures c.baseChance <= Piecewise(c, fs) <= c.hardcap.chance
  {
    if fs <= c.softcap.fs {
      BelowSoftcapBounds(c, fs);
    } else if fs < c.hardcap.fs {
      BetweenCapsBounds(c, fs);
    }
  }

  /** On a well-formed curve more failstack never lowers the chance. */
  lemma PiecewiseMonotone(c: Curve, fs1: nat, fs2: nat)
    requires ValidCurve(c) && fs1 <= fs2
    ensures Piecewise(c, fs1) <= Piecewise(c, fs2)
  {
    var s := c.softcap.fs;
    var h := c.hardcap.fs;
    if fs2 <= s {
      RatioMonotone(fs1 as real, fs2 as real, s as real);
      LerpMonotone(c.baseChance, c.softcap.chance, (fs1 as real) / (s as real), (fs2 as real) / (s as real));
    } else if fs1 <= s {
      BelowSoftcapBounds(c, fs1);
      PiecewiseBounds(c, fs2);
      if fs2 < h {
        BetweenCapsBounds(c, fs2);
      }
    } else if fs2 < h {
      RatioMonotone((fs1 - s) as real, (fs2 - s) as real, (h - s) as real);
      LerpMonotone(c.softcap.chance, c.hardcap.chance, ((fs1 - s) as real) / ((h - s) as real), ((fs2 - s) as real) / ((h - s) as real));
    } else if fs1 < h {
      BetweenCapsBounds(c, fs1);
    }
  }

  /** The calculator's chance never falls with failstack. */
  lemma SuccessChanceMonotone(item: Item, level: Level, fs1: nat, fs2: nat)
    requires fs1 <= fs2
    ensures SuccessChance(item, level, fs1) <= SuccessChance(item, level, fs2)
  {
    PiecewiseMonotone(CurveOf(item, level), fs1, fs2);
  }

  /** A rung without table data follows the default curve: 2 percent at
      zero failstack, 40 at failstack 100 and 90 from failstack 220. */
  lemma MissingLevelChance(item: Item, level: Level, fs: nat)
    requires Requirement(item, level).None?
    ensures SuccessChance(item, level, fs) == Piecewise(DefaultCurve, fs)
    ensures SuccessChance(item, level, 0) == 2.0
    ensures SuccessChance(item, level, 100) == 40.0
    ensures fs >= 220 ==> SuccessChance(item, level, fs) == 90.0
  {
    PiecewiseAtThresholds(DefaultCurve, fs);
  }
}
