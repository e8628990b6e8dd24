/** Placement scores: how full a node is, how well it is metered, and how the two strategies rank. */
module Scores {
  import opened Options
  import opened Shares
  import opened Aggregator
  import opened ClusterViews

  datatype Strategy = BinPack | Spread

  datatype Weights = Weights(headroom: real, accuracy: real)

  const DEFAULT := Weights(0.7, 0.3)

  const U32_MAX := 0xFFFF_FFFF

  /** Rust's `x as u32`: truncating and saturating at both ends. */
  function ToU32(x: real): nat
  {
    if ToU64(x) > U32_MAX then U32_MAX else ToU64(x)
  }

  function Used(r: NodeReport): nat
  {
    r.cpuUw + r.memoryUw + r.gpuUw
  }

  /** `(used / platform).min(1.0)`. A platform reading of zero divides to infinity or to NaN, and the
      minimum with one is one either way. */
  function Utilization(used: nat, platform: nat): real
  {
    if platform == 0 || used >= platform then 1.0 else used as real / platform as real
  }

  /** `headroom / platform`. For a platform reading of zero this is NaN, which casts to zero. */
  function Free(headroom: nat, platform: nat): real
  {
    if platform == 0 then 0.0 else headroom as real / platform as real
  }

  function HeadroomScore(strategy: Strategy, n: NodeSummary): nat
  {
    match strategy
    case BinPack => ToU32((if n.report.platformUw.Some? then Utilization(Used(n.report), n.report.platformUw.value)
      else 0.5) * 100.0)
    case Spread =>
      if n.headroomUw.Some? && n.report.platformUw.Some?
        then ToU32(Free(n.headroomUw.value, n.report.platformUw.value) * 100.0) else 50
  }

  function AccuracyScore(n: NodeSummary): nat
  {
    ToU32((1.0 - n.report.errorRatio) * 100.0)
  }

  /** Before the cap. */
  function Combined(strategy: Strategy, w: Weights, n: NodeSummary): nat
  {
    Weighted(HeadroomScore(strategy, n), AccuracyScore(n), w)
  }

  function Blend(headroom: nat, accuracy: nat, w: Weights): real
  {
    headroom as real * w.headroom + accuracy as real * w.accuracy
  }

  function Weighted(headroom: nat, accuracy: nat, w: Weights): nat
  {
    ToU32(Blend(headroom, accuracy, w))
  }

  function Score(strategy: Strategy, w: Weights, n: NodeSummary): nat
  {
    if Combined(strategy, w, n) > 100 then 100 else Combined(strategy, w, n)
  }

  // What the scores are, in whole numbers.

  /** x is a percentage: 100 times the ratio of part to whole, truncated. */
  ghost predicate IsPercent(x: int, part: nat, whole: nat)
  {
    IsPart(x, 100, part, whole)
  }

  /** BinPack gives the percentage of the platform's power that CPU, memory and GPU use, at most 100, and 100
      for a reading of zero; Spread the percentage that the headroom is. Both give 50 without a reading. */
  lemma HeadroomScoreIs(n: NodeSummary)
    requires IsSummary(n)
    ensures n.report.platformUw.None? ==> HeadroomScore(BinPack, n) == 50 && HeadroomScore(Spread, n) == 50
    ensures n.report.platformUw.Some? ==>
      var used, platform := n.report.cpuUw + n.report.memoryUw + n.report.gpuUw, n.report.platformUw.value;
      if used < platform then
        IsPercent(HeadroomScore(BinPack, n), used, platform) &&
        IsPercent(HeadroomScore(Spread, n), platform - used, platform)
      else
        HeadroomScore(BinPack, n) == 100 && HeadroomScore(Spread, n) == 0
  {
    HeadroomIs(NodeState(n.report, n.lastSeen));
    if n.report.platformUw.Some? {
      var used, platform := Used(n.report), n.report.platformUw.value;
      if used < platform {
        PercentIs(used, platform);
        PercentIs(platform - used, platform);
      } else if platform > 0 {
        PercentIs(0, platform);
        assert IsPercent(HeadroomScore(Spread, n), 0, platform);
      }
    }
  }

  lemma PercentIs(part: nat, whole: nat)
    requires part <= whole && whole > 0
    ensures IsPercent(ToU32(part as real / whole as real * 100.0), part, whole)
  {
    RatioBounds(part as real, whole as real);
    ShareIsPart(100, part, whole);
    PercentIsShare(part as real, whole as real);
  }

  lemma PercentIsShare(part: real, whole: real)
    requires 0.0 <= part <= whole && whole > 0.0
    ensures ToU32(part / whole * 100.0) == Share(100, part, whole)
  {
    RatioBounds(part, whole);
    assert part / whole * 100.0 == 100.0 * (part / whole);
  }

  /** The accuracy score is the percentage that the error leaves of one, truncated, and kept in the range of
      a u32. */
  lemma AccuracyScoreIs(n: NodeSummary)
    ensures var x := 100.0 - 100.0 * n.report.errorRatio;
      && (x < 0.0 ==> AccuracyScore(n) == 0) && (x >= 4_294_967_295.0 ==> AccuracyScore(n) == 4_294_967_295)
      && (0.0 <= x < 4_294_967_295.0 ==> AccuracyScore(n) as real <= x < AccuracyScore(n) as real + 1.0)
  {
    assert (1.0 - n.report.errorRatio) * 100.0 == 100.0 - 100.0 * n.report.errorRatio;
  }

  /** The score weighs headroom and accuracy, truncates and caps at 100. */
  lemma ScoreIs(strategy: Strategy, w: Weights, n: NodeSummary, h: nat, a: nat)
    requires h == HeadroomScore(strategy, n) && a == AccuracyScore(n)
    ensures IsCapped(Score(strategy, w, n), Blend(h, a, w))
  {
    CappedIs(Blend(h, a, w));
    assert Combined(strategy, w, n) == Weighted(h, a, w);
  }

  /** s is x, truncated and kept between 0 and 100. */
  ghost predicate IsCapped(s: int, x: real)
  {
    && (x < 0.0 ==> s == 0)
    && (0.0 <= x < 100.0 ==> s as real <= x < s as real + 1.0)
    && (x >= 100.0 ==> s == 100)
  }

  lemma CappedIs(x: real)
    ensures IsCapped(if ToU32(x) > 100 then 100 else ToU32(x), x)
  {
  }

  /** Seven tenths for headroom and three for accuracy. */
  lemma DefaultScoreIs(strategy: Strategy, n: NodeSummary)
    ensures var x := 7 * HeadroomScore(strategy, n) + 3 * AccuracyScore(n);
      if x >= 1000 then Score(strategy, DEFAULT, n) == 100
      else 10 * Score(strategy, DEFAULT, n) <= x < 10 * Score(strategy, DEFAULT, n) + 10
  {
    ScoreIs(strategy, DEFAULT, n, HeadroomScore(strategy, n), AccuracyScore(n));
  }

  /** A summary the aggregator makes. */
  predicate IsSummary(n: NodeSummary)
  {
    n == Summarise(NodeState(n.report, n.lastSeen))
  }

  lemma UtilizationBounds(used: nat, platform: nat)
    ensures 0.0 <= Utilization(used, platform) <= 1.0
    ensures platform > 0 ==>
      Utilization(used, platform) + Free(if platform >= used then platform - used else 0, platform) == 1.0
  {
    if platform > 0 {
      RatioBounds(used as real, platform as real);
      if used < platform { Complement(used as real, platform as real); } else {
        Complement(platform as real, platform as real);
      }
    }
  }

  lemma Complement(u: real, p: real)
    requires p > 0.0
    ensures u / p + (p - u) / p == 1.0
  {
    var q, r := u / p, (p - u) / p;
    assert q * p == u && r * p == p - u;
    PartsOfOne(q, r, u, p);
  }

  lemma PartsOfOne(q: real, r: real, u: real, p: real)
    requires p > 0.0 && q * p == u && r * p == p - u
    ensures q + r == 1.0
  {
    var x := q + r - 1.0;
    assert x * p == q * p + r * p - p;
    if x > 0.0 { ProductPositive(x, p); } else if x < 0.0 { ProductPositive(-x, p); }
  }

  lemma HeadroomAtMost100(strategy: Strategy, n: NodeSummary)
    requires IsSummary(n)
    ensures HeadroomScore(strategy, n) <= 100
  {
    if n.report.platformUw.Some? { UtilizationBounds(Used(n.report), n.report.platformUw.value); }
  }

  /** With the default weights no node with this error ratio scores more than 100 before the cap. */
  ghost predicate NeverCapped(errorRatio: real)
  {
    forall strategy: Strategy, n: NodeSummary ::
      IsSummary(n) && n.report.errorRatio == errorRatio ==> Combined(strategy, DEFAULT, n) <= 100
  }

  /** A node whose platform reading is zero counts as full under BinPack. */
  function FullNode(errorRatio: real): NodeSummary
  {
    Summarise(NodeState(NodeReport("", 0, 0, 0, Some(0), None, 0, errorRatio, 0, "", "", ""), 0))
  }

  /** The cap is never needed at an error ratio exactly if the ratio is above -0.04; in particular never
      for the nonnegative ratios that agents compute. */
  lemma CapNeverBindsIff(errorRatio: real)
    ensures NeverCapped(errorRatio) <==> errorRatio > -0.04
  {
    if errorRatio > -0.04 {
      forall strategy: Strategy, n: NodeSummary | IsSummary(n) && n.report.errorRatio == errorRatio
        ensures Combined(strategy, DEFAULT, n) <= 100
      {
        HeadroomAtMost100(strategy, n);
        assert AccuracyScore(n) <= 103;
      }
    } else {
      var n := FullNode(errorRatio);
      assert HeadroomScore(BinPack, n) == 100;
      assert AccuracyScore(n) >= 104;
      assert IsSummary(n) && Combined(BinPack, DEFAULT, n) > 100;
    }
  }

  /** On a node with platform power the two headroom scores add up to 100, or 99 if both are truncated. */
  lemma StrategiesAreComplementary(n: NodeSummary)
    requires IsSummary(n) && n.report.platformUw.Some? && n.report.platformUw.value > 0
    ensures var sum := HeadroomScore(BinPack, n) + HeadroomScore(Spread, n); sum == 99 || sum == 100
  {
    UtilizationBounds(Used(n.report), n.report.platformUw.value);
  }

  lemma UtilizationGrows(used: nat, more: nat, platform: nat)
    requires used <= more
    ensures Utilization(used, platform) <= Utilization(more, platform)
  {
    UtilizationBounds(used, platform);
    if more < platform { Divides(used as real, more as real, platform as real); }
  }

  lemma Divides(a: real, b: real, p: real)
    requires a <= b && p > 0.0
    ensures a / p <= b / p
  {
    RatioBounds(b - a, p);
    assert a / p * p == a && b / p * p == b && (b - a) / p * p == b - a;
    assert (b / p - a / p - (b - a) / p) * p == 0.0;
    if b / p - a / p < (b - a) / p { ProductPositive((b - a) / p - (b / p - a / p), p); }
  }

  predicate Comparable(a: NodeSummary, b: NodeSummary)
  {
    && IsSummary(a) && IsSummary(b)
    && a.report.platformUw.Some? && a.report.platformUw == b.report.platformUw && a.report.platformUw.value > 0
    && a.report.errorRatio == b.report.errorRatio
  }

  /** For equal platform power and equal error, the busier node never scores lower under BinPack and
      never higher under Spread. */
  lemma StrategiesRankOppositely(a: NodeSummary, b: NodeSummary, w: Weights)
    requires Comparable(a, b) && Used(a.report) <= Used(b.report) && w.headroom >= 0.0
    ensures Score(BinPack, w, a) <= Score(BinPack, w, b)
    ensures Score(Spread, w, a) >= Score(Spread, w, b)
  {
    HeadroomRanks(a, b);
    WeightedGrows(HeadroomScore(BinPack, a), HeadroomScore(BinPack, b), AccuracyScore(a), w);
    WeightedGrows(HeadroomScore(Spread, b), HeadroomScore(Spread, a), AccuracyScore(a), w);
  }

  /** Between nodes that differ in their error ratio only, the better metered one never scores lower. */
  lemma AccuracyRaisesTheScore(strategy: Strategy, a: NodeSummary, b: NodeSummary, w: Weights)
    requires a == b.(report := b.report.(errorRatio := a.report.errorRatio)) &&
      a.report.errorRatio <= b.report.errorRatio && w.accuracy >= 0.0
    ensures Score(strategy, w, a) >= Score(strategy, w, b)
  {
    AccuracyRanks(strategy, a, b);
    AccuracyGrows(HeadroomScore(strategy, a), AccuracyScore(b), AccuracyScore(a), w);
  }

  lemma AccuracyRanks(strategy: Strategy, a: NodeSummary, b: NodeSummary)
    requires a == b.(report := b.report.(errorRatio := a.report.errorRatio)) &&
      a.report.errorRatio <= b.report.errorRatio
    ensures HeadroomScore(strategy, a) == HeadroomScore(strategy, b) && AccuracyScore(a) >= AccuracyScore(b)
  {
  }

  lemma AccuracyGrows(h: nat, x: nat, x': nat, w: Weights)
    requires x <= x' && w.accuracy >= 0.0
    ensures Weighted(h, x, w) <= Weighted(h, x', w)
  {
    ProductGrows(x as real, x' as real, w.accuracy);
    ToU32Grows(Blend(h, x, w), Blend(h, x', w));
  }

  lemma ProductGrows(x: real, y: real, c: real)
    requires x <= y && c >= 0.0
    ensures x * c <= y * c
  {
    ProductNonneg(y - x, c);
    assert (y - x) * c == y * c - x * c;
  }

  lemma ToU32Grows(x: real, y: real)
    requires x <= y
    ensures ToU32(x) <= ToU32(y)
  {
  }

  lemma HeadroomRanks(a: NodeSummary, b: NodeSummary)
    requires Comparable(a, b) && Used(a.report) <= Used(b.report)
    ensures HeadroomScore(BinPack, a) <= HeadroomScore(BinPack, b) &&
      HeadroomScore(Spread, a) >= HeadroomScore(Spread, b)
    ensures AccuracyScore(a) == AccuracyScore(b)
  {
    var p := a.report.platformUw.value;
    UtilizationGrows(Used(a.report), Used(b.report), p);
    UtilizationBounds(Used(a.report), p);
    UtilizationBounds(Used(b.report), p);
  }

  lemma WeightedGrows(h: nat, h': nat, accuracy: nat, w: Weights)
    requires h <= h' && w.headroom >= 0.0
    ensures Weighted(h, accuracy, w) <= Weighted(h', accuracy, w)
  {
    ProductGrows(h as real, h' as real, w.headroom);
    ToU32Grows(Blend(h, accuracy, w), Blend(h', accuracy, w));
  }
}
