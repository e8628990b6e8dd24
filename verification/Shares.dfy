/** Proportional shares that are truncated to whole units, and the rounding they lose. */
module Shares {
  import opened Sums

  function Sq(x: real): real { x * x }

  /** Rust's `x as u64`: truncation toward zero, saturating at zero for negatives. */
  function ToU64(x: real): (n: nat)
    ensures x >= 0.0 ==> n as real <= x < n as real + 1.0
    ensures x < 0.0 ==> n == 0
  {
    if x < 0.0 then 0 else x.Floor
  }

  /** `(total as f64 * (w / sum)) as u64`. */
  function Share(total: nat, w: real, sum: real): nat
    requires sum > 0.0
  {
    ToU64(total as real * (w / sum))
  }

  /** Truncating every term loses less than one unit per term. */
  lemma {:induction false} FloorSum<K(!new)>(s: set<K>, x: K -> real, n: K -> int)
    requires forall k :: k in s ==> 0.0 <= x(k) && n(k) == ToU64(x(k))
    ensures 0 <= SumI(s, n) && SumI(s, n) as real <= SumR(s, x)
    ensures s != {} ==> SumR(s, x) - |s| as real < SumI(s, n) as real
    decreases |s|
  {
    if s != {} {
      var k :| k in s;
      SumRTake(s, x, k);
      SumITake(s, n, k);
      FloorSum(s - {k}, x, n);
    }
  }

  /** Truncating loses nothing exactly if every term is whole. */
  lemma {:induction false} FloorSumExactIff<K(!new)>(s: set<K>, x: K -> real, n: K -> int)
    requires forall k :: k in s ==> 0.0 <= x(k) && n(k) == ToU64(x(k))
    ensures SumI(s, n) as real == SumR(s, x) <==> forall k :: k in s ==> n(k) as real == x(k)
    decreases |s|
  {
    if s != {} {
      var k :| k in s;
      SumRTake(s, x, k);
      SumITake(s, n, k);
      FloorSumExactIff(s - {k}, x, n);
      FloorSum(s - {k}, x, n);
      assert forall j :: j in s ==> j == k || j in s - {k};
    }
  }

  /** The shares of a total add up to the total before truncation. */
  lemma {:induction false} ShareReals<K(!new)>(s: set<K>, w: K -> real, x: K -> real, total: nat, sum: real)
    requires sum > 0.0
    requires forall k :: k in s ==> x(k) == total as real * (w(k) / sum)
    ensures SumR(s, w) == sum ==> SumR(s, x) == total as real
    ensures SumR(s, w) <= sum ==> SumR(s, x) <= total as real
    ensures (forall k :: k in s ==> w(k) >= 0.0) ==> forall k :: k in s ==> x(k) >= 0.0
  {
    forall k | k in s ensures x(k) == Times(total as real / sum, w(k)) && (w(k) >= 0.0 ==> x(k) >= 0.0) {
      ScaledShare(total as real, w(k), sum);
    }
    SumRScale(s, w, x, total as real / sum);
    ShareOfSum(total as real, SumR(s, w), sum, SumR(s, x));
  }

  lemma ShareOfSum(t: real, w: real, sum: real, x: real)
    requires sum > 0.0 && t >= 0.0 && x == Times(t / sum, w)
    ensures (w == sum ==> x == t) && (w <= sum ==> x <= t)
  {
    ScaledShare(t, w, sum);
  }

  lemma ScaledShare(t: real, w: real, sum: real)
    requires sum > 0.0 && t >= 0.0
    ensures t * (w / sum) == Times(t / sum, w)
    ensures w == sum ==> t * (w / sum) == t
    ensures w >= 0.0 ==> t * (w / sum) >= 0.0
    ensures w <= sum ==> t * (w / sum) <= t
  {
    RatioBounds(w, sum);
    var q := w / sum;
    if w >= 0.0 { ProductNonneg(t, q); }
    if w <= sum { ProductNonneg(t, 1.0 - q); }
  }

  lemma ProductNonneg(a: real, b: real)
    requires a >= 0.0 && b >= 0.0
    ensures a * b >= 0.0
  {
  }

  lemma ProductPositive(a: real, b: real)
    requires a > 0.0 && b > 0.0
    ensures a * b > 0.0
  {
  }

  lemma RatioBounds(w: real, sum: real)
    requires sum > 0.0
    ensures w >= 0.0 ==> w / sum >= 0.0
    ensures w <= sum ==> w / sum <= 1.0
  {
    var q := w / sum;
    assert q * sum == w;
    if w <= sum && q > 1.0 { ProductPositive(q - 1.0, sum); }
  }

  /** Splitting a whole total in proportion to nonnegative weights and truncating every share hands
      out at most the total and falls short by less than the number of shares. */
  lemma {:induction false} SplitLosesLessThanCount<K(!new)>(s: set<K>, w: K -> real, n: K -> int, total: nat, sum: real)
    requires sum > 0.0 && SumR(s, w) == sum
    requires forall k :: k in s ==> w(k) >= 0.0 && n(k) == Share(total, w(k), sum)
    ensures total - |s| < SumI(s, n) <= total
  {
    var x := (k: K) => total as real * (w(k) / sum);
    ShareReals(s, w, x, total, sum);
    FloorSum(s, x, n);
    assert s != {};
  }

  /** A share before truncation. */
  function Portion(total: nat, w: real, sum: real): real
    requires sum > 0.0
  {
    total as real * (w / sum)
  }

  predicate Whole(x: real)
  {
    x == x.Floor as real
  }

  /** The truncated shares add up to the whole total exactly if every share is whole. */
  lemma SplitIsExactIff<K(!new)>(s: set<K>, w: K -> real, n: K -> int, total: nat, sum: real)
    requires sum > 0.0 && SumR(s, w) == sum
    requires forall k :: k in s ==> w(k) >= 0.0 && n(k) == Share(total, w(k), sum)
    ensures SumI(s, n) == total <==> forall k :: k in s ==> Whole(Portion(total, w(k), sum))
  {
    var x := (k: K) => Portion(total, w(k), sum);
    ShareReals(s, w, x, total, sum);
    FloorSumExactIff(s, x, n);
    forall k | k in s ensures n(k) as real == x(k) <==> Whole(x(k)) { WholeIff(x(k)); }
  }

  lemma WholeIff(x: real)
    requires x >= 0.0
    ensures ToU64(x) as real == x <==> Whole(x)
  {
  }

  /** n is the part of a total that goes to the weight w of a sum, up to less than one unit. */
  ghost predicate IsShare(n: int, total: nat, w: real, sum: real)
  {
    n as real * sum <= total as real * w < n as real * sum + sum
  }

  lemma ShareIs(total: nat, w: real, sum: real)
    requires sum > 0.0 && w >= 0.0
    ensures IsShare(Share(total, w, sum), total, w, sum)
  {
    var x := total as real * (w / sum);
    RatioBounds(w, sum);
    ProductNonneg(total as real, w / sum);
    ScaledBack(total as real, w, sum, x);
    FloorTimes(Share(total, w, sum) as real, x, sum);
  }

  lemma ScaledBack(t: real, w: real, sum: real, x: real)
    requires sum > 0.0 && x == t * (w / sum)
    ensures x * sum == t * w
  {
    var q := w / sum;
    assert q * sum == w;
    assert t * q * sum == t * (q * sum);
  }

  lemma FloorTimes(n: real, x: real, sum: real)
    requires sum > 0.0 && n <= x < n + 1.0
    ensures n * sum <= x * sum < n * sum + sum
  {
    ProductNonneg(x - n, sum);
    ProductPositive(n + 1.0 - x, sum);
    assert (x - n) * sum == x * sum - n * sum;
    assert (n + 1.0 - x) * sum == n * sum + sum - x * sum;
  }

  /** p is the part of a total that goes to `part` of `whole`, up to less than one unit; none if there is no whole. */
  ghost predicate IsPart(p: int, total: int, part: int, whole: int)
  {
    if whole == 0 then p == 0 else p * whole <= total * part < p * whole + whole
  }

  lemma ShareIsPart(total: nat, part: nat, whole: nat)
    requires whole > 0
    ensures IsPart(Share(total, part as real, whole as real), total, part, whole)
  {
    ShareOfInts(total, part, whole);
    QuotientIsPart(total * part, whole);
  }

  lemma QuotientIsPart(a: nat, d: nat)
    requires d > 0
    ensures a / d * d <= a < a / d * d + d
  {
    assert a == a / d * d + a % d;
  }

  lemma ShareOfInts(energy: nat, t: nat, total: nat)
    requires total > 0
    ensures Share(energy, t as real, total as real) == energy * t / total
  {
    var q, r := energy * t / total, energy * t % total;
    assert energy * t == q * total + r;
    var x := energy as real * (t as real / total as real);
    assert x * total as real == (energy * t) as real;
    FloorOfQuotient(energy * t, total, q, r, x);
  }

  lemma FloorOfQuotient(a: nat, d: nat, q: nat, r: nat, x: real)
    requires d > 0 && a == q * d + r && r < d && x * d as real == a as real
    ensures ToU64(x) == q
  {
    var e := x - q as real;
    assert e * d as real == r as real;
    if e < 0.0 { ProductPositive(-e, d as real); }
    if e >= 1.0 { ProductNonneg(e - 1.0, d as real); }
  }

  lemma QuotientOf(a: real, b: real, q: real)
    requires b > 0.0 && q * b == a
    ensures a / b == q
  {
    var x := a / b - q;
    assert x * b == 0.0;
    if x > 0.0 { ProductPositive(x, b); } else if x < 0.0 { ProductPositive(-x, b); }
  }

  /** Integer division. */
  function FloorDiv(a: nat, d: nat): nat
    requires d > 0
  {
    if a < d then 0 else 1 + FloorDiv(a - d, d)
  }

  lemma {:induction false} FloorDivIsDivision(a: nat, d: nat)
    requires d > 0
    ensures FloorDiv(a, d) == a / d
  {
    if a < d {
      QuotientIs(a, d, 0, a);
    } else {
      FloorDivIsDivision(a - d, d);
      QuotientIs(a, d, (a - d) / d + 1, (a - d) % d);
    }
  }

  /** `energy_to_power`: microjoules over an interval to microwatts, truncated; zero for an empty interval. */
  function EnergyToPower(energyUj: nat, intervalNs: nat): nat
  {
    if intervalNs == 0 then 0 else FloorDiv(energyUj * 1_000_000_000, intervalNs)
  }

  /** p microwatts over the interval are the energy, up to less than a microwatt. */
  ghost predicate IsPower(p: int, energyUj: int, intervalNs: nat)
  {
    if intervalNs == 0 then p == 0
    else p * intervalNs <= energyUj * 1_000_000_000 < p * intervalNs + intervalNs
  }

  lemma EnergyToPowerIs(energyUj: nat, intervalNs: nat)
    ensures IsPower(EnergyToPower(energyUj, intervalNs), energyUj, intervalNs)
  {
    if intervalNs > 0 {
      var a := energyUj * 1_000_000_000;
      FloorDivIsDivision(a, intervalNs);
      QuotientIsPart(a, intervalNs);
    }
  }

  /** Converting a quantity in two parts loses at most one unit. */
  lemma EnergyToPowerAdds(a: nat, b: nat, intervalNs: nat)
    ensures 0 <= EnergyToPower(a + b, intervalNs) - EnergyToPower(a, intervalNs) - EnergyToPower(b, intervalNs) <= 1
  {
    if intervalNs != 0 {
      FloorDivIsDivision(a * 1_000_000_000, intervalNs);
      FloorDivIsDivision(b * 1_000_000_000, intervalNs);
      FloorDivIsDivision((a + b) * 1_000_000_000, intervalNs);
      FloorAdds(a * 1_000_000_000, b * 1_000_000_000, intervalNs);
    }
  }

  lemma FloorAdds(a: nat, b: nat, d: nat)
    requires d > 0
    ensures 0 <= (a + b) / d - a / d - b / d <= 1
  {
    var q, r := a / d + b / d, a % d + b % d;
    if r < d { QuotientIs(a + b, d, q, r); } else { QuotientIs(a + b, d, q + 1, r - d); }
  }

  lemma QuotientIs(x: nat, d: nat, q: int, r: int)
    requires d > 0 && x == q * d + r && 0 <= r < d
    ensures x / d == q
  {
    var e := x / d - q;
    assert e * d == r - x % d;
    if e > 0 { Scaled(e - 1, d); } else if e < 0 { Scaled(-1 - e, d); }
  }

  lemma Scaled(k: int, d: int)
    requires k >= 0 && d >= 0
    ensures k * d >= 0
  {
  }

  /** Converting every part of an energy separately loses at most one microwatt per part. */
  lemma {:induction false} PowerOfParts<K(!new)>(s: set<K>, e: K -> int, p: K -> int, rest: nat, intervalNs: nat)
    requires forall k :: k in s ==> 0 <= e(k) && p(k) == EnergyToPower(e(k), intervalNs)
    ensures 0 <= SumI(s, e)
    ensures var parts := SumI(s, p) + EnergyToPower(rest, intervalNs);
            parts <= EnergyToPower(SumI(s, e) + rest, intervalNs) <= parts + |s|
    decreases |s|
  {
    SumINonneg(s, e);
    if s != {} {
      var k :| k in s;
      SumITake(s, e, k);
      SumITake(s, p, k);
      SumINonneg(s - {k}, e);
      PowerOfParts(s - {k}, e, p, rest, intervalNs);
      EnergyToPowerAdds(e(k), SumI(s - {k}, e) + rest, intervalNs);
    }
  }
}
