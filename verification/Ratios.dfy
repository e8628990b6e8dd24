/** Power handed out by ratios that add up to at most one, and the exchange of double sums. */
module Ratios {
  import opened Sums
  import opened Shares

  /** `if sum > 0 { w / sum } else { 0.0 }`. */
  function RatioOf(w: real, sum: real): real
  {
    if sum > 0.0 then w / sum else 0.0
  }

  /** `(total as f64 * ratio) as u64`. */
  function PowerOf(total: nat, ratio: real): nat
  {
    ToU64(total as real * ratio)
  }

  lemma PowerIsPart(total: nat, part: nat, whole: nat)
    ensures IsPart(PowerOf(total, RatioOf(part as real, whole as real)), total, part, whole)
  {
    if whole > 0 {
      PowerOfQuotient(total, RatioOf(part as real, whole as real), part, whole);
    } else {
      assert PowerOf(total, 0.0) == 0;
    }
  }

  /** Six tenths of a/p and four tenths of b/c, over their common denominator. */
  lemma BlendIsPart(total: nat, a: nat, p: nat, b: nat, c: nat)
    requires p > 0 && c > 0
    ensures IsPart(PowerOf(total, 0.6 * (a as real / p as real) + 0.4 * (b as real / c as real)),
                   total, 6 * a * c + 4 * b * p, 10 * p * c)
  {
    var x, y := a as real / p as real, b as real / c as real;
    OverBoth(x, y, a, p, b, c);
    Denominator(p, c);
    PowerOfQuotient(total, 0.6 * x + 0.4 * y, 6 * a * c + 4 * b * p, 10 * p * c);
  }

  lemma Denominator(p: nat, c: nat)
    requires p > 0 && c > 0
    ensures 10 * p * c > 0
  {
  }

  lemma OverBoth(x: real, y: real, a: nat, p: nat, b: nat, c: nat)
    requires x * p as real == a as real && y * c as real == b as real
    ensures (0.6 * x + 0.4 * y) * (10 * p * c) as real == (6 * a * c + 4 * b * p) as real
  {
    CommonDenominator(x, y, a as real, p as real, b as real, c as real);
    Casts(a, p, b, c);
  }

  lemma PowerOfQuotient(total: nat, x: real, part: nat, whole: nat)
    requires whole > 0 && x * whole as real == part as real
    ensures IsPart(PowerOf(total, x), total, part, whole)
  {
    PowerIsShare(total, x, part as real, whole as real);
    ShareIsPart(total, part, whole);
  }

  lemma PowerIsShare(total: nat, x: real, part: real, whole: real)
    requires whole > 0.0 && x * whole == part
    ensures PowerOf(total, x) == Share(total, part, whole)
  {
    QuotientOf(part, whole, x);
  }

  lemma CommonDenominator(x: real, y: real, a: real, p: real, b: real, c: real)
    requires x * p == a && y * c == b
    ensures (0.6 * x + 0.4 * y) * (10.0 * p * c) == 6.0 * a * c + 4.0 * b * p
  {
    assert x * p * c == a * c && y * c * p == b * p;
    assert (0.6 * x + 0.4 * y) * (10.0 * p * c) == 6.0 * (x * p * c) + 4.0 * (y * c * p);
  }

  lemma Casts(a: nat, p: nat, b: nat, c: nat)
    ensures (6 * a * c + 4 * b * p) as real == 6.0 * a as real * c as real + 4.0 * b as real * p as real
    ensures (10 * p * c) as real == 10.0 * p as real * c as real
  {
  }

  /** Nonnegative ratios adding up to at most one. */
  ghost predicate Fits<K(!new)>(s: set<K>, x: K -> real)
  {
    (forall k :: k in s ==> x(k) >= 0.0) && SumR(s, x) <= 1.0
  }

  lemma RatioScales(w: real, sum: real)
    requires sum > 0.0
    ensures RatioOf(w, sum) == Times(1.0 / sum, w)
    ensures w >= 0.0 ==> RatioOf(w, sum) >= 0.0
    ensures w <= sum ==> RatioOf(w, sum) <= 1.0
    ensures w == sum ==> RatioOf(w, sum) == 1.0
  {
    ScaledShare(1.0, w, sum);
  }

  /** Dividing nonnegative weights by at least their sum gives ratios that fit; exactly one if it is their sum. */
  lemma {:induction false} RatiosFit<K(!new)>(s: set<K>, w: K -> real, x: K -> real, sum: real)
    requires forall k :: k in s ==> w(k) >= 0.0 && x(k) == RatioOf(w(k), sum)
    requires SumR(s, w) <= sum
    ensures Fits(s, x)
    ensures sum > 0.0 && SumR(s, w) == sum ==> SumR(s, x) == 1.0
  {
    SumRNonneg(s, w);
    if sum > 0.0 {
      forall k | k in s ensures x(k) >= 0.0 && x(k) == Times(1.0 / sum, w(k)) { RatioScales(w(k), sum); }
      SumRScale(s, w, x, 1.0 / sum);
      RatioScales(SumR(s, w), sum);
    } else {
      SumRMono(s, x, w);
    }
  }

  /** Truncated powers by fitting ratios never exceed the total, and lose less than one unit per
      share when the ratios add up to one. */
  lemma {:induction false} PowersFit<K(!new)>(s: set<K>, x: K -> real, n: K -> int, total: nat)
    requires Fits(s, x) && forall k :: k in s ==> n(k) == PowerOf(total, x(k))
    ensures 0 <= SumI(s, n) <= total
    ensures SumR(s, x) == 1.0 ==> total - |s| < SumI(s, n)
  {
    var y := (k: K) => Times(total as real, x(k));
    forall k | k in s ensures y(k) >= 0.0 && n(k) == ToU64(y(k)) { ProductNonneg(total as real, x(k)); }
    SumRScale(s, x, y, total as real);
    FloorSum(s, y, n);
    AtMostOne(total as real, SumR(s, x));
    assert SumR(s, x) == 1.0 ==> s != {};
  }

  lemma AtMostOne(t: real, x: real)
    requires t >= 0.0 && x <= 1.0
    ensures Times(t, x) <= t
    ensures x == 1.0 ==> Times(t, x) == t
  {
    ProductNonneg(t, 1.0 - x);
  }

  /** A blend of two fitting ratios fits. */
  lemma {:induction false} BlendFits<K(!new)>(s: set<K>, a: K -> real, b: K -> real, x: K -> real)
    requires Fits(s, a) && Fits(s, b)
    requires forall k :: k in s ==> x(k) == 0.6 * a(k) + 0.4 * b(k)
    ensures Fits(s, x) && SumR(s, x) == 0.6 * SumR(s, a) + 0.4 * SumR(s, b)
  {
    var a', b' := (k: K) => Times(0.6, a(k)), (k: K) => Times(0.4, b(k));
    SumRScale(s, a, a', 0.6);
    SumRScale(s, b, b', 0.4);
    SumRPlus(s, a', b', x);
  }

  // Double sums.

  ghost function Row<A(!new), B(!new)>(b: set<B>, g: (A, B) -> real): A -> real
  {
    (x: A) => SumR(b, Cells(g, x))
  }

  ghost function Column<A(!new), B(!new)>(a: set<A>, g: (A, B) -> real): B -> real
  {
    (y: B) => SumR(a, CellsOf(g, y))
  }

  function Cells<A, B>(g: (A, B) -> real, x: A): B -> real
  {
    (y: B) => g(x, y)
  }

  function CellsOf<A, B>(g: (A, B) -> real, y: B): A -> real
  {
    (x: A) => g(x, y)
  }

  /** Adding up a table by rows or by columns gives the same total. */
  lemma {:induction false} Exchange<A(!new), B(!new)>(a: set<A>, b: set<B>, g: (A, B) -> real)
    ensures SumR(a, Row(b, g)) == SumR(b, Column(a, g))
    decreases |a|
  {
    if a == {} {
      var zero := (y: B) => 0.0;
      SumRScale(b, zero, Column(a, g), 0.0);
    } else {
      var x :| x in a;
      SumRTake(a, Row(b, g), x);
      Exchange(a - {x}, b, g);
      forall y | y in b ensures Column(a, g)(y) == Column(a - {x}, g)(y) + Cells(g, x)(y) {
        SumRTake(a, CellsOf(g, y), x);
      }
      SumRPlus(b, Column(a - {x}, g), Cells(g, x), Column(a, g));
    }
  }

  /** A sum over keys that matter only inside t. */
  lemma {:induction false} SumWithin<K(!new)>(s: set<K>, t: set<K>, f: K -> real)
    requires forall k :: k in s + t ==> f(k) >= 0.0
    requires forall k :: k in s && k !in t ==> f(k) == 0.0
    ensures SumR(s, f) <= SumR(t, f)
  {
    SumOnly(s, s * t, f);
    SplitSet(t, s);
    SumRUnion(t * s, t - s, f);
    SumRNonneg(t - s, f);
    assert s * t == t * s;
  }

  /** Keys outside t add nothing. */
  lemma {:induction false} SumOnly<K(!new)>(s: set<K>, t: set<K>, f: K -> real)
    requires t <= s && forall k :: k in s && k !in t ==> f(k) == 0.0
    ensures SumR(s, f) == SumR(t, f)
  {
    var zero := (k: K) => 0.0;
    SplitSet(s, t);
    SumRUnion(s * t, s - t, f);
    SumRScale(s - t, zero, f, 0.0);
    assert s * t == t;
  }

  lemma SplitSet<K>(s: set<K>, t: set<K>)
    ensures s == s * t + (s - t)
  {
  }

  /** The same for integers. */
  lemma {:induction false} SumIWithin<K(!new)>(s: set<K>, t: set<K>, f: K -> int)
    requires forall k :: k in s + t ==> f(k) >= 0
    requires forall k :: k in s && k !in t ==> f(k) == 0
    ensures 0 <= SumI(s, f) <= SumI(t, f)
  {
    SplitSet(s, t);
    SplitSet(t, s);
    SumIUnion(s * t, s - t, f);
    SumIUnion(t * s, t - s, f);
    SumINonneg(t - s, f);
    SumINonneg(s * t, f);
    SumIZero(s - t, f);
    assert s * t == t * s;
  }
}
