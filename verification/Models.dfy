/** The three attribution models: raw weights for the tasks that shared a core. */
module Models {
  import opened Sums
  import opened Shares

  datatype Observation = Observation(timeNs: nat, instructions: nat, cycles: nat, cacheMisses: nat)

  datatype Model = FullModel(alpha: real, beta: real) | FrequencyWeighted | CpuTimeRatio

  /** `select_model`: counters without frequency data fall back to time alone. */
  function SelectModel(hasFreq: bool, hasCounters: bool): Model
  {
    if hasCounters && hasFreq then FullModel(0.3, 1.5)
    else if hasFreq then FrequencyWeighted
    else CpuTimeRatio
  }

  /** Counters matter only together with frequencies, and then with the calibrated coefficients. */
  lemma SelectModelIs(hasFreq: bool, hasCounters: bool)
    ensures var m := SelectModel(hasFreq, hasCounters);
      && (m.FullModel? <==> hasFreq && hasCounters) && (m.FullModel? ==> m.alpha == 0.3 && m.beta == 1.5)
      && (m.FrequencyWeighted? <==> hasFreq && !hasCounters)
      && (m.CpuTimeRatio? <==> !hasFreq)
  {
  }

  function FreqFactor(freqKhz: nat): real
  {
    Sq(freqKhz as real / 1_000_000.0)
  }

  function Ratio(a: nat, b: nat): real
  {
    if b > 0 then a as real / b as real else 0.0
  }

  /** 1 + alpha * IPC + beta * cache miss ratio. */
  function WorkloadFactor(alpha: real, beta: real, o: Observation): real
  {
    1.0 + alpha * Ratio(o.instructions, o.cycles) + beta * Ratio(o.cacheMisses, o.instructions)
  }

  /** The factor is one, plus alpha times the instructions per cycle, plus beta times the misses per
      instruction; a ratio without a denominator is nothing. */
  lemma WorkloadFactorIs(alpha: real, beta: real, o: Observation, ipc: real, misses: real)
    requires if o.cycles == 0 then ipc == 0.0 else ipc * o.cycles as real == o.instructions as real
    requires if o.instructions == 0 then misses == 0.0 else misses * o.instructions as real == o.cacheMisses as real
    ensures WorkloadFactor(alpha, beta, o) == 1.0 + alpha * ipc + beta * misses
  {
    if o.cycles > 0 { QuotientOf(o.instructions as real, o.cycles as real, ipc); }
    if o.instructions > 0 { QuotientOf(o.cacheMisses as real, o.instructions as real, misses); }
  }

  /** The frequency factor is the square of the frequency in GHz. */
  lemma FreqFactorIs(freqKhz: nat, ghz: real)
    requires ghz * 1_000_000.0 == freqKhz as real
    ensures FreqFactor(freqKhz) == ghz * ghz
  {
    assert freqKhz as real / 1_000_000.0 == ghz;
  }

  function Weight(m: Model, o: Observation, c: real): real
  {
    match m
    case FullModel(alpha, beta) => o.timeNs as real * c * WorkloadFactor(alpha, beta, o)
    case FrequencyWeighted => o.timeNs as real * c
    case CpuTimeRatio => o.timeNs as real
  }

  predicate Sensible(m: Model)
  {
    m.FullModel? ==> m.alpha >= 0.0 && m.beta >= 0.0
  }

  /** The tasks observed on one core, by pid. */
  type Core = map<nat, Observation>

  function WeightOf(m: Model, core: Core, c: real, pid: nat): real
  {
    if pid in core then Weight(m, core[pid], c) else 0.0
  }

  function Weights(m: Model, core: Core, c: real): nat -> real
  {
    (pid: nat) => WeightOf(m, core, c, pid)
  }

  ghost function TotalWeight(m: Model, core: Core, c: real): real
  {
    SumR(core.Keys, Weights(m, core, c))
  }

  /** The energy a task is charged on a core: nothing if the weights add up to zero. */
  ghost function Charge(m: Model, core: Core, c: real, energy: nat, pid: nat): nat
  {
    ShareOrNothing(energy, WeightOf(m, core, c, pid), TotalWeight(m, core, c))
  }

  lemma RatioNonneg(a: nat, b: nat)
    ensures Ratio(a, b) >= 0.0
  {
    if b > 0 { RatioBounds(a as real, b as real); }
  }

  lemma FactorAtLeastOne(alpha: real, beta: real, o: Observation)
    requires alpha >= 0.0 && beta >= 0.0
    ensures WorkloadFactor(alpha, beta, o) >= 1.0
  {
    RatioNonneg(o.instructions, o.cycles);
    RatioNonneg(o.cacheMisses, o.instructions);
    ProductNonneg(alpha, Ratio(o.instructions, o.cycles));
    ProductNonneg(beta, Ratio(o.cacheMisses, o.instructions));
  }

  lemma FreqFactorSign(freqKhz: nat)
    ensures FreqFactor(freqKhz) >= 0.0
    ensures freqKhz > 0 <==> FreqFactor(freqKhz) > 0.0
  {
    var x := freqKhz as real / 1_000_000.0;
    if freqKhz > 0 {
      assert x > 0.0;
      ProductPositive(x, x);
    }
    assert FreqFactor(freqKhz) == x * x;
  }

  lemma WeightNonneg(m: Model, o: Observation, c: real)
    requires Sensible(m) && c >= 0.0
    ensures Weight(m, o, c) >= 0.0
  {
    ProductNonneg(o.timeNs as real, c);
    if m.FullModel? {
      FactorAtLeastOne(m.alpha, m.beta, o);
      ProductNonneg(o.timeNs as real * c, WorkloadFactor(m.alpha, m.beta, o));
    }
  }

  /** The models build on one another: time, times the frequency factor, times the workload factor. */
  lemma WeightsBuildUp(alpha: real, beta: real, o: Observation, c: real)
    ensures Weight(CpuTimeRatio, o, c) == o.timeNs as real
    ensures Weight(FrequencyWeighted, o, c) == c * Weight(CpuTimeRatio, o, c)
    ensures Weight(FullModel(alpha, beta), o, c) ==
      Weight(FrequencyWeighted, o, c) * WorkloadFactor(alpha, beta, o)
  {
  }

  /** A task is charged in proportion to its weight: the charge, times all weights, is the core's energy times
      the task's weight, up to less than one unit; nothing when there are no weights. */
  lemma ChargeIs(m: Model, core: Core, c: real, energy: nat, pid: nat)
    requires Sensible(m) && c >= 0.0 && pid in core
    ensures var n, all := Charge(m, core, c, energy, pid), TotalWeight(m, core, c);
      if all <= 0.0 then n == 0 else IsShare(n, energy, Weight(m, core[pid], c), all)
  {
    WeightNonneg(m, core[pid], c);
    if TotalWeight(m, core, c) > 0.0 { ShareIs(energy, Weight(m, core[pid], c), TotalWeight(m, core, c)); }
  }

  /** `(energy as f64 * ratio) as u64` for a weight, or nothing when the weights add up to nothing. */
  function ShareOrNothing(energy: nat, w: real, total: real): nat
  {
    if total <= 0.0 then 0 else Share(energy, w, total)
  }

  lemma SplitOrNothing(s: set<nat>, w: nat -> real, charge: nat -> int, energy: nat, total: real)
    requires total == SumR(s, w)
    requires forall k :: k in s ==> w(k) >= 0.0 && charge(k) == ShareOrNothing(energy, w(k), total)
    ensures 0 <= SumI(s, charge) <= energy
    ensures total > 0.0 ==> energy - |s| < SumI(s, charge)
    ensures total <= 0.0 ==> SumI(s, charge) == 0
  {
    if total > 0.0 {
      SumINonneg(s, charge);
      SplitLosesLessThanCount(s, w, charge, energy, total);
    } else {
      SumIZero<nat>(s, charge);
    }
  }

  /** On every core that is charged, the tasks receive at most the core's energy and fall short of it
      by less than their number; on any other core they receive nothing. */
  lemma CoreIsConserved(m: Model, core: Core, c: real, energy: nat, charge: nat -> int)
    requires Sensible(m) && c >= 0.0
    requires forall pid :: pid in core ==> charge(pid) == Charge(m, core, c, energy, pid)
    ensures 0 <= SumI(core.Keys, charge) <= energy
    ensures TotalWeight(m, core, c) > 0.0 ==> energy - |core| < SumI(core.Keys, charge)
    ensures TotalWeight(m, core, c) <= 0.0 ==> SumI(core.Keys, charge) == 0
  {
    WeightsNonneg(m, core, c);
    SplitOrNothing(core.Keys, Weights(m, core, c), charge, energy, TotalWeight(m, core, c));
  }

  lemma WeightsNonneg(m: Model, core: Core, c: real)
    requires Sensible(m) && c >= 0.0
    ensures forall pid :: pid in core ==> WeightOf(m, core, c, pid) >= 0.0
  {
    forall pid | pid in core ensures WeightOf(m, core, c, pid) >= 0.0 { WeightNonneg(m, core[pid], c); }
  }

  /** A task has weight exactly if it ran, at a frequency above zero unless time alone counts. */
  lemma WeightPositiveIff(m: Model, o: Observation, c: real)
    requires Sensible(m) && c >= 0.0
    ensures Weight(m, o, c) > 0.0 <==> o.timeNs > 0 && (m.CpuTimeRatio? || c > 0.0)
  {
    if o.timeNs > 0 && c > 0.0 {
      ProductPositive(o.timeNs as real, c);
      if m.FullModel? {
        FactorAtLeastOne(m.alpha, m.beta, o);
        ProductPositive(o.timeNs as real * c, WorkloadFactor(m.alpha, m.beta, o));
      }
    }
  }

  // Exact conservation.

  ghost function TotalTime(core: Core): nat
  {
    SumNat(core.Keys, core)
  }

  ghost function SumNat(s: set<nat>, core: Core): nat
  {
    SumINonneg(s, TimesOn(core));
    SumI(s, TimesOn(core))
  }

  function TimeOf(core: Core, pid: nat): int
  {
    if pid in core then core[pid].timeNs else 0
  }

  function TimesOn(core: Core): nat -> int
  {
    (pid: nat) => TimeOf(core, pid)
  }

  lemma {:induction false} TimesAsReals(s: set<nat>, core: Core)
    requires s <= core.Keys
    ensures SumR(s, Weights(CpuTimeRatio, core, 1.0)) == SumNat(s, core) as real
    decreases |s|
  {
    var w, t := Weights(CpuTimeRatio, core, 1.0), TimesOn(core);
    if s != {} {
      var k :| k in s;
      SumRTake(s, w, k);
      SumITake(s, t, k);
      TimesAsReals(s - {k}, core);
    }
  }

  /** The promise that the tasks on a core add up to its energy exactly holds, for the time-ratio
      model, precisely when the busy time divides every product of the energy with a task's time. */
  lemma {:induction false} ExactIffDivisible(core: Core, energy: nat, charge: nat -> int)
    requires TotalTime(core) > 0
    requires forall pid :: pid in core ==> charge(pid) == Charge(CpuTimeRatio, core, 1.0, energy, pid)
    ensures SumI(core.Keys, charge) == energy <==>
            forall pid :: pid in core ==> energy * core[pid].timeNs % TotalTime(core) == 0
  {
    var total := TotalTime(core);
    TimesAsReals(core.Keys, core);
    var product := (pid: nat) => energy * TimeOf(core, pid);
    forall pid | pid in core ensures charge(pid) == product(pid) / total && product(pid) >= 0 {
      ShareOfInts(energy, core[pid].timeNs, total);
    }
    SumProduct(core.Keys, core, energy, product);
    DeficitOfFloors(core.Keys, product, charge, total);
    SumTimesOne(energy, total, SumI(core.Keys, charge));
  }

  /** For every model: the tasks on a core add up to its energy exactly if every task's share of it is
      whole, or, on a core whose weights add up to nothing, if there is no energy. */
  lemma ExactIffWhole(m: Model, core: Core, c: real, energy: nat, charge: nat -> int)
    requires Sensible(m) && c >= 0.0
    requires forall pid :: pid in core ==> charge(pid) == Charge(m, core, c, energy, pid)
    ensures var total := TotalWeight(m, core, c);
      SumI(core.Keys, charge) == energy <==>
        if total > 0.0 then forall pid :: pid in core ==>
          Whole(Portion(energy, WeightOf(m, core, c, pid), total)) else energy == 0
  {
    WeightsNonneg(m, core, c);
    if TotalWeight(m, core, c) > 0.0 {
      SplitIsExactIff<nat>(core.Keys, Weights(m, core, c), charge, energy, TotalWeight(m, core, c));
    } else {
      CoreIsConserved(m, core, c, energy, charge);
    }
  }

  /** One microjoule shared evenly by two tasks reaches neither of them, under any model. */
  lemma TruncationLosesEnergy(m: Model, o: Observation, c: real)
    requires Weight(m, o, c) > 0.0
    ensures var core: Core := map[1 := o, 2 := o];
            Charge(m, core, c, 1, 1) + Charge(m, core, c, 1, 2) == 0
  {
    var core: Core := map[1 := o, 2 := o];
    var w := Weights(m, core, c);
    SumRTake(core.Keys, w, 1);
    SumRTake(core.Keys - {1}, w, 2);
    assert core.Keys - {1} - {2} == {};
    Half(Weight(m, o, c), TotalWeight(m, core, c));
  }

  lemma Half(w: real, total: real)
    requires w > 0.0 && total == w + w
    ensures Share(1, w, total) == 0
  {
    var q := w / total;
    assert q * total == w;
    assert (q - 0.5) * total == 0.0;
    if q > 0.5 { ProductPositive(q - 0.5, total); } else if q < 0.5 { ProductPositive(0.5 - q, total); }
  }

  lemma SumTimesOne(energy: nat, total: nat, sum: int)
    requires total > 0
    ensures sum == energy <==> sum * total == energy * total
  {
    if sum < energy { Scaled(energy - sum - 1, total); }
    if sum > energy { Scaled(sum - energy - 1, total); }
  }

  lemma {:induction false} SumProduct(s: set<nat>, core: Core, energy: nat, product: nat -> int)
    requires forall pid :: pid in s ==> product(pid) == energy * TimeOf(core, pid)
    ensures SumI(s, product) == energy * SumNat(s, core)
    decreases |s|
  {
    if s != {} {
      var k :| k in s;
      SumITake(s, product, k);
      SumITake(s, TimesOn(core), k);
      SumProduct(s - {k}, core, energy, product);
      DistributeInt(energy, TimeOf(core, k), SumNat(s - {k}, core));
    }
  }

  lemma DistributeInt(a: int, b: int, c: int)
    ensures a * (b + c) == a * b + a * c
  {
  }

  /** Floors reach the whole exactly if nothing is left over anywhere. */
  lemma {:induction false} DeficitOfFloors(s: set<nat>, a: nat -> int, n: nat -> int, d: nat)
    requires d > 0 && forall k :: k in s ==> a(k) >= 0 && n(k) == a(k) / d
    ensures SumI(s, n) * d <= SumI(s, a)
    ensures SumI(s, n) * d == SumI(s, a) <==> forall k :: k in s ==> a(k) % d == 0
    decreases |s|
  {
    if s != {} {
      var k :| k in s;
      SumITake(s, a, k);
      SumITake(s, n, k);
      DeficitOfFloors(s - {k}, a, n, d);
      FloorStep(a(k), n(k), d, SumI(s - {k}, a), SumI(s - {k}, n));
      assert forall j :: j in s <==> j == k || j in s - {k};
    }
  }

  lemma FloorStep(a: int, n: int, d: nat, rest: int, floors: int)
    requires d > 0 && a >= 0 && n == a / d && floors * d <= rest
    ensures (n + floors) * d <= a + rest
    ensures (n + floors) * d == a + rest <==> a % d == 0 && floors * d == rest
  {
    assert (n + floors) * d == n * d + floors * d;
    assert n * d == a - a % d;
  }

  // Refinement between models.

  lemma CommonFactorCancels(c: real, w: real, sum: real)
    requires c > 0.0 && sum > 0.0
    ensures Times(c, sum) > 0.0 && Times(c, w) / Times(c, sum) == w / sum
  {
    ProductPositive(c, sum);
    var q := w / sum;
    assert q * sum == w;
    assert q * (c * sum) == c * w;
  }

  lemma FactorCancels(s: set<nat>, t: nat -> real, w: nat -> real, c: real, energy: nat, k: nat)
    requires k in s && c >= 0.0 && forall p :: p in s ==> t(p) >= 0.0 && w(p) == Times(c, t(p))
    ensures c > 0.0 ==> ShareOrNothing(energy, w(k), SumR(s, w)) == ShareOrNothing(energy, t(k), SumR(s, t))
    ensures c == 0.0 ==> ShareOrNothing(energy, w(k), SumR(s, w)) == 0
  {
    SumRScale(s, t, w, c);
    SumRNonneg(s, t);
    ShareScaled(energy, c, t(k), SumR(s, t));
  }

  /** At any positive frequency the frequency-weighted model charges every task on a core exactly what
      the time ratio charges it; at frequency zero it charges nothing, and the core counts as idle. */
  lemma FrequencyWeightedRefinesTimeRatio(core: Core, freqKhz: nat, energy: nat, pid: nat)
    requires pid in core
    ensures var c := FreqFactor(freqKhz);
            Charge(FrequencyWeighted, core, c, energy, pid) ==
            if freqKhz > 0 then Charge(CpuTimeRatio, core, c, energy, pid) else 0
  {
    FreqFactorSign(freqKhz);
    var c := FreqFactor(freqKhz);
    FactorCancels(core.Keys, Weights(CpuTimeRatio, core, c), Weights(FrequencyWeighted, core, c), c, energy, pid);
  }

  lemma ShareScaled(energy: nat, c: real, w: real, total: real)
    requires c >= 0.0 && total >= 0.0
    ensures c > 0.0 ==> ShareOrNothing(energy, Times(c, w), Times(c, total)) == ShareOrNothing(energy, w, total)
    ensures c == 0.0 ==> ShareOrNothing(energy, Times(c, w), Times(c, total)) == 0
  {
    if c > 0.0 && total > 0.0 { CommonFactorCancels(c, w, total); }
  }

  /** The share of a task before truncation. */
  ghost function RealShare(m: Model, core: Core, c: real, pid: nat): real
  {
    Quotient(WeightOf(m, core, c, pid), TotalWeight(m, core, c))
  }

  /** x is between lo/hi and hi/lo of y. */
  predicate Within(x: real, y: real, lo: real, hi: real)
    requires lo > 0.0 && hi > 0.0
  {
    lo / hi * y <= x <= hi / lo * y
  }

  ghost predicate FactorsWithin(m: Model, core: Core, lo: real, hi: real)
    requires m.FullModel?
  {
    forall pid :: pid in core ==> lo <= WorkloadFactor(m.alpha, m.beta, core[pid]) <= hi
  }

  /** The full model moves a task's share away from its time share by at most the spread of the
      workload factors on the core: between lo/hi and hi/lo of it. */
  lemma FullModelStaysNearTimeShare(m: Model, core: Core, c: real, pid: nat, lo: real, hi: real)
    requires m.FullModel? && Sensible(m) && pid in core && c > 0.0
    requires 0.0 < lo <= hi && FactorsWithin(m, core, lo, hi)
    ensures Within(RealShare(m, core, c, pid), RealShare(CpuTimeRatio, core, c, pid), lo, hi)
  {
    forall p | p in core
      ensures Near(Weights(CpuTimeRatio, core, c)(p), Weights(m, core, c)(p), c, lo, hi)
    {
      WeightsNear(m, core, c, p, lo, hi);
    }
    NearShares(core.Keys, Weights(CpuTimeRatio, core, c), Weights(m, core, c), c, lo, hi, pid);
  }

  lemma WeightsNear(m: Model, core: Core, c: real, p: nat, lo: real, hi: real)
    requires m.FullModel? && p in core && c > 0.0 && FactorsWithin(m, core, lo, hi)
    ensures Near(WeightOf(CpuTimeRatio, core, c, p), WeightOf(m, core, c, p), c, lo, hi)
  {
    FactorBetween(core[p].timeNs as real, c, lo, WorkloadFactor(m.alpha, m.beta, core[p]), hi);
  }

  /** The weight w is the time t times a common factor c and a workload factor between lo and hi. */
  predicate Near(t: real, w: real, c: real, lo: real, hi: real)
  {
    0.0 <= t && Times(c * lo, t) <= w <= Times(c * hi, t)
  }

  function Quotient(w: real, total: real): real
  {
    if total <= 0.0 then 0.0 else w / total
  }

  lemma NearShares(s: set<nat>, t: nat -> real, w: nat -> real, c: real, lo: real, hi: real, k: nat)
    requires k in s && c > 0.0 && 0.0 < lo <= hi
    requires forall p :: p in s ==> Near(t(p), w(p), c, lo, hi)
    ensures Within(Quotient(w(k), SumR(s, w)), Quotient(t(k), SumR(s, t)), lo, hi)
  {
    SumsNear(s, t, w, c, lo, hi);
    ShareBetween(t(k), SumR(s, t), w(k), SumR(s, w), c, lo, hi);
  }

  lemma SumsNear(s: set<nat>, t: nat -> real, w: nat -> real, c: real, lo: real, hi: real)
    requires forall p :: p in s ==> Near(t(p), w(p), c, lo, hi)
    ensures Near(SumR(s, t), SumR(s, w), c, lo, hi) && forall p :: p in s ==> t(p) <= SumR(s, t)
  {
    var low, high := (p: nat) => Times(c * lo, t(p)), (p: nat) => Times(c * hi, t(p));
    SumRScale(s, t, low, c * lo);
    SumRScale(s, t, high, c * hi);
    SumRMono(s, low, w);
    SumRMono(s, w, high);
    SumRNonneg(s, t);
  }

  lemma FactorBetween(t: real, c: real, lo: real, f: real, hi: real)
    requires t >= 0.0 && c >= 0.0 && lo <= f <= hi
    ensures Near(t, t * c * f, c, lo, hi)
  {
    ProductNonneg(t, c);
    ProductNonneg(t * c, f - lo);
    ProductNonneg(t * c, hi - f);
  }

  lemma ShareBetween(t: real, time: real, w: real, weight: real, c: real, lo: real, hi: real)
    requires t <= time && c > 0.0 && 0.0 < lo <= hi
    requires Near(t, w, c, lo, hi) && Near(time, weight, c, lo, hi)
    ensures Within(Quotient(w, weight), Quotient(t, time), lo, hi)
  {
    if time > 0.0 {
      ProductPositive(c, lo);
      ProductPositive(c * lo, time);
      CrossDivide(w, weight, Times(c * hi, t), Times(c * lo, time));
      CrossDivide(Times(c * lo, t), Times(c * hi, time), w, weight);
      RatioOfProducts(c, hi, lo, t, time);
      ProductPositive(c, hi);
      RatioOfProducts(c, lo, hi, t, time);
    }
  }

  lemma RatioOfProducts(c: real, a: real, b: real, t: real, time: real)
    requires c > 0.0 && b > 0.0 && time > 0.0
    ensures Times(c * b, time) > 0.0 && Times(c * a, t) / Times(c * b, time) == a / b * (t / time)
  {
    ProductPositive(c, b);
    ProductPositive(c * b, time);
    var p, q := a / b, t / time;
    assert p * b == a && q * time == t;
    ProductOfQuotients(c, p, b, q, time);
  }

  lemma ProductOfQuotients(c: real, p: real, b: real, q: real, time: real)
    requires c * b * time > 0.0
    ensures (c * (p * b)) * (q * time) / (c * b * time) == p * q
  {
    assert (c * (p * b)) * (q * time) == (p * q) * (c * b * time);
  }

  /** A larger numerator over a smaller denominator. */
  lemma CrossDivide(a: real, b: real, a': real, b': real)
    requires 0.0 <= a <= a' && 0.0 < b' <= b
    ensures a / b <= a' / b'
  {
    var p, q := a / b, a' / b';
    assert p * b == a && q * b' == a';
    RatioBounds(a, b);
    if p > q {
      ProductPositive(p - q, b');
      ProductNonneg(p, b - b');
    }
  }
}
