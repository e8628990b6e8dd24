/** Which way the tuner goes: said of the error itself, and of the tasks the error is computed from. */
module TunerDescent {
  import opened Sums
  import opened Shares
  import opened KernelData
  import opened Tuner
  import opened TunerError
  import opened TunerRun

  /** The gradients are the differences of the error over a step of 0.01. */
  lemma GradientsAre(pids: seq<PidObs>, alpha: real, beta: real, sqrt: real -> real)
    requires AllAdmitted(pids)
    ensures var error := ConsistencyError(pids, alpha, beta, sqrt);
      && GradAlpha(pids, alpha, beta, sqrt) == 100.0 * (ConsistencyError(pids, alpha + 0.01, beta, sqrt) - error)
      && GradBeta(pids, alpha, beta, sqrt) == 100.0 * (ConsistencyError(pids, alpha, beta + 0.01, sqrt) - error)
  {
  }

  /** Raising alpha by da and beta by db changes the error of every qualifying core the same way: it falls
      (`down`) or rises, and strictly so if `strict`. */
  ghost predicate ErrorMoves(cores: Cores, s: State, sqrt: real -> real, da: real, db: real, down: bool, strict: bool)
    requires CoresAdmitted(cores)
  {
    forall core :: core in Qualifying(cores) ==>
      Moves(ConsistencyError(cores[core], s.alpha, s.beta, sqrt),
            ConsistencyError(cores[core], s.alpha + da, s.beta + db, sqrt), down, strict)
  }

  predicate Moves(before: real, after: real, down: bool, strict: bool)
  {
    (down ==> after <= before) && (!down ==> after >= before) && (strict ==> after != before)
  }

  lemma {:induction false} SumSign(s: set<nat>, f: nat -> real, down: bool, strict: bool)
    requires forall k :: k in s ==> Moves(0.0, f(k), down, strict)
    ensures if down then SumR(s, f) <= 0.0 else SumR(s, f) >= 0.0
    ensures strict && s != {} ==> SumR(s, f) != 0.0
    decreases |s|
  {
    if s != {} {
      var k :| k in s;
      SumRTake(s, f, k);
      SumSign(s - {k}, f, down, strict);
    }
  }

  /** A coefficient x moved by a gradient that is the average of count values adding up to sum. */
  lemma MoveSign(x: real, rate: real, ema: real, sum: real, count: nat, lo: real, hi: real)
    requires lo <= x <= hi && rate >= 0.0 && count > 0
    ensures var x' := Moved(x, rate, Smoothed(ema, sum / count as real), lo, hi);
      && (sum <= 0.0 && ema <= 0.0 ==> x' >= x) && (sum >= 0.0 && ema >= 0.0 ==> x' <= x)
      && (sum < 0.0 && ema <= 0.0 && rate > 0.0 && x < hi ==> x' > x)
      && (sum > 0.0 && ema >= 0.0 && rate > 0.0 && x > lo ==> x' < x)
  {
    var g := sum / count as real;
    AverageSign(sum, count as real, g);
    MovesAgainst(x, rate, Smoothed(ema, g), lo, hi);
    if rate > 0.0 && Smoothed(ema, g) < 0.0 { ProductPositive(rate, -Smoothed(ema, g)); }
    if rate > 0.0 && Smoothed(ema, g) > 0.0 { ProductPositive(rate, Smoothed(ema, g)); }
  }

  lemma AverageSign(sum: real, n: real, g: real)
    requires n > 0.0 && g == sum / n
    ensures (g < 0.0 <==> sum < 0.0) && (g > 0.0 <==> sum > 0.0)
  {
    assert g * n == sum;
    if g > 0.0 { ProductPositive(g, n); } else if g < 0.0 { ProductPositive(-g, n); }
  }

  /** The update follows the error. If raising alpha by 0.01 does not raise the error of any qualifying core,
      and the average does not say otherwise, alpha does not fall; if it lowers all of them and there is
      room, alpha rises. Likewise downwards. */
  lemma AlphaFollowsTheError(s: State, cores: Cores, rate: real, sqrt: real -> real, down: bool, strict: bool)
    requires CoresAdmitted(cores) && InRange(s) && rate >= 0.0
    requires ErrorMoves(cores, s, sqrt, 0.01, 0.0, down, strict)
    requires if down then s.alphaEma <= 0.0 else s.alphaEma >= 0.0
    ensures var s' := Updated(s, cores, rate, sqrt);
      && (if down then s'.alpha >= s.alpha else s'.alpha <= s.alpha)
      && (strict && Qualifying(cores) != {} && rate > 0.0 && (if down then s.alpha < 2.0 else s.alpha > 0.05) ==>
            s'.alpha != s.alpha)
  {
    var q := Qualifying(cores);
    if q != {} {
      var sum := SumR(q, AlphaGrads(cores, s.alpha, s.beta, sqrt));
      AlphaSumSign(cores, s, sqrt, down, strict);
      AlphaIs(s, cores, rate, sqrt, sum);
      MoveSign(s.alpha, rate, s.alphaEma, sum, |q|, 0.05, 2.0);
    }
  }

  lemma AlphaIs(s: State, cores: Cores, rate: real, sqrt: real -> real, sum: real)
    requires Qualifying(cores) != {} && sum == SumR(Qualifying(cores), AlphaGrads(cores, s.alpha, s.beta, sqrt))
    ensures Updated(s, cores, rate, sqrt).alpha ==
      Moved(s.alpha, rate, Smoothed(s.alphaEma, sum / |Qualifying(cores)| as real), 0.05, 2.0)
  {
  }

  lemma AlphaGradSign(pids: seq<PidObs>, alpha: real, beta: real, sqrt: real -> real, down: bool, strict: bool)
    requires AllAdmitted(pids)
    requires Moves(ConsistencyError(pids, alpha, beta, sqrt), ConsistencyError(pids, alpha + 0.01, beta + 0.0, sqrt),
      down, strict)
    ensures Moves(0.0, GradAlpha(pids, alpha, beta, sqrt), down, strict)
  {
    GradientsAre(pids, alpha, beta, sqrt);
  }

  lemma AlphaSumSign(cores: Cores, s: State, sqrt: real -> real, down: bool, strict: bool)
    requires CoresAdmitted(cores) && ErrorMoves(cores, s, sqrt, 0.01, 0.0, down, strict)
    ensures var sum := SumR(Qualifying(cores), AlphaGrads(cores, s.alpha, s.beta, sqrt));
      (if down then sum <= 0.0 else sum >= 0.0) && (strict && Qualifying(cores) != {} ==> sum != 0.0)
  {
    var q, f := Qualifying(cores), AlphaGrads(cores, s.alpha, s.beta, sqrt);
    forall core | core in q ensures Moves(0.0, f(core), down, strict) {
      AlphaGradSign(cores[core], s.alpha, s.beta, sqrt, down, strict);
    }
    SumSign(q, f, down, strict);
  }

  lemma BetaFollowsTheError(s: State, cores: Cores, rate: real, sqrt: real -> real, down: bool, strict: bool)
    requires CoresAdmitted(cores) && InRange(s) && rate >= 0.0
    requires ErrorMoves(cores, s, sqrt, 0.0, 0.01, down, strict)
    requires if down then s.betaEma <= 0.0 else s.betaEma >= 0.0
    ensures var s' := Updated(s, cores, rate, sqrt);
      && (if down then s'.beta >= s.beta else s'.beta <= s.beta)
      && (strict && Qualifying(cores) != {} && rate > 0.0 && (if down then s.beta < 10.0 else s.beta > 0.01) ==>
            s'.beta != s.beta)
  {
    var q := Qualifying(cores);
    if q != {} {
      var sum := SumR(q, BetaGrads(cores, s.alpha, s.beta, sqrt));
      BetaSumSign(cores, s, sqrt, down, strict);
      BetaIs(s, cores, rate, sqrt, sum);
      MoveSign(s.beta, rate, s.betaEma, sum, |q|, 0.01, 10.0);
    }
  }

  lemma BetaIs(s: State, cores: Cores, rate: real, sqrt: real -> real, sum: real)
    requires Qualifying(cores) != {} && sum == SumR(Qualifying(cores), BetaGrads(cores, s.alpha, s.beta, sqrt))
    ensures Updated(s, cores, rate, sqrt).beta ==
      Moved(s.beta, rate, Smoothed(s.betaEma, sum / |Qualifying(cores)| as real), 0.01, 10.0)
  {
  }

  lemma BetaGradSign(pids: seq<PidObs>, alpha: real, beta: real, sqrt: real -> real, down: bool, strict: bool)
    requires AllAdmitted(pids)
    requires Moves(ConsistencyError(pids, alpha, beta, sqrt), ConsistencyError(pids, alpha + 0.0, beta + 0.01, sqrt),
      down, strict)
    ensures Moves(0.0, GradBeta(pids, alpha, beta, sqrt), down, strict)
  {
    GradientsAre(pids, alpha, beta, sqrt);
  }

  lemma BetaSumSign(cores: Cores, s: State, sqrt: real -> real, down: bool, strict: bool)
    requires CoresAdmitted(cores) && ErrorMoves(cores, s, sqrt, 0.0, 0.01, down, strict)
    ensures var sum := SumR(Qualifying(cores), BetaGrads(cores, s.alpha, s.beta, sqrt));
      (if down then sum <= 0.0 else sum >= 0.0) && (strict && Qualifying(cores) != {} ==> sum != 0.0)
  {
    var q, f := Qualifying(cores), BetaGrads(cores, s.alpha, s.beta, sqrt);
    forall core | core in q ensures Moves(0.0, f(core), down, strict) {
      BetaGradSign(cores[core], s.alpha, s.beta, sqrt, down, strict);
    }
    SumSign(q, f, down, strict);
  }

  // Which cores qualify.

  lemma {:induction false} MaxIpcIs(pids: seq<PidObs>)
    requires pids != [] && AllAdmitted(pids)
    ensures forall i :: 0 <= i < |pids| ==> pids[i].ipc <= MaxIpc(pids)
    ensures exists i :: 0 <= i < |pids| && pids[i].ipc == MaxIpc(pids)
  {
    var n := |pids| - 1;
    if n == 0 {
      assert pids[..0] == [];
      assert pids[0].ipc == MaxIpc(pids);
    } else {
      MaxIpcIs(pids[..n]);
      var i :| 0 <= i < n && pids[..n][i].ipc == MaxIpc(pids[..n]);
      assert pids[if pids[n].ipc > pids[i].ipc then n else i].ipc == MaxIpc(pids);
    }
  }

  lemma {:induction false} MinIpcIs(pids: seq<PidObs>)
    requires pids != []
    ensures forall i :: 0 <= i < |pids| ==> pids[i].ipc >= MinIpc(pids)
    ensures exists i :: 0 <= i < |pids| && pids[i].ipc == MinIpc(pids)
  {
    var n := |pids| - 1;
    if n == 0 {
      assert pids[0].ipc == MinIpc(pids);
    } else {
      MinIpcIs(pids[..n]);
      var i :| 0 <= i < n && pids[..n][i].ipc == MinIpc(pids[..n]);
      assert pids[if pids[n].ipc < pids[i].ipc then n else i].ipc == MinIpc(pids);
    }
  }

  /** Some task does at least twice as many instructions per cycle as some other. */
  ghost predicate Differ(pids: seq<PidObs>)
  {
    exists i, j :: 0 <= i < |pids| && 0 <= j < |pids| && pids[i].ipc >= 2.0 * pids[j].ipc
  }

  /** x' is x less a step, kept between lo and hi. */
  ghost predicate IsStep(x': real, x: real, step: real, lo: real, hi: real)
  {
    lo <= x' <= hi && (x' < hi ==> x' + step >= x) && (x' > lo ==> x' + step <= x)
  }

  ghost predicate IsAverage(a: real, s: set<nat>, f: nat -> real)
  {
    a * |s| as real == SumR(s, f)
  }

  lemma AverageIs(a: real, s: set<nat>, f: nat -> real)
    requires s != {} && IsAverage(a, s, f)
    ensures SumR(s, f) / |s| as real == a
  {
    assert |s| > 0;
    QuotientOf(SumR(s, f), |s| as real, a);
  }

  /** An update in full. With the average gradients a and b over the qualifying cores, a tenth of the moving
      average is new, and each coefficient steps by the learning rate times its moving average. */
  lemma UpdateIs(s: State, cores: Cores, rate: real, sqrt: real -> real, a: real, b: real)
    requires Qualifying(cores) != {}
    requires IsAverage(a, Qualifying(cores), AlphaGrads(cores, s.alpha, s.beta, sqrt))
    requires IsAverage(b, Qualifying(cores), BetaGrads(cores, s.alpha, s.beta, sqrt))
    ensures var s' := Updated(s, cores, rate, sqrt);
      && 10.0 * s'.alphaEma == 9.0 * s.alphaEma + a && 10.0 * s'.betaEma == 9.0 * s.betaEma + b
      && IsStep(s'.alpha, s.alpha, Times(rate, s'.alphaEma), 0.05, 2.0)
      && IsStep(s'.beta, s.beta, Times(rate, s'.betaEma), 0.01, 10.0)
      && s'.updates == s.updates + 1 && s'.qualifyingCores == s.qualifyingCores + |Qualifying(cores)|
  {
    var q := Qualifying(cores);
    AverageIs(a, q, AlphaGrads(cores, s.alpha, s.beta, sqrt));
    AverageIs(b, q, BetaGrads(cores, s.alpha, s.beta, sqrt));
    SmoothedIs(s.alphaEma, a);
    SmoothedIs(s.betaEma, b);
    MovedIs(s.alpha, rate, Smoothed(s.alphaEma, a), 0.05, 2.0);
    MovedIs(s.beta, rate, Smoothed(s.betaEma, b), 0.01, 10.0);
  }

  lemma SmoothedIs(ema: real, g: real)
    ensures 10.0 * Smoothed(ema, g) == 9.0 * ema + g
  {
  }

  lemma MovedIs(x: real, rate: real, ema: real, lo: real, hi: real)
    requires lo < hi
    ensures IsStep(Moved(x, rate, ema, lo, hi), x, Times(rate, ema), lo, hi)
  {
  }

  /** A core qualifies if and only if it ran two tasks or more, all of them did something, and they differ. */
  lemma QualifiesIff(pids: seq<PidObs>)
    requires AllAdmitted(pids)
    ensures Qualifies(pids) <==>
      |pids| >= 2 && (forall i :: 0 <= i < |pids| ==> pids[i].ipc > 0.0) && Differ(pids)
  {
    if |pids| >= 2 {
      MaxIpcIs(pids);
      MinIpcIs(pids);
      var hi :| 0 <= hi < |pids| && pids[hi].ipc == MaxIpc(pids);
      var lo :| 0 <= lo < |pids| && pids[lo].ipc == MinIpc(pids);
      if MinIpc(pids) > 0.0 { RatioAtLeastTwo(MaxIpc(pids), MinIpc(pids)); }
      if MaxIpc(pids) >= 2.0 * MinIpc(pids) { assert pids[hi].ipc >= 2.0 * pids[lo].ipc; }
    }
  }

  lemma RatioAtLeastTwo(a: real, b: real)
    requires b > 0.0
    ensures a / b >= 2.0 <==> a >= 2.0 * b
  {
    var q := a / b;
    assert q * b == a && (q - 2.0) * b == a - 2.0 * b;
    if q >= 2.0 { ProductNonneg(q - 2.0, b); } else { ProductPositive(2.0 - q, b); }
  }

  /** What the tuner takes from an entry: instructions per cycle and misses per instruction. */
  lemma ObservedIs(e: PidTime, c: Counters)
    requires c.cycles > 0
    ensures var o := Observed(e, c);
      && o.timeNs == e.timeNs && o.cycles == c.cycles as real
      && o.ipc * c.cycles as real == c.instructions as real
      && (if c.instructions == 0 then o.missRatio == 0.0
          else o.missRatio * c.instructions as real == c.cacheMisses as real)
  {
  }

  // What the error is.

  /** A task's weight: its time times one plus alpha times its instructions per cycle plus beta times its misses
      per instruction. */
  predicate IsWeight(w: real, p: PidObs, alpha: real, beta: real)
  {
    w == p.timeNs as real * (1.0 + alpha * p.ipc + beta * p.missRatio)
  }

  /** The energy per cycle is to all cycles, per cycle, as the weight is to all weights. */
  predicate IsEpc(e: real, w: real, weight: real, cycles: real, c: real)
  {
    e * (weight * c) == w * cycles
  }

  predicate IsSquare(d: real, x: real)
  {
    d == x * x
  }

  ghost predicate AreWeights(w: seq<real>, pids: seq<PidObs>, alpha: real, beta: real)
  {
    |w| == |pids| && forall i :: 0 <= i < |w| ==> IsWeight(w[i], pids[i], alpha, beta)
  }

  ghost predicate AreEpcs(e: seq<real>, w: seq<real>, pids: seq<PidObs>)
  {
    |e| == |w| == |pids| && forall i :: 0 <= i < |e| ==>
      IsEpc(e[i], w[i], Sum(w), Sum(Cycles(pids)), pids[i].cycles)
  }

  ghost predicate AreDeviations(d: seq<real>, e: seq<real>, m: real)
  {
    |d| == |e| && forall i :: 0 <= i < |d| ==> IsSquare(d[i], e[i] - m)
  }

  /** The error is the coefficient of variation of the energies per cycle: with the weights w, the energies per
      cycle e, their mean m and their squared deviations d, its square times the square of the mean is the
      mean of the squared deviations. */
  lemma ErrorIs(pids: seq<PidObs>, alpha: real, beta: real, sqrt: real -> real,
                w: seq<real>, e: seq<real>, m: real, d: seq<real>)
    requires pids != [] && AllAdmitted(pids) && alpha >= 0.0 && beta >= 0.0 && IsSqrt(sqrt)
    requires AreWeights(w, pids, alpha, beta) && AreEpcs(e, w, pids)
    requires m * |e| as real == Sum(e) && AreDeviations(d, e, m)
    ensures var x := ConsistencyError(pids, alpha, beta, sqrt);
      x >= 0.0 && x * x * (m * m) * |pids| as real == Sum(d)
  {
    WeightsAre(w, pids, alpha, beta);
    EnergiesAre(e, w, pids, alpha, beta);
    SpreadSquared(e, m, d, sqrt);
  }

  lemma WeightsAre(w: seq<real>, pids: seq<PidObs>, alpha: real, beta: real)
    requires AreWeights(w, pids, alpha, beta)
    ensures w == Weights(pids, alpha, beta)
  {
    forall i | 0 <= i < |pids| ensures w[i] == Weights(pids, alpha, beta)[i] { }
  }

  lemma EnergiesAre(e: seq<real>, w: seq<real>, pids: seq<PidObs>, alpha: real, beta: real)
    requires pids != [] && AllAdmitted(pids) && alpha >= 0.0 && beta >= 0.0
    requires w == Weights(pids, alpha, beta) && AreEpcs(e, w, pids)
    ensures Positive(e) && forall sqrt: real -> real :: ConsistencyError(pids, alpha, beta, sqrt) == Spread(e, sqrt)
  {
    var c := Cycles(pids);
    Inputs(pids, alpha, beta);
    SumPositive(w);
    SumPositive(c);
    EpcsAre(e, w, pids);
    EpcPositive(w, c);
  }

  lemma EpcsAre(e: seq<real>, w: seq<real>, pids: seq<PidObs>)
    requires AreEpcs(e, w, pids) && Sum(w) > 0.0 && Positive(Cycles(pids))
    ensures e == EnergyPerCycle(w, Cycles(pids))
  {
    var c := Cycles(pids);
    forall i | 0 <= i < |e| ensures e[i] == EnergyPerCycle(w, c)[i] { EpcIs(w[i], Sum(w), Sum(c), c[i], e[i]); }
  }

  lemma SpreadSquared(e: seq<real>, m: real, d: seq<real>, sqrt: real -> real)
    requires Positive(e) && IsSqrt(sqrt) && m * |e| as real == Sum(e) && AreDeviations(d, e, m)
    ensures var x := Spread(e, sqrt); x >= 0.0 && x * x * (m * m) * |e| as real == Sum(d)
  {
    QuotientOf(Sum(e), |e| as real, m);
    MeanPositive(e);
    DeviationsAre(d, e, m);
    VarianceNonneg(e);
    SpreadIs(sqrt(Variance(e)), m, Sum(d), |e| as real);
  }

  lemma DeviationsAre(d: seq<real>, e: seq<real>, m: real)
    requires AreDeviations(d, e, m)
    ensures d == Deviations(e, m)
  {
    forall i | 0 <= i < |e| ensures d[i] == Deviations(e, m)[i] {
      assert IsSquare(d[i], e[i] - m) && Deviations(e, m)[i] == Sq(e[i] - m);
    }
  }

  lemma EpcIs(w: real, weight: real, cycles: real, c: real, e: real)
    requires weight > 0.0 && c > 0.0 && IsEpc(e, w, weight, cycles, c)
    ensures e == EpcOf(w, weight, cycles, c)
  {
    ProductPositive(weight, c);
    QuotientOf(w * cycles, weight * c, e);
    QuotientOf(w * cycles, weight * c, EpcOf(w, weight, cycles, c));
  }

  lemma SpreadIs(r: real, m: real, d: real, n: real)
    requires m > 0.0 && n > 0.0 && r >= 0.0 && r * r == d / n
    ensures r / m >= 0.0 && r / m * (r / m) * (m * m) * n == d
  {
    var x := r / m;
    assert x * m == r;
    RatioBounds(r, m);
    assert x * x * (m * m) == (x * m) * (x * m);
    assert d / n * n == d;
  }
}
