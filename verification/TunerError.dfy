/** What the consistency error can be: bounded by the number of tasks, and zero exactly when every
    task has energy per cycle one. */
module TunerError {
  import opened Sums
  import opened Shares
  import opened Tuner

  lemma WeightPositive(p: PidObs, alpha: real, beta: real)
    requires Admitted(p) && alpha >= 0.0 && beta >= 0.0
    ensures Weight(p, alpha, beta) > 0.0
  {
    ProductNonneg(alpha, p.ipc);
    ProductNonneg(beta, p.missRatio);
    ProductPositive(p.timeNs as real, 1.0 + alpha * p.ipc + beta * p.missRatio);
  }

  ghost predicate Positive(s: seq<real>)
  {
    s != [] && forall i :: 0 <= i < |s| ==> s[i] > 0.0
  }

  lemma {:induction false} SumPositive(s: seq<real>)
    requires Positive(s)
    ensures Sum(s) > 0.0
  {
    if |s| > 1 { SumPositive(s[..|s| - 1]); } else { assert Sum(s) == Sum([]) + s[0] by { assert s[..0] == []; } }
  }

  lemma Inputs(pids: seq<PidObs>, alpha: real, beta: real)
    requires pids != [] && AllAdmitted(pids) && alpha >= 0.0 && beta >= 0.0
    ensures Positive(Weights(pids, alpha, beta)) && Positive(Cycles(pids))
  {
    forall i | 0 <= i < |pids| ensures Weights(pids, alpha, beta)[i] > 0.0 { WeightPositive(pids[i], alpha, beta); }
  }

  ghost predicate PositiveEpc(w: seq<real>, c: seq<real>)
  {
    |w| == |c| && Positive(w) && Positive(c)
  }

  lemma EpcPositive(w: seq<real>, c: seq<real>)
    requires PositiveEpc(w, c) && Sum(w) > 0.0 && Sum(c) > 0.0
    ensures Positive(EnergyPerCycle(w, c))
  {
    forall i | 0 <= i < |w| ensures EnergyPerCycle(w, c)[i] > 0.0 {
      EpcTerm(w[i], Sum(w), Sum(c), c[i], EnergyPerCycle(w, c)[i]);
    }
  }

  /** One energy-per-cycle value is positive, and times its cycles it is the task's part of all cycles. */
  lemma EpcTerm(w: real, weight: real, cycles: real, c: real, e: real)
    requires w > 0.0 && weight > 0.0 && cycles > 0.0 && c > 0.0 && e == EpcOf(w, weight, cycles, c)
    ensures e > 0.0 && Times(c, e) == Times(cycles / weight, w)
  {
    PositiveQuotient(w, weight);
    ProductPositive(w / weight, cycles);
    PositiveQuotient(w / weight * cycles, c);
    assert c * e == w / weight * cycles;
    ScaledShare(cycles, w, weight);
  }

  lemma PositiveQuotient(a: real, b: real)
    requires a > 0.0 && b > 0.0
    ensures a / b > 0.0
  {
    var q := a / b;
    assert q * b == a;
    assert (-q) * b == -a;
    if q <= 0.0 { ProductNonneg(-q, b); }
  }

  /** The squared error of at most n tasks is at most n - 1. */
  lemma ErrorBound(pids: seq<PidObs>, alpha: real, beta: real, sqrt: real -> real)
    requires pids != [] && AllAdmitted(pids) && alpha >= 0.0 && beta >= 0.0 && IsSqrt(sqrt)
    ensures ConsistencyError(pids, alpha, beta, sqrt) >= 0.0
    ensures Sq(ConsistencyError(pids, alpha, beta, sqrt)) <= |pids| as real - 1.0
  {
    var w, c := Weights(pids, alpha, beta), Cycles(pids);
    Inputs(pids, alpha, beta);
    SumPositive(w);
    SumPositive(c);
    EpcPositive(w, c);
    SpreadBound(EnergyPerCycle(w, c), sqrt);
  }

  // Zero error.

  lemma SpreadZero(e: seq<real>, sqrt: real -> real)
    requires Positive(e) && IsSqrt(sqrt)
    ensures Spread(e, sqrt) == 0.0 <==> forall i :: 0 <= i < |e| ==> e[i] == Mean(e)
  {
    MeanPositive(e);
    VarianceNonneg(e);
    VarianceZero(e);
    RootZero(sqrt(Variance(e)), Variance(e), Mean(e));
  }

  lemma MeanPositive(e: seq<real>)
    requires Positive(e)
    ensures Mean(e) > 0.0
  {
    SumPositive(e);
    PositiveQuotient(Sum(e), |e| as real);
  }

  lemma VarianceNonneg(e: seq<real>)
    requires e != []
    ensures Variance(e) >= 0.0
  {
    DeviationsNonneg(e, Mean(e));
    RatioBounds(Sum(Deviations(e, Mean(e))), |e| as real);
  }

  lemma VarianceZero(e: seq<real>)
    requires e != []
    ensures Variance(e) == 0.0 <==> forall i :: 0 <= i < |e| ==> e[i] == Mean(e)
  {
    DeviationsZero(e, Mean(e));
    QuotientZero(Sum(Deviations(e, Mean(e))), |e| as real);
  }

  lemma DeviationsZero(e: seq<real>, m: real)
    ensures Sum(Deviations(e, m)) == 0.0 <==> forall i :: 0 <= i < |e| ==> e[i] == m
  {
    DeviationsNonneg(e, m);
    SumNonneg(Deviations(e, m));
    forall i | 0 <= i < |e| ensures Deviations(e, m)[i] == 0.0 <==> e[i] == m { SqNonneg(e[i] - m); }
  }

  lemma RootZero(r: real, v: real, m: real)
    requires r >= 0.0 && r * r == v && m > 0.0
    ensures r / m == 0.0 <==> v == 0.0
  {
    QuotientZero(r, m);
    SqNonneg(r);
    assert Sq(r) == v;
  }

  lemma QuotientZero(a: real, b: real)
    requires b > 0.0
    ensures a / b == 0.0 <==> a == 0.0
  {
    assert a / b * b == a;
  }

  /** The cycle-weighted sum of the energies per cycle is the number of cycles. */
  lemma {:induction false} WeightedSum(w: seq<real>, c: seq<real>, e: seq<real>, k: real, p: seq<real>)
    requires |w| == |c| == |e| == |p|
    requires forall i :: 0 <= i < |w| ==> p[i] == Times(c[i], e[i]) && p[i] == Times(k, w[i])
    ensures Sum(p) == Times(k, Sum(w))
  {
    if w != [] {
      var n := |w| - 1;
      WeightedSum(w[..n], c[..n], e[..n], k, p[..n]);
      TimesDistributes(k, Sum(w[..n]), w[n]);
    } else {
      assert Times(k, 0.0) == 0.0;
    }
  }

  lemma {:induction false} ConstantSum(c: seq<real>, m: real, p: seq<real>)
    requires |c| == |p| && forall i :: 0 <= i < |c| ==> p[i] == Times(m, c[i])
    ensures Sum(p) == Times(m, Sum(c))
  {
    if c != [] {
      var n := |c| - 1;
      ConstantSum(c[..n], m, p[..n]);
      TimesDistributes(m, Sum(c[..n]), c[n]);
    } else {
      assert Times(m, 0.0) == 0.0;
    }
  }

  /** If all energies per cycle agree, they are one. */
  lemma AgreeingEpcIsOne(w: seq<real>, c: seq<real>, e: seq<real>, m: real)
    requires PositiveEpc(w, c) && Sum(w) > 0.0 && Sum(c) > 0.0 && e == EnergyPerCycle(w, c)
    requires forall i :: 0 <= i < |e| ==> e[i] == m
    ensures m == 1.0
  {
    var k := Sum(c) / Sum(w);
    var p := seq(|w|, i requires 0 <= i < |w| => Times(m, c[i]));
    forall i | 0 <= i < |w| ensures p[i] == Times(c[i], e[i]) && p[i] == Times(k, w[i]) {
      EpcTerm(w[i], Sum(w), Sum(c), c[i], e[i]);
      TimesCommutes(m, c[i]);
    }
    WeightedSum(w, c, e, k, p);
    ConstantSum(c, m, p);
    OneFactor(Sum(w), Sum(c), k, m);
  }

  lemma TimesCommutes(a: real, b: real)
    ensures Times(a, b) == Times(b, a)
  {
  }

  lemma OneFactor(weight: real, cycles: real, k: real, m: real)
    requires weight > 0.0 && cycles > 0.0 && k == cycles / weight && Times(k, weight) == Times(m, cycles)
    ensures m == 1.0
  {
    assert k * weight == cycles;
    assert (m - 1.0) * cycles == 0.0;
    if m > 1.0 { ProductPositive(m - 1.0, cycles); }
    if m < 1.0 { ProductPositive(1.0 - m, cycles); }
  }

  /** The error is zero exactly when every task's energy per cycle is one. */
  lemma ErrorZeroIff(pids: seq<PidObs>, alpha: real, beta: real, sqrt: real -> real)
    requires pids != [] && AllAdmitted(pids) && alpha >= 0.0 && beta >= 0.0 && IsSqrt(sqrt)
    ensures Sum(Weights(pids, alpha, beta)) > 0.0
    ensures var e := EnergyPerCycle(Weights(pids, alpha, beta), Cycles(pids));
            ConsistencyError(pids, alpha, beta, sqrt) == 0.0 <==> forall i :: 0 <= i < |pids| ==> e[i] == 1.0
  {
    var w, c := Weights(pids, alpha, beta), Cycles(pids);
    Inputs(pids, alpha, beta);
    SumPositive(w);
    SumPositive(c);
    var e := EnergyPerCycle(w, c);
    EpcPositive(w, c);
    SpreadZero(e, sqrt);
    if forall i :: 0 <= i < |e| ==> e[i] == Mean(e) {
      AgreeingEpcIsOne(w, c, e, Mean(e));
    } else if forall i :: 0 <= i < |e| ==> e[i] == 1.0 {
      MeanOfOnes(e);
    }
  }

  lemma MeanOfOnes(e: seq<real>)
    requires e != [] && forall i :: 0 <= i < |e| ==> e[i] == 1.0
    ensures Mean(e) == 1.0
  {
    SumOfOnes(e);
    SelfQuotient(|e| as real);
  }

  lemma SelfQuotient(n: real)
    requires n > 0.0
    ensures n / n == 1.0
  {
  }

  lemma {:induction false} SumOfOnes(e: seq<real>)
    requires forall i :: 0 <= i < |e| ==> e[i] == 1.0
    ensures Sum(e) == |e| as real
  {
    if e != [] { SumOfOnes(e[..|e| - 1]); }
  }
}
