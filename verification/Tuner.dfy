/** The online tuner: gradient descent on the spread of energy per cycle among the tasks of a core.
    The square root is a parameter; all that is used of it is that it inverts squaring. */
module Tuner {
  import opened Shares
  import opened SeqSums

  /** One task on a core. The tuner only admits tasks that ran and counted cycles. */
  datatype PidObs = PidObs(timeNs: nat, ipc: real, missRatio: real, cycles: real)

  predicate Admitted(p: PidObs)
  {
    p.timeNs > 0 && p.ipc >= 0.0 && p.missRatio >= 0.0 && p.cycles > 0.0
  }

  predicate AllAdmitted(pids: seq<PidObs>)
  {
    forall i :: 0 <= i < |pids| ==> Admitted(pids[i])
  }

  ghost predicate IsSqrt(sqrt: real -> real)
  {
    forall x: real :: x >= 0.0 ==> sqrt(x) >= 0.0 && sqrt(x) * sqrt(x) == x
  }

  function Itself(x: real): real { x }

  function Sum(s: seq<real>): real
  {
    SeqSumR(s, Itself)
  }

  function Weight(p: PidObs, alpha: real, beta: real): real
  {
    p.timeNs as real * (1.0 + alpha * p.ipc + beta * p.missRatio)
  }

  function Weights(pids: seq<PidObs>, alpha: real, beta: real): (w: seq<real>)
    ensures |w| == |pids| && forall i :: 0 <= i < |pids| ==> w[i] == Weight(pids[i], alpha, beta)
  {
    seq(|pids|, i requires 0 <= i < |pids| => Weight(pids[i], alpha, beta))
  }

  function Cycles(pids: seq<PidObs>): (c: seq<real>)
    ensures |c| == |pids| && forall i :: 0 <= i < |pids| ==> c[i] == pids[i].cycles
  {
    seq(|pids|, i requires 0 <= i < |pids| => pids[i].cycles)
  }

  /** The weight fraction of a task, times the core's cycles, over its own cycles. */
  function EpcOf(w: real, weight: real, cycles: real, c: real): real
    requires weight != 0.0 && c != 0.0
  {
    w / weight * cycles / c
  }

  /** Energy per cycle of each task. */
  function EnergyPerCycle(w: seq<real>, c: seq<real>): (e: seq<real>)
    requires |w| == |c| && Sum(w) != 0.0 && forall i :: 0 <= i < |c| ==> c[i] != 0.0
    ensures |e| == |w| && forall i :: 0 <= i < |w| ==> e[i] == EpcOf(w[i], Sum(w), Sum(c), c[i])
  {
    seq(|w|, i requires 0 <= i < |w| => EpcOf(w[i], Sum(w), Sum(c), c[i]))
  }

  function Mean(e: seq<real>): real
    requires e != []
  {
    Sum(e) / |e| as real
  }

  function Deviations(e: seq<real>, mean: real): (d: seq<real>)
    ensures |d| == |e| && forall i :: 0 <= i < |e| ==> d[i] == Sq(e[i] - mean)
  {
    seq(|e|, i requires 0 <= i < |e| => Sq(e[i] - mean))
  }

  function Variance(e: seq<real>): real
    requires e != []
  {
    Sum(Deviations(e, Mean(e))) / |e| as real
  }

  /** The coefficient of variation. */
  function Spread(e: seq<real>, sqrt: real -> real): real
    requires e != []
  {
    if Mean(e) <= 0.0 then 0.0 else sqrt(Variance(e)) / Mean(e)
  }

  /** `consistency_error`. */
  function ConsistencyError(pids: seq<PidObs>, alpha: real, beta: real, sqrt: real -> real): real
    requires AllAdmitted(pids)
  {
    var w := Weights(pids, alpha, beta);
    if Sum(w) <= 0.0 then 0.0
    else Spread(EnergyPerCycle(w, Cycles(pids)), sqrt)
  }

  // The spread of nonnegative numbers.

  predicate Nonneg(s: seq<real>)
  {
    forall i :: 0 <= i < |s| ==> s[i] >= 0.0
  }

  function Squares(e: seq<real>): (d: seq<real>)
    ensures |d| == |e| && forall i :: 0 <= i < |e| ==> d[i] == Sq(e[i])
  {
    seq(|e|, i requires 0 <= i < |e| => Sq(e[i]))
  }

  lemma SqNonneg(x: real)
    ensures Sq(x) >= 0.0
    ensures Sq(x) == 0.0 <==> x == 0.0
  {
    if x > 0.0 {
      SqPositive(x);
    } else if x < 0.0 {
      SqPositive(-x);
      SqEven(x);
    }
  }

  lemma SqPositive(x: real)
    requires x > 0.0
    ensures Sq(x) > 0.0
  {
    PositiveFactors(x, x, Sq(x));
  }

  lemma PositiveFactors(x: real, y: real, p: real)
    requires x > 0.0 && y > 0.0 && p == x * y
    ensures p > 0.0
  {
    ProductPositive(x, y);
  }

  lemma SqEven(x: real)
    ensures Sq(-x) == Sq(x)
  {
  }

  lemma {:induction false} SumNonneg(s: seq<real>)
    requires Nonneg(s)
    ensures Sum(s) >= 0.0
    ensures Sum(s) == 0.0 <==> forall i :: 0 <= i < |s| ==> s[i] == 0.0
    ensures forall i :: 0 <= i < |s| ==> s[i] <= Sum(s)
  {
    if s != [] { SumNonneg(s[..|s| - 1]); }
  }

  /** The squares of nonnegative numbers add up to at most the square of their sum. */
  lemma {:induction false} SumOfSquares(e: seq<real>)
    requires Nonneg(e)
    ensures Sum(Squares(e)) <= Sq(Sum(e))
  {
    if e != [] {
      var rest, x := e[..|e| - 1], e[|e| - 1];
      SumOfSquares(rest);
      SumNonneg(rest);
      assert Squares(e)[..|e| - 1] == Squares(rest);
      SquareOfSum(Sum(rest), x);
      ProductNonneg(Sum(rest), x);
    }
  }

  lemma SquareOfSum(a: real, b: real)
    ensures Sq(a + b) == Sq(a) + 2.0 * (a * b) + Sq(b)
    ensures Sq(a - b) == Sq(a) - 2.0 * (a * b) + Sq(b)
  {
  }

  /** d is the sum of squared deviations from m of n numbers with the given sum and sum of squares. */
  ghost predicate Expanded(d: real, squares: real, s: real, m: real, n: real)
  {
    d == squares - 2.0 * (s * m) + n * Sq(m)
  }

  /** The sum of squared deviations from m, expanded. */
  lemma {:induction false} DeviationsExpanded(e: seq<real>, m: real)
    ensures Expanded(Sum(Deviations(e, m)), Sum(Squares(e)), Sum(e), m, |e| as real)
  {
    if e != [] {
      var rest, x := e[..|e| - 1], e[|e| - 1];
      DeviationsExpanded(rest, m);
      DeviationsOneMore(e, m);
      ExpandStep(Sum(Deviations(rest, m)), Sum(Squares(rest)), Sum(rest), m, |rest| as real, x,
                 Sum(Deviations(e, m)), Sum(Squares(e)), Sum(e), |e| as real);
    }
  }

  lemma DeviationsOneMore(e: seq<real>, m: real)
    requires e != []
    ensures Sum(Deviations(e, m)) == Sum(Deviations(e[..|e| - 1], m)) + Sq(e[|e| - 1] - m)
    ensures Sum(Squares(e)) == Sum(Squares(e[..|e| - 1])) + Sq(e[|e| - 1])
  {
    assert Deviations(e, m)[..|e| - 1] == Deviations(e[..|e| - 1], m);
    assert Squares(e)[..|e| - 1] == Squares(e[..|e| - 1]);
  }

  lemma ExpandStep(d: real, squares: real, s: real, m: real, n: real, x: real, d': real, squares': real, s': real,
                   n': real)
    requires Expanded(d, squares, s, m, n)
    requires d' == d + Sq(x - m) && squares' == squares + Sq(x) && s' == s + x && n' == n + 1.0
    ensures Expanded(d', squares', s', m, n')
  {
    SquareOfSum(x, m);
    assert (s + x) * m == s * m + x * m;
    assert (n + 1.0) * Sq(m) == n * Sq(m) + Sq(m);
  }

  ghost predicate VarianceWithin(v: real, n: real, m: real)
  {
    0.0 <= v <= (n - 1.0) * Sq(m)
  }

  /** The variance of n nonnegative numbers is at most n - 1 times the square of their mean. */
  lemma VarianceBound(e: seq<real>)
    requires e != [] && Nonneg(e)
    ensures VarianceWithin(Variance(e), |e| as real, Mean(e))
  {
    Moments(e, Mean(e));
    VarianceArithmetic(|e| as real, Mean(e), Sum(e), Sum(Squares(e)), Sum(Deviations(e, Mean(e))));
  }

  lemma DeviationsNonneg(e: seq<real>, m: real)
    ensures Nonneg(Deviations(e, m)) && Sum(Deviations(e, m)) >= 0.0
  {
    forall i | 0 <= i < |e| ensures Deviations(e, m)[i] >= 0.0 { SqNonneg(e[i] - m); }
    SumNonneg(Deviations(e, m));
  }

  lemma Moments(e: seq<real>, m: real)
    requires Nonneg(e)
    ensures Sum(Squares(e)) <= Sq(Sum(e)) && Sum(Deviations(e, m)) >= 0.0
    ensures Expanded(Sum(Deviations(e, m)), Sum(Squares(e)), Sum(e), m, |e| as real)
  {
    SumOfSquares(e);
    DeviationsExpanded(e, m);
    DeviationsNonneg(e, m);
  }

  lemma VarianceArithmetic(n: real, m: real, s: real, squares: real, d: real)
    requires n > 0.0 && m == s / n && squares <= Sq(s) && d >= 0.0 && Expanded(d, squares, s, m, n)
    ensures VarianceWithin(d / n, n, m)
  {
    RatioBounds(d, n);
    assert s == n * m;
    ScaledSquares(n, m);
    DivideBy(d, (n - 1.0) * Sq(m), n);
  }

  lemma ScaledSquares(n: real, m: real)
    ensures (n * m) * m == n * Sq(m)
    ensures Sq(n * m) == n * (n * Sq(m))
    ensures n * (n * Sq(m)) - n * Sq(m) == (n - 1.0) * Sq(m) * n
  {
    assert Sq(n * m) == (n * m) * (n * m);
  }

  lemma DivideBy(a: real, b: real, n: real)
    requires n > 0.0 && a <= b * n
    ensures a / n <= b
  {
    var q := a / n;
    assert q * n == a;
    assert (q - b) * n == a - b * n;
    if q > b { ProductPositive(q - b, n); }
  }

  /** The squared coefficient of variation of n nonnegative numbers is at most n - 1. */
  lemma SpreadBound(e: seq<real>, sqrt: real -> real)
    requires e != [] && Nonneg(e) && IsSqrt(sqrt)
    ensures Spread(e, sqrt) >= 0.0
    ensures Sq(Spread(e, sqrt)) <= |e| as real - 1.0
  {
    VarianceBound(e);
    if Mean(e) > 0.0 {
      var v, m := Variance(e), Mean(e);
      RatioBounds(sqrt(v), m);
      QuotientSquared(sqrt(v), m, v, |e| as real - 1.0);
    }
  }

  lemma QuotientSquared(r: real, m: real, v: real, b: real)
    requires m > 0.0 && r * r == v && VarianceWithin(v, b + 1.0, m)
    ensures Sq(r / m) <= b
  {
    var q := r / m;
    assert q * m == r;
    assert Sq(q) * Sq(m) == v;
    SqNonneg(m);
    assert (Sq(q) - b) * Sq(m) == v - b * Sq(m);
    if Sq(q) > b { ProductPositive(Sq(q) - b, Sq(m)); }
  }
}
