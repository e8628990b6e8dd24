/** `CoefficientTuner::update` and its stability over every run. */
module TunerRun {
  import opened Sums
  import opened Shares
  import opened KernelData
  import opened Entries
  import opened Tuner
  import opened TunerError

  type Cores = map<nat, seq<PidObs>>

  ghost predicate CoresAdmitted(cores: Cores)
  {
    forall core :: core in cores ==> cores[core] != [] && AllAdmitted(cores[core])
  }

  function PidsOn(cores: Cores, core: nat): seq<PidObs>
  {
    if core in cores then cores[core] else []
  }

  function Observed(e: PidTime, c: Counters): PidObs
    requires c.cycles > 0
  {
    PidObs(e.timeNs, c.instructions as real / c.cycles as real,
           if c.instructions > 0 then c.cacheMisses as real / c.instructions as real else 0.0, c.cycles as real)
  }

  /** The per-core observations: entries without time or without cycles are skipped. */
  function Gather(counters: map<Key, Counters>, times: seq<PidTime>): Cores
  {
    if times == [] then map[]
    else
      var e, rest := times[|times| - 1], Gather(counters, times[..|times| - 1]);
      var c := CountersOf(counters, e.cpu, e.pid);
      if e.timeNs == 0 || c.cycles == 0 then rest
      else rest[e.cpu := PidsOn(rest, e.cpu) + [Observed(e, c)]]
  }

  /** An entry of the core with time and cycles. */
  predicate Counts(counters: map<Key, Counters>, e: PidTime, core: nat)
  {
    e.cpu == core && e.timeNs > 0 && Key(core, e.pid) in counters && counters[Key(core, e.pid)].cycles > 0
  }

  function CountsOn(counters: map<Key, Counters>, core: nat): PidTime -> bool
  {
    (e: PidTime) => Counts(counters, e, core)
  }

  /** The observations of one core's entries, in their order. */
  function Select(counters: map<Key, Counters>, times: seq<PidTime>, core: nat): seq<PidObs>
  {
    if times == [] then []
    else
      var e, rest := times[|times| - 1], Select(counters, times[..|times| - 1], core);
      if Counts(counters, e, core) then rest + [Observed(e, counters[Key(core, e.pid)])] else rest
  }

  function Gives(counters: map<Key, Counters>, core: nat, o: PidObs): PidTime -> bool
  {
    (e: PidTime) => Counts(counters, e, core) && o == Observed(e, counters[Key(core, e.pid)])
  }

  lemma {:induction false} SelectHolds(counters: map<Key, Counters>, times: seq<PidTime>, core: nat, o: PidObs)
    ensures o in Select(counters, times, core) <==> Has(times, Gives(counters, core, o))
  {
    if times != [] {
      SelectHolds(counters, times[..|times| - 1], core, o);
      LastEntry(times, Gives(counters, core, o));
    }
  }

  /** A core is there exactly if it has an entry with time and cycles; its observations are those of its
      own such entries, in their order, and no others. */
  lemma {:induction false} GatherSelects(counters: map<Key, Counters>, times: seq<PidTime>, core: nat)
    ensures core in Gather(counters, times) <==> Has(times, CountsOn(counters, core))
    ensures PidsOn(Gather(counters, times), core) == Select(counters, times, core)
    ensures forall o :: o in PidsOn(Gather(counters, times), core) <==> Has(times, Gives(counters, core, o))
  {
    if times != [] {
      GatherSelects(counters, times[..|times| - 1], core);
      LastEntry(times, CountsOn(counters, core));
    }
    forall o ensures o in Select(counters, times, core) <==> Has(times, Gives(counters, core, o)) {
      SelectHolds(counters, times, core, o);
    }
  }

  lemma ObservedIsAdmitted(e: PidTime, c: Counters)
    requires e.timeNs > 0 && c.cycles > 0
    ensures Admitted(Observed(e, c))
  {
    RatioBounds(c.instructions as real, c.cycles as real);
    if c.instructions > 0 { RatioBounds(c.cacheMisses as real, c.instructions as real); }
  }

  /** The first loop of `update`. */
  method BuildCores(counters: map<Key, Counters>, times: seq<PidTime>) returns (cores: Cores)
    ensures cores == Gather(counters, times) && CoresAdmitted(cores)
  {
    cores := map[];
    for i := 0 to |times|
      invariant cores == Gather(counters, times[..i]) && CoresAdmitted(cores)
    {
      assert times[..i + 1][..i] == times[..i];
      var e := times[i];
      var c := CountersOf(counters, e.cpu, e.pid);
      if e.timeNs == 0 || c.cycles == 0 {
        continue;
      }
      ObservedIsAdmitted(e, c);
      cores := cores[e.cpu := PidsOn(cores, e.cpu) + [Observed(e, c)]];
    }
    assert times[..|times|] == times;
  }

  function MaxIpc(pids: seq<PidObs>): real
  {
    if pids == [] then 0.0
    else
      var m, x := MaxIpc(pids[..|pids| - 1]), pids[|pids| - 1].ipc;
      if x > m then x else m
  }

  function MinIpc(pids: seq<PidObs>): real
    requires pids != []
  {
    var x := pids[|pids| - 1].ipc;
    if |pids| == 1 then x
    else
      var m := MinIpc(pids[..|pids| - 1]);
      if x < m then x else m
  }

  /** At least two tasks whose instructions per cycle differ by a factor of two or more. */
  predicate Qualifies(pids: seq<PidObs>)
  {
    |pids| >= 2 && MinIpc(pids) > 0.0 && MaxIpc(pids) / MinIpc(pids) >= 2.0
  }

  const EPS := 0.01

  /** The numerical derivatives of the error in alpha and in beta. */
  function GradAlpha(pids: seq<PidObs>, alpha: real, beta: real, sqrt: real -> real): real
    requires AllAdmitted(pids)
  {
    (ConsistencyError(pids, alpha + EPS, beta, sqrt) - ConsistencyError(pids, alpha, beta, sqrt)) / EPS
  }

  function GradBeta(pids: seq<PidObs>, alpha: real, beta: real, sqrt: real -> real): real
    requires AllAdmitted(pids)
  {
    (ConsistencyError(pids, alpha, beta + EPS, sqrt) - ConsistencyError(pids, alpha, beta, sqrt)) / EPS
  }

  lemma Root(x: real, b: real)
    requires x >= 0.0 && b >= 0.0 && Sq(x) <= Sq(b)
    ensures x <= b
  {
    assert (x - b) * x + (x - b) * b == Sq(x) - Sq(b);
    if x > b {
      ProductPositive(x - b, x);
      ProductNonneg(x - b, b);
    }
  }

  /** b bounds the error of any core with at most n tasks. */
  predicate Bounds(b: real, n: nat)
  {
    n > 0 && b >= 0.0 && Sq(b) >= n as real - 1.0
  }

  lemma ErrorWithin(pids: seq<PidObs>, alpha: real, beta: real, sqrt: real -> real, n: nat, b: real)
    requires 0 < |pids| <= n && AllAdmitted(pids) && alpha >= 0.0 && beta >= 0.0 && IsSqrt(sqrt) && Bounds(b, n)
    ensures 0.0 <= ConsistencyError(pids, alpha, beta, sqrt) <= b
  {
    ErrorBound(pids, alpha, beta, sqrt);
    Root(ConsistencyError(pids, alpha, beta, sqrt), b);
  }

  /** |x| is at most 100 b, that is b / EPS. */
  predicate Within(x: real, b: real)
  {
    -100.0 * b <= x <= 100.0 * b
  }

  lemma GradientWithin(pids: seq<PidObs>, alpha: real, beta: real, sqrt: real -> real, n: nat, b: real)
    requires 0 < |pids| <= n && AllAdmitted(pids) && alpha >= 0.0 && beta >= 0.0 && IsSqrt(sqrt) && Bounds(b, n)
    ensures Within(GradAlpha(pids, alpha, beta, sqrt), b) && Within(GradBeta(pids, alpha, beta, sqrt), b)
  {
    ErrorWithin(pids, alpha, beta, sqrt, n, b);
    ErrorWithin(pids, alpha + EPS, beta, sqrt, n, b);
    ErrorWithin(pids, alpha, beta + EPS, sqrt, n, b);
  }

  // The state and one update.

  datatype State = State(alpha: real, beta: real, alphaEma: real, betaEma: real, updates: nat, qualifyingCores: nat)

  ghost function Qualifying(cores: Cores): set<nat>
  {
    set core | core in cores && Qualifies(cores[core])
  }

  function AlphaGrads(cores: Cores, alpha: real, beta: real, sqrt: real -> real): nat -> real
  {
    (core: nat) => if core in cores && AllAdmitted(cores[core]) then GradAlpha(cores[core], alpha, beta, sqrt) else 0.0
  }

  function BetaGrads(cores: Cores, alpha: real, beta: real, sqrt: real -> real): nat -> real
  {
    (core: nat) => if core in cores && AllAdmitted(cores[core]) then GradBeta(cores[core], alpha, beta, sqrt) else 0.0
  }

  function Clamp(x: real, lo: real, hi: real): real
  {
    if x < lo then lo else if x > hi then hi else x
  }

  /** The moving average of a gradient: ema_decay is 0.9. */
  function Smoothed(ema: real, gradient: real): real
  {
    0.9 * ema + (1.0 - 0.9) * gradient
  }

  /** One step of gradient descent on a coefficient kept in [lo, hi]. */
  function Moved(x: real, rate: real, ema: real, lo: real, hi: real): real
  {
    Clamp(x - rate * ema, lo, hi)
  }

  /** The part of `update` after the gradients are summed: average, smooth, step, clamp. */
  function Stepped(s: State, dAlpha: real, dBeta: real, count: nat, rate: real): State
    requires count > 0
  {
    var alphaEma := Smoothed(s.alphaEma, dAlpha / count as real);
    var betaEma := Smoothed(s.betaEma, dBeta / count as real);
    State(Moved(s.alpha, rate, alphaEma, 0.05, 2.0), Moved(s.beta, rate, betaEma, 0.01, 10.0),
          alphaEma, betaEma, s.updates + 1, s.qualifyingCores + count)
  }

  /** `update` on the per-core observations of one interval. */
  ghost function Updated(s: State, cores: Cores, rate: real, sqrt: real -> real): State
  {
    var q := Qualifying(cores);
    if q == {} then s
    else Stepped(s, SumR(q, AlphaGrads(cores, s.alpha, s.beta, sqrt)), SumR(q, BetaGrads(cores, s.alpha, s.beta, sqrt)),
      |q|, rate)
  }

  /** x is the sum of n numbers of absolute value at most c. */
  ghost predicate SumBounded(x: real, c: real, n: real)
  {
    -(c * n) <= x <= c * n
  }

  lemma AverageWithin(s: set<nat>, f: nat -> real, b: real)
    requires s != {} && forall k :: k in s ==> Within(f(k), b)
    ensures Within(SumR(s, f) / |s| as real, b)
  {
    SumWithin(s, f, b);
    AverageBounded(SumR(s, f), b, |s| as real);
  }

  lemma AverageBounded(x: real, b: real, n: real)
    requires n > 0.0 && SumBounded(x, 100.0 * b, n)
    ensures Within(x / n, b)
  {
    DivideBy(x, 100.0 * b, n);
    DivideFrom(x, -100.0 * b, n);
  }

  lemma DivideFrom(a: real, b: real, n: real)
    requires n > 0.0 && b * n <= a
    ensures b <= a / n
  {
    var q := a / n;
    assert q * n == a;
    assert (b - q) * n == b * n - a;
    if b > q { ProductPositive(b - q, n); }
  }

  lemma {:induction false} SumWithin(s: set<nat>, f: nat -> real, b: real)
    requires forall k :: k in s ==> Within(f(k), b)
    ensures SumBounded(SumR(s, f), 100.0 * b, |s| as real)
    decreases |s|
  {
    if s != {} {
      var k :| k in s;
      SumRTake(s, f, k);
      SumWithin(s - {k}, f, b);
      OneMoreBounded(SumR(s - {k}, f), 100.0 * b, |s - {k}| as real, f(k));
    }
  }

  lemma OneMoreBounded(x: real, c: real, n: real, y: real)
    requires SumBounded(x, c, n) && -c <= y <= c
    ensures SumBounded(x + y, c, n + 1.0)
  {
    assert c * (n + 1.0) == c * n + c;
  }

  /** Every core has at most n tasks, and at least one. */
  ghost predicate Small(cores: Cores, n: nat)
  {
    CoresAdmitted(cores) && forall core :: core in cores ==> |cores[core]| <= n
  }

  predicate InRange(s: State)
  {
    0.05 <= s.alpha <= 2.0 && 0.01 <= s.beta <= 10.0
  }

  /** What every update keeps: usable coefficients and smoothed gradients no larger than b / EPS. */
  predicate Stable(s: State, b: real)
  {
    s.alpha >= 0.0 && s.beta >= 0.0 && Within(s.alphaEma, b) && Within(s.betaEma, b)
  }

  predicate Near(x: real, y: real, d: real)
  {
    -d <= x - y <= d
  }

  function Abs(x: real): real
  {
    if x >= 0.0 then x else -x
  }

  lemma GradientsWithin(s: State, cores: Cores, sqrt: real -> real, n: nat, b: real)
    requires Stable(s, b) && Small(cores, n) && IsSqrt(sqrt) && Bounds(b, n)
    ensures forall core :: core in Qualifying(cores) ==>
      Within(AlphaGrads(cores, s.alpha, s.beta, sqrt)(core), b) &&
        Within(BetaGrads(cores, s.alpha, s.beta, sqrt)(core), b)
  {
    forall core | core in Qualifying(cores)
      ensures Within(AlphaGrads(cores, s.alpha, s.beta, sqrt)(core), b) &&
        Within(BetaGrads(cores, s.alpha, s.beta, sqrt)(core), b)
    {
      GradientWithin(cores[core], s.alpha, s.beta, sqrt, n, b);
    }
  }

  /** x' is in [lo, hi], and within the learning rate times b / EPS of x if x was. */
  ghost predicate SmallMove(x: real, x': real, lo: real, hi: real, rate: real, b: real)
  {
    lo <= x' <= hi && (lo <= x <= hi ==> Near(x', x, Times(Abs(rate), 100.0 * b)))
  }

  lemma MoveIsSmall(x: real, rate: real, ema: real, lo: real, hi: real, b: real)
    requires lo <= hi && Within(ema, b)
    ensures SmallMove(x, Moved(x, rate, ema, lo, hi), lo, hi, rate, b)
  {
    RateBound(rate, ema, b);
  }

  lemma SmoothedWithin(ema: real, g: real, b: real)
    requires Within(ema, b) && Within(g, b)
    ensures Within(Smoothed(ema, g), b)
  {
  }

  lemma RateBound(rate: real, g: real, b: real)
    requires Within(g, b)
    ensures Near(rate * g, 0.0, Times(Abs(rate), 100.0 * b))
  {
    var r := Abs(rate);
    ProductNonneg(r, 100.0 * b - g);
    ProductNonneg(r, 100.0 * b + g);
    assert r * (100.0 * b - g) == r * (100.0 * b) - r * g;
    assert r * (100.0 * b + g) == r * (100.0 * b) + r * g;
  }

  /** One update of any input: smoothed gradients stay within b / EPS, coefficients end in their
      ranges if anything was learnt, and no coefficient that was in range moves by more than the
      learning rate times b / EPS. */
  lemma UpdateIsStable(s: State, cores: Cores, rate: real, sqrt: real -> real, n: nat, b: real)
    requires Stable(s, b) && Small(cores, n) && IsSqrt(sqrt) && Bounds(b, n)
    ensures var s' := Updated(s, cores, rate, sqrt);
            && Stable(s', b)
            && (s'.updates > s.updates ==> InRange(s')) && (s'.updates == s.updates ==> s' == s)
            && (InRange(s) ==> InRange(s') && Near(s'.alpha, s.alpha, Times(Abs(rate), 100.0 * b))
                                           && Near(s'.beta, s.beta, Times(Abs(rate), 100.0 * b)))
  {
    var q := Qualifying(cores);
    if q == {} {
      ProductNonneg(Abs(rate), 100.0 * b);
    } else {
      GradientsWithin(s, cores, sqrt, n, b);
      AverageWithin(q, AlphaGrads(cores, s.alpha, s.beta, sqrt), b);
      AverageWithin(q, BetaGrads(cores, s.alpha, s.beta, sqrt), b);
      var s' := Updated(s, cores, rate, sqrt);
      SmoothedWithin(s.alphaEma, SumR(q, AlphaGrads(cores, s.alpha, s.beta, sqrt)) / |q| as real, b);
      SmoothedWithin(s.betaEma, SumR(q, BetaGrads(cores, s.alpha, s.beta, sqrt)) / |q| as real, b);
      MoveIsSmall(s.alpha, rate, s'.alphaEma, 0.05, 2.0, b);
      MoveIsSmall(s.beta, rate, s'.betaEma, 0.01, 10.0, b);
    }
  }

  /** Every update moves a coefficient that is in range against its smoothed gradient, never with it. */
  lemma UpdateDescends(s: State, cores: Cores, rate: real, sqrt: real -> real)
    requires InRange(s) && rate >= 0.0
    ensures var s' := Updated(s, cores, rate, sqrt);
            && (s'.alphaEma >= 0.0 ==> s'.alpha <= s.alpha) && (s'.alphaEma <= 0.0 ==> s'.alpha >= s.alpha)
            && (s'.betaEma >= 0.0 ==> s'.beta <= s.beta) && (s'.betaEma <= 0.0 ==> s'.beta >= s.beta)
  {
    var s' := Updated(s, cores, rate, sqrt);
    if Qualifying(cores) != {} {
      MovesAgainst(s.alpha, rate, s'.alphaEma, 0.05, 2.0);
      MovesAgainst(s.beta, rate, s'.betaEma, 0.01, 10.0);
    }
  }

  lemma MovesAgainst(x: real, rate: real, ema: real, lo: real, hi: real)
    requires lo <= x <= hi && rate >= 0.0
    ensures ema >= 0.0 ==> Moved(x, rate, ema, lo, hi) <= x
    ensures ema <= 0.0 ==> Moved(x, rate, ema, lo, hi) >= x
  {
    if ema >= 0.0 { ProductNonneg(rate, ema); }
    if ema <= 0.0 {
      ProductNonneg(rate, -ema);
      assert rate * -ema == -(rate * ema);
    }
  }

  /** The smoothed gradient after k updates with the same gradient. */
  function SmoothedTimes(ema: real, gradient: real, k: nat): real
  {
    if k == 0 then ema else Smoothed(SmoothedTimes(ema, gradient, k - 1), gradient)
  }

  function Decay(k: nat): real
  {
    if k == 0 then 1.0 else 0.9 * Decay(k - 1)
  }

  /** The moving average approaches a steady gradient by a factor of 0.9 per update. */
  lemma {:induction false} SmoothingApproaches(ema: real, gradient: real, k: nat)
    ensures SmoothedTimes(ema, gradient, k) - gradient == Times(Decay(k), ema - gradient)
  {
    if k > 0 {
      SmoothingApproaches(ema, gradient, k - 1);
      var d, e := Decay(k - 1), ema - gradient;
      DecayStep(d, e);
    }
  }

  lemma DecayStep(d: real, e: real)
    ensures Times(0.9 * d, e) == 0.9 * Times(d, e)
  {
  }

  ghost function Run(s: State, inputs: seq<Cores>, rate: real, sqrt: real -> real): State
  {
    if inputs == [] then s
    else Updated(Run(s, inputs[..|inputs| - 1], rate, sqrt), inputs[|inputs| - 1], rate, sqrt)
  }

  /** No update of the run moves a coefficient that was in range by more than `most`. */
  ghost predicate MovesSlowly(s: State, inputs: seq<Cores>, rate: real, sqrt: real -> real, most: real)
  {
    inputs == [] ||
    var prefix := inputs[..|inputs| - 1];
    var before, after := Run(s, prefix, rate, sqrt), Run(s, inputs, rate, sqrt);
    && MovesSlowly(s, prefix, rate, sqrt, most)
    && (InRange(before) ==> Near(after.alpha, before.alpha, most) && Near(after.beta, before.beta, most))
  }

  /** Stability in every run: whatever the inputs, with at most n tasks per core, the smoothed
      gradients never leave b / EPS, the coefficients never leave their ranges once updated, and no
      update moves one of them by more than the learning rate times b / EPS. */
  lemma {:induction false} EveryRunIsStable(s: State, inputs: seq<Cores>, rate: real, sqrt: real -> real, n: nat,
                                            b: real)
    requires Stable(s, b) && IsSqrt(sqrt) && Bounds(b, n)
    requires forall i :: 0 <= i < |inputs| ==> Small(inputs[i], n)
    ensures var r := Run(s, inputs, rate, sqrt);
            Stable(r, b) && r.updates >= s.updates && (r.updates > s.updates ==> InRange(r))
    ensures MovesSlowly(s, inputs, rate, sqrt, Times(Abs(rate), 100.0 * b))
  {
    if inputs != [] {
      var prefix := inputs[..|inputs| - 1];
      EveryRunIsStable(s, prefix, rate, sqrt, n, b);
      UpdateIsStable(Run(s, prefix, rate, sqrt), inputs[|inputs| - 1], rate, sqrt, n, b);
    }
  }

  /** The sums over the cores in `done`. */
  ghost predicate Summed(done: set<nat>, cores: Cores, alpha: real, beta: real, sqrt: real -> real, dAlpha: real,
                         dBeta: real, count: nat)
  {
    && dAlpha == SumR(done, AlphaGrads(cores, alpha, beta, sqrt))
    && dBeta == SumR(done, BetaGrads(cores, alpha, beta, sqrt))
    && count == |done|
  }

  lemma SummedOneMore(done: set<nat>, cores: Cores, alpha: real, beta: real, sqrt: real -> real, dAlpha: real,
                      dBeta: real, count: nat, core: nat)
    requires Summed(done, cores, alpha, beta, sqrt, dAlpha, dBeta, count)
    requires core !in done && core in cores && AllAdmitted(cores[core])
    ensures Summed(done + {core}, cores, alpha, beta, sqrt, dAlpha + GradAlpha(cores[core], alpha, beta, sqrt),
                   dBeta + GradBeta(cores[core], alpha, beta, sqrt), count + 1)
  {
    SumRAdd(done, AlphaGrads(cores, alpha, beta, sqrt), core);
    SumRAdd(done, BetaGrads(cores, alpha, beta, sqrt), core);
  }

  /** One qualifying core. */
  method AddGradients(ghost done: set<nat>, cores: Cores, alpha: real, beta: real, sqrt: real -> real,
                      dAlpha: real, dBeta: real, count: nat, core: nat)
    returns (dAlpha': real, dBeta': real, count': nat)
    requires Summed(done, cores, alpha, beta, sqrt, dAlpha, dBeta, count)
    requires core !in done && core in cores && AllAdmitted(cores[core])
    ensures Summed(done + {core}, cores, alpha, beta, sqrt, dAlpha', dBeta', count')
  {
    SummedOneMore(done, cores, alpha, beta, sqrt, dAlpha, dBeta, count, core);
    dAlpha' := dAlpha + GradAlpha(cores[core], alpha, beta, sqrt);
    dBeta' := dBeta + GradBeta(cores[core], alpha, beta, sqrt);
    count' := count + 1;
  }

  class CoefficientTuner {
    const learningRate: real
    const sqrt: real -> real
    var alpha: real
    var beta: real
    var alphaGradEma: real
    var betaGradEma: real
    var updates: nat
    var qualifyingCores: nat

    ghost function Value(): State
      reads this
    {
      State(alpha, beta, alphaGradEma, betaGradEma, updates, qualifyingCores)
    }

    constructor (alpha: real, beta: real, learningRate: real, sqrt: real -> real)
      ensures Value() == State(alpha, beta, 0.0, 0.0, 0, 0)
      ensures this.learningRate == learningRate && this.sqrt == sqrt
    {
      this.alpha, this.beta, this.alphaGradEma, this.betaGradEma := alpha, beta, 0.0, 0.0;
      this.updates, this.qualifyingCores, this.learningRate, this.sqrt := 0, 0, learningRate, sqrt;
    }

    /** `update`: the order in which the cores are visited does not matter. */
    method Update(counters: map<Key, Counters>, times: seq<PidTime>)
      modifies this
      ensures Value() == Updated(old(Value()), if counters == map[] || times == [] then map[]
        else Gather(counters, times), learningRate, sqrt)
    {
      if counters == map[] || times == [] {
        assert Qualifying(map[]) == {};
        return;
      }
      var cores := BuildCores(counters, times);
      var dAlpha, dBeta, count := SumGradients(cores, alpha, beta);
      if count == 0 {
        return;
      }
      alphaGradEma := Smoothed(alphaGradEma, dAlpha / count as real);
      betaGradEma := Smoothed(betaGradEma, dBeta / count as real);
      alpha := Moved(alpha, learningRate, alphaGradEma, 0.05, 2.0);
      beta := Moved(beta, learningRate, betaGradEma, 0.01, 10.0);
      updates := updates + 1;
      qualifyingCores := qualifyingCores + count;
    }

    /** The second loop of `update`. */
    method SumGradients(cores: Cores, alpha: real, beta: real) returns (dAlpha: real, dBeta: real, count: nat)
      requires CoresAdmitted(cores)
      ensures Summed(Qualifying(cores), cores, alpha, beta, sqrt, dAlpha, dBeta, count)
    {
      dAlpha, dBeta, count := 0.0, 0.0, 0;
      var todo := cores.Keys;
      ghost var done: set<nat> := {};
      while todo != {}
        invariant todo <= cores.Keys && done == Qualifying(cores) - todo
        invariant Summed(done, cores, alpha, beta, sqrt, dAlpha, dBeta, count)
      {
        var core :| core in todo;
        OneDone(Qualifying(cores), todo, core);
        todo := todo - {core};
        if Qualifies(cores[core]) {
          dAlpha, dBeta, count := AddGradients(done, cores, alpha, beta, sqrt, dAlpha, dBeta, count, core);
          done := done + {core};
        }
      }
      assert done == Qualifying(cores);
    }
  }
}
