/** `split_socket_to_cores`: the energy of a socket is divided among its cores in proportion to busy
    time and squared frequency, or evenly when nothing ran there. */
module SocketSplit {
  import opened Sums
  import opened Shares
  import opened KernelData
  import opened SeqSums
  import opened Entries

  /** Sum of frequency times time, and of time, over the entries of one CPU. */
  function FreqSums(freqs: seq<FreqTime>, cpu: nat): (r: (real, real))
    ensures r.0 >= 0.0 && r.1 >= 0.0
  {
    if freqs == [] then (0.0, 0.0)
    else
      var e, rest := freqs[|freqs| - 1], FreqSums(freqs[..|freqs| - 1], cpu);
      if e.cpu == cpu then
        ProductNonneg(e.freqKhz as real, e.timeNs as real);
        (rest.0 + e.freqKhz as real * e.timeNs as real, rest.1 + e.timeNs as real)
      else rest
  }

  /** The time-weighted average frequency in kHz; 1 GHz without data. */
  function AvgFreq(freqs: seq<FreqTime>, cpu: nat): real
  {
    var s := FreqSums(freqs, cpu);
    if s.1 > 0.0 then s.0 / s.1 else 1_000_000.0
  }

  lemma AvgFreqNonneg(freqs: seq<FreqTime>, cpu: nat)
    ensures AvgFreq(freqs, cpu) >= 0.0
  {
    var s := FreqSums(freqs, cpu);
    if s.1 > 0.0 { RatioBounds(s.0, s.1); }
  }

  function TimeAt(cpu: nat): FreqTime -> real
  {
    (e: FreqTime) => if e.cpu == cpu then e.timeNs as real else 0.0
  }

  function CyclesAt(cpu: nat): FreqTime -> real
  {
    (e: FreqTime) => if e.cpu == cpu then e.freqKhz as real * e.timeNs as real else 0.0
  }

  lemma {:induction false} FreqSumsAre(freqs: seq<FreqTime>, cpu: nat)
    ensures FreqSums(freqs, cpu) == (SeqSumR(freqs, CyclesAt(cpu)), SeqSumR(freqs, TimeAt(cpu)))
  {
    if freqs != [] { FreqSumsAre(freqs[..|freqs| - 1], cpu); }
  }

  /** The average frequency of a CPU, times the time in its entries, is the sum of frequency times time; it
      is 1 GHz when there is no such time. */
  lemma AvgFreqIs(freqs: seq<FreqTime>, cpu: nat)
    ensures var time := SeqSumR(freqs, TimeAt(cpu));
      if time > 0.0 then AvgFreq(freqs, cpu) * time == SeqSumR(freqs, CyclesAt(cpu))
      else AvgFreq(freqs, cpu) == 1_000_000.0
  {
    FreqSumsAre(freqs, cpu);
  }

  function BusyWeight(e: PidTime, freqs: seq<FreqTime>): real
  {
    e.timeNs as real * Sq(AvgFreq(freqs, e.cpu) / 1_000_000.0)
  }

  lemma BusyWeightNonneg(e: PidTime, freqs: seq<FreqTime>)
    ensures BusyWeight(e, freqs) >= 0.0
  {
    var x := AvgFreq(freqs, e.cpu) / 1_000_000.0;
    AvgFreqNonneg(freqs, e.cpu);
    ProductNonneg(x, x);
    ProductNonneg(e.timeNs as real, Sq(x));
  }

  /** A task's weight is its time times the square of the average frequency in GHz. */
  lemma BusyWeightIs(e: PidTime, freqs: seq<FreqTime>, ghz: real)
    requires ghz * 1_000_000.0 == AvgFreq(freqs, e.cpu)
    ensures BusyWeight(e, freqs) == e.timeNs as real * (ghz * ghz)
  {
    assert AvgFreq(freqs, e.cpu) / 1_000_000.0 == ghz;
  }

  /** The weight of each core that ran anything. */
  function CoreWeights(times: seq<PidTime>, freqs: seq<FreqTime>): map<nat, real>
  {
    if times == [] then map[]
    else
      var e, rest := times[|times| - 1], CoreWeights(times[..|times| - 1], freqs);
      rest[e.cpu := GetR(rest, e.cpu) + BusyWeight(e, freqs)]
  }

  function IsOn(cpu: nat): PidTime -> bool
  {
    (e: PidTime) => e.cpu == cpu
  }

  function WeightOn(cpu: nat, freqs: seq<FreqTime>): PidTime -> real
  {
    (e: PidTime) => if e.cpu == cpu then BusyWeight(e, freqs) else 0.0
  }

  /** A core has a weight exactly if it has an entry, and the weight is the sum over its entries. */
  lemma {:induction false} CoreWeightsAre(times: seq<PidTime>, freqs: seq<FreqTime>, cpu: nat)
    ensures cpu in CoreWeights(times, freqs) <==> Has(times, IsOn(cpu))
    ensures GetR(CoreWeights(times, freqs), cpu) == SeqSumR(times, WeightOn(cpu, freqs))
  {
    if times != [] {
      CoreWeightsAre(times[..|times| - 1], freqs, cpu);
      LastEntry(times, IsOn(cpu));
    }
  }

  /** The cores first .. first + n. */
  function Cores(first: nat, n: nat): set<nat>
  {
    set c: nat | first <= c < first + n && IsOneOf(c, first, n)
  }

  predicate IsOneOf(c: nat, first: nat, n: nat)
  {
    first <= c < first + n
  }

  lemma {:induction false} CoresSize(first: nat, n: nat)
    ensures |Cores(first, n)| == n
  {
    if n == 0 {
      assert Cores(first, n) == {};
    } else {
      CoresSize(first, n - 1);
      MoreCores(first, n - 1);
    }
  }

  ghost function SocketWeight(weights: map<nat, real>, first: nat, n: nat): real
  {
    SumR(Cores(first, n), ValuesR(weights))
  }

  /** The energy of one core of a socket, given the socket's total weight. */
  function CoreShare(energy: nat, coresPerSocket: nat, w: real, total: real): nat
    requires coresPerSocket > 0
  {
    if total <= 0.0 then energy / coresPerSocket else Share(energy, w, total)
  }

  /** A core gets its part of the socket by weight; without any weight, every core the same part. */
  lemma CoreShareIs(energy: nat, coresPerSocket: nat, w: real, total: real)
    requires coresPerSocket > 0 && w >= 0.0
    ensures var n := CoreShare(energy, coresPerSocket, w, total);
      if total <= 0.0 then n * coresPerSocket <= energy < n * coresPerSocket + coresPerSocket
      else IsShare(n, energy, w, total)
  {
    if total <= 0.0 { QuotientIsPart(energy, coresPerSocket); } else { ShareIs(energy, w, total); }
  }

  /** The entries of one socket are right. */
  ghost predicate SocketOk(energies: map<nat, nat>, weights: map<nat, real>, energy: nat, first: nat,
                           coresPerSocket: nat)
    requires coresPerSocket > 0
  {
    forall c :: first <= c < first + coresPerSocket ==>
      c in energies &&
      energies[c] == CoreShare(energy, coresPerSocket, GetR(weights, c), SocketWeight(weights, first, coresPerSocket))
  }

  /** The cores of a socket receive at most its energy, and fall short of it by less than their number. */
  ghost predicate SocketFits(energies: map<nat, nat>, energy: nat, first: nat, n: nat)
  {
    energy - n < CoreSum(energies, first, n) <= energy
  }

  /** The energy of the cores first .. first + n. */
  ghost function CoreSum(energies: map<nat, nat>, first: nat, n: nat): int
  {
    SumI<nat>(Cores(first, n), Values<nat>(energies))
  }

  /** This holds in both branches. */
  lemma SocketIsConserved(energies: map<nat, nat>, weights: map<nat, real>, energy: nat, first: nat,
                          coresPerSocket: nat)
    requires coresPerSocket > 0 && NonnegValues(weights) && SocketOk(energies, weights, energy, first, coresPerSocket)
    ensures SocketFits(energies, energy, first, coresPerSocket)
  {
    var cores, w := Cores(first, coresPerSocket), ValuesR(weights);
    CoresSize(first, coresPerSocket);
    if SocketWeight(weights, first, coresPerSocket) > 0.0 {
      SplitLosesLessThanCount(cores, w, Values(energies), energy, SocketWeight(weights, first, coresPerSocket));
    } else {
      SumConst(cores, Values(energies), energy / coresPerSocket);
      EvenSplit(energy, coresPerSocket);
    }
  }

  lemma EvenSplit(energy: nat, n: nat)
    requires n > 0
    ensures energy - n < n * (energy / n) <= energy
  {
    assert energy == n * (energy / n) + energy % n;
  }

  lemma {:induction false} SumConst(s: set<nat>, f: nat -> int, v: int)
    requires forall k :: k in s ==> f(k) == v
    ensures SumI(s, f) == |s| * v
    decreases |s|
  {
    if s != {} {
      var k :| k in s;
      SumITake(s, f, k);
      SumConst(s - {k}, f, v);
      assert |s| * v == (|s| - 1) * v + v;
    }
  }

  /** The first loop: accumulate the weight of every core. */
  method BuildCoreWeights(times: seq<PidTime>, freqs: seq<FreqTime>) returns (weights: map<nat, real>)
    ensures weights == CoreWeights(times, freqs) && NonnegValues(weights)
  {
    weights := map[];
    for i := 0 to |times|
      invariant weights == CoreWeights(times[..i], freqs) && NonnegValues(weights)
    {
      assert times[..i + 1][..i] == times[..i];
      BusyWeightNonneg(times[i], freqs);
      weights := weights[times[i].cpu := GetR(weights, times[i].cpu) + BusyWeight(times[i], freqs)];
    }
    assert times[..|times|] == times;
  }

  lemma MoreCores(first: nat, j: nat)
    ensures Cores(first, j + 1) == Cores(first, j) + {first + j} && first + j !in Cores(first, j)
  {
  }

  lemma WeightOneMore(weights: map<nat, real>, first: nat, j: nat)
    ensures SocketWeight(weights, first, j + 1) == SocketWeight(weights, first, j) + GetR(weights, first + j)
  {
    var s, f := Cores(first, j), ValuesR(weights);
    MoreCores(first, j);
    SumRAdd<nat>(s, f, first + j);
  }

  /** The total weight of a socket's cores. */
  method SumWeights(weights: map<nat, real>, first: nat, n: nat) returns (total: real)
    ensures total == SocketWeight(weights, first, n)
  {
    total := 0.0;
    for j := 0 to n
      invariant total == SocketWeight(weights, first, j)
    {
      WeightOneMore(weights, first, j);
      total := total + GetR(weights, first + j);
    }
  }

  /** The body of the second loop: one socket. */
  method SplitSocket(energies: map<nat, nat>, weights: map<nat, real>, energy: nat, first: nat, coresPerSocket: nat)
    returns (r: map<nat, nat>)
    requires coresPerSocket > 0
    ensures SocketOk(r, weights, energy, first, coresPerSocket)
    ensures forall c :: c in r <==> c in energies || first <= c < first + coresPerSocket
    ensures forall c :: c in energies && !(first <= c < first + coresPerSocket) ==> r[c] == energies[c]
  {
    var total := SumWeights(weights, first, coresPerSocket);
    r := FillCores(energies, (c: nat) => CoreShare(energy, coresPerSocket, GetR(weights, c), total), first,
      coresPerSocket);
  }

  /** `core_energies.insert(core, ..)` for every core of a socket. */
  method FillCores(energies: map<nat, nat>, share: nat -> nat, first: nat, n: nat) returns (r: map<nat, nat>)
    ensures forall c :: c in r <==> c in energies || first <= c < first + n
    ensures forall c :: first <= c < first + n ==> r[c] == share(c)
    ensures forall c :: c in energies && !(first <= c < first + n) ==> r[c] == energies[c]
  {
    r := energies;
    for j := 0 to n
      invariant forall c :: c in r <==> c in energies || first <= c < first + j
      invariant forall c :: first <= c < first + j ==> r[c] == share(c)
      invariant forall c :: c in energies && !(first <= c < first + j) ==> r[c] == energies[c]
    {
      r := r[first + j := share(first + j)];
    }
  }

  /** `socket_idx * cores_per_socket`. */
  function FirstCore(socket: nat, coresPerSocket: nat): nat
  {
    if socket == 0 then 0 else FirstCore(socket - 1, coresPerSocket) + coresPerSocket
  }

  lemma {:induction false} FirstCoreIsProduct(socket: nat, n: nat)
    ensures FirstCore(socket, n) == socket * n
  {
    if socket > 0 {
      FirstCoreIsProduct(socket - 1, n);
      assert socket * n == (socket - 1) * n + n;
    }
  }

  lemma {:induction false} SocketsApart(s: nat, t: nat, n: nat)
    requires s < t
    ensures FirstCore(s, n) + n <= FirstCore(t, n)
  {
    if s + 1 < t { SocketsApart(s, t - 1, n); }
  }

  /** The energy of the first m sockets. */
  ghost function SocketSum(sockets: seq<nat>, m: nat): int
    requires m <= |sockets|
  {
    SumSeq(sockets[..m])
  }

  lemma SocketSumOneMore(sockets: seq<nat>, m: nat)
    requires m < |sockets|
    ensures SocketSum(sockets, m + 1) == SocketSum(sockets, m) + sockets[m]
  {
    assert sockets[..m + 1][..m] == sockets[..m];
  }

  lemma CoresSplit(energies: map<nat, nat>, first: nat, n: nat, next: nat)
    requires next == first + n
    ensures CoreSum(energies, 0, next) == CoreSum(energies, 0, first) + CoreSum(energies, first, n)
  {
    assert Cores(0, next) == Cores(0, first) + Cores(first, n);
    SumIUnion<nat>(Cores(0, first), Cores(first, n), Values<nat>(energies));
  }

  ghost predicate Bounded(total: int, energy: int, cores: nat, m: nat)
  {
    energy - cores + m <= total <= energy
  }

  /** Running totals that grow with every socket by at most its energy, and by less than n short of it. */
  ghost predicate Totals(p: seq<int>, sockets: seq<nat>, n: nat)
  {
    && |p| == |sockets| + 1 && p[0] == 0
    && forall s :: 0 <= s < |sockets| ==> sockets[s] - n < p[s + 1] - p[s] <= sockets[s]
  }

  lemma {:induction false} TotalsAddUp(p: seq<int>, sockets: seq<nat>, n: nat, m: nat)
    requires Totals(p, sockets, n) && m <= |sockets|
    ensures Bounded(p[m], SocketSum(sockets, m), FirstCore(m, n), m)
  {
    if m > 0 {
      TotalsAddUp(p, sockets, n, m - 1);
      SocketSumOneMore(sockets, m - 1);
      assert sockets[m - 1] - n < p[m - 1 + 1] - p[m - 1] <= sockets[m - 1];
    }
  }

  ghost function RunningTotals(energies: map<nat, nat>, k: nat, n: nat): (p: seq<int>)
    ensures |p| == k + 1 && forall s :: 0 <= s <= k ==> p[s] == CoreSum(energies, 0, FirstCore(s, n))
  {
    seq(k + 1, s requires 0 <= s <= k => CoreSum(energies, 0, FirstCore(s, n)))
  }

  lemma OneMoreTotal(energies: map<nat, nat>, energy: nat, s: nat, n: nat)
    requires SocketFits(energies, energy, FirstCore(s, n), n)
    ensures energy - n < CoreSum(energies, 0, FirstCore(s + 1, n)) - CoreSum(energies, 0, FirstCore(s, n)) <= energy
  {
    CoresSplit(energies, FirstCore(s, n), n, FirstCore(s + 1, n));
  }

  /** The cores of all sockets together receive at most the sockets' energy, and what is missing is at most
      the number of cores minus the number of sockets. */
  lemma SocketsAddUp(energies: map<nat, nat>, sockets: seq<nat>, n: nat)
    requires forall s :: 0 <= s < |sockets| ==> SocketFits(energies, sockets[s], FirstCore(s, n), n)
    ensures Conserved(CoreSum(energies, 0, FirstCore(|sockets|, n)), sockets, n)
  {
    var k := |sockets|;
    var p := RunningTotals(energies, k, n);
    assert p[0] == 0;
    forall s | 0 <= s < k ensures sockets[s] - n < p[s + 1] - p[s] <= sockets[s] {
      OneMoreTotal(energies, sockets[s], s, n);
    }
    TotalsAddUp(p, sockets, n, k);
    assert sockets[..k] == sockets;
  }

  /** What the cores of all sockets get of the sockets' energy. */
  ghost predicate Conserved(total: int, sockets: seq<nat>, coresPerSocket: nat)
  {
    Bounded(total, SumSeq(sockets), FirstCore(|sockets|, coresPerSocket), |sockets|)
  }

  /** `split_socket_to_cores`: every socket is split among its own cores. */
  method SplitSocketToCores(times: seq<PidTime>, freqs: seq<FreqTime>, socketEnergyUj: seq<nat>, coresPerSocket: nat)
    returns (energies: map<nat, nat>)
    requires coresPerSocket > 0 || socketEnergyUj == []
    ensures forall s :: 0 <= s < |socketEnergyUj| ==>
      SocketOk(energies, CoreWeights(times, freqs), socketEnergyUj[s], FirstCore(s, coresPerSocket), coresPerSocket)
    ensures forall s :: 0 <= s < |socketEnergyUj| ==>
      SocketFits(energies, socketEnergyUj[s], FirstCore(s, coresPerSocket), coresPerSocket)
    ensures forall c :: c in energies <==> 0 <= c < FirstCore(|socketEnergyUj|, coresPerSocket)
    ensures Conserved(Total(energies), socketEnergyUj, coresPerSocket)
  {
    var weights := BuildCoreWeights(times, freqs);
    energies := map[];
    for i := 0 to |socketEnergyUj|
      invariant SocketsOk(energies, weights, socketEnergyUj, i, coresPerSocket)
      invariant forall c :: c in energies <==> 0 <= c < FirstCore(i, coresPerSocket)
    {
      ghost var before := energies;
      energies := SplitSocket(energies, weights, socketEnergyUj[i], FirstCore(i, coresPerSocket), coresPerSocket);
      OneMoreSocket(before, energies, weights, socketEnergyUj, i, coresPerSocket);
    }
    forall s | 0 <= s < |socketEnergyUj|
      ensures SocketFits(energies, socketEnergyUj[s], FirstCore(s, coresPerSocket), coresPerSocket)
    {
      SocketIsConserved(energies, weights, socketEnergyUj[s], FirstCore(s, coresPerSocket), coresPerSocket);
    }
    SocketsAddUp(energies, socketEnergyUj, coresPerSocket);
    assert energies.Keys == Cores(0, FirstCore(|socketEnergyUj|, coresPerSocket));
  }

  ghost predicate SocketsOk(energies: map<nat, nat>, weights: map<nat, real>, sockets: seq<nat>, n: nat,
                            coresPerSocket: nat)
    requires n <= |sockets| && (coresPerSocket > 0 || n == 0)
  {
    forall s :: 0 <= s < n ==> SocketOk(energies, weights, sockets[s], FirstCore(s, coresPerSocket), coresPerSocket)
  }

  /** Splitting a socket leaves the cores of the others alone. */
  lemma OneMoreSocket(before: map<nat, nat>, after: map<nat, nat>, weights: map<nat, real>, sockets: seq<nat>, n: nat,
                      coresPerSocket: nat)
    requires coresPerSocket > 0 && n < |sockets| && SocketsOk(before, weights, sockets, n, coresPerSocket)
    requires SocketOk(after, weights, sockets[n], FirstCore(n, coresPerSocket), coresPerSocket)
    requires before.Keys <= after.Keys
    requires forall c :: c in before && c < FirstCore(n, coresPerSocket) ==> after[c] == before[c]
    ensures SocketsOk(after, weights, sockets, n + 1, coresPerSocket)
  {
    forall s | 0 <= s < n
      ensures SocketOk(after, weights, sockets[s], FirstCore(s, coresPerSocket), coresPerSocket)
    {
      SocketsApart(s, n, coresPerSocket);
      SocketUntouched(before, after, weights, sockets[s], FirstCore(s, coresPerSocket), FirstCore(n, coresPerSocket),
        coresPerSocket);
    }
  }

  lemma SocketUntouched(before: map<nat, nat>, after: map<nat, nat>, weights: map<nat, real>, energy: nat, first: nat,
                        limit: nat, n: nat)
    requires n > 0 && first + n <= limit && SocketOk(before, weights, energy, first, n)
    requires before.Keys <= after.Keys && forall c :: c in before && c < limit ==> after[c] == before[c]
    ensures SocketOk(after, weights, energy, first, n)
  {
  }
}
