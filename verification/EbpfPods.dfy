/** `enumerate_pods_ebpf_weighted`: the node's CPU power is split among cores, a core's among the
    tasks that ran on it, and the tasks' shares are added up by pod. Reading a task's cgroup and its
    proportional set size is part of the input. */
module EbpfPods {
  import opened Options
  import opened Sums
  import opened Shares
  import opened Ratios
  import opened KernelData
  import opened Models
  import opened PodReports
  import opened SeqSums
  import opened Entries

  /** `cgroup` is the pod that reading the task's cgroup would give at this entry. */
  datatype Entry = Entry(cpu: nat, pid: nat, timeNs: nat, cgroup: Option<string>)

  datatype Input = Input(cpuUw: nat, memoryUw: nat, llcMisses: nat, counters: seq<CoreCounters>,
                         times: seq<Entry>, freqs: seq<FreqTime>, hw: map<Key, Counters>,
                         alpha: real, beta: real, pss: map<nat, nat>, cache: map<string, Identity>)

  // Step 1: core weights.

  /** Cycles where counted; a later entry for a core replaces an earlier one. */
  function CycleWeights(counters: seq<CoreCounters>): map<nat, real>
  {
    if counters == [] then map[]
    else
      var rest, c := CycleWeights(counters[..|counters| - 1]), counters[|counters| - 1];
      if c.counters.cycles > 0 then rest[c.core := c.counters.cycles as real] else rest
  }

  /** Squared frequency in GHz times time. */
  function FreqWeights(freqs: seq<FreqTime>): map<nat, real>
  {
    if freqs == [] then map[]
    else
      var rest, e := FreqWeights(freqs[..|freqs| - 1]), freqs[|freqs| - 1];
      rest[e.cpu := GetR(rest, e.cpu) + FreqFactor(e.freqKhz) * e.timeNs as real]
  }

  function TimeWeights(times: seq<Entry>): map<nat, real>
  {
    if times == [] then map[]
    else
      var rest, e := TimeWeights(times[..|times| - 1]), times[|times| - 1];
      rest[e.cpu := GetR(rest, e.cpu) + e.timeNs as real]
  }

  /** The first of the three that knows any core. */
  function CoreWeights(input: Input): map<nat, real>
  {
    var cycles, freqs := CycleWeights(input.counters), FreqWeights(input.freqs);
    if cycles != map[] then cycles else if freqs != map[] then freqs else TimeWeights(input.times)
  }

  function HasCycles(core: nat): CoreCounters -> bool
  {
    (c: CoreCounters) => c.core == core && c.counters.cycles > 0
  }

  function FreqOn(cpu: nat): FreqTime -> bool
  {
    (e: FreqTime) => e.cpu == cpu
  }

  function FreqPart(cpu: nat): FreqTime -> real
  {
    (e: FreqTime) => if e.cpu == cpu then FreqFactor(e.freqKhz) * e.timeNs as real else 0.0
  }

  function TimeOn(cpu: nat): Entry -> bool
  {
    (e: Entry) => e.cpu == cpu
  }

  function TimePart(cpu: nat): Entry -> real
  {
    (e: Entry) => if e.cpu == cpu then e.timeNs as real else 0.0
  }

  lemma {:induction false} CycleWeightsAre(counters: seq<CoreCounters>, core: nat)
    ensures core in CycleWeights(counters) <==> Has(counters, HasCycles(core))
    ensures forall i: nat :: IsLast(counters, i, HasCycles(core)) ==>
      core in CycleWeights(counters) && CycleWeights(counters)[core] == counters[i].counters.cycles as real
  {
    if counters != [] {
      var n := |counters| - 1;
      CycleWeightsAre(counters[..n], core);
      LastEntry(counters, HasCycles(core));
      assert HasCycles(core)(counters[n]) <==> counters[n].core == core && counters[n].counters.cycles > 0;
      forall i: nat | IsLast(counters, i, HasCycles(core))
        ensures core in CycleWeights(counters) && CycleWeights(counters)[core] == counters[i].counters.cycles as real
      {
        if i < n { assert counters[..n][i] == counters[i]; }
      }
    }
  }

  lemma {:induction false} FreqWeightsAre(freqs: seq<FreqTime>, cpu: nat)
    ensures cpu in FreqWeights(freqs) <==> Has(freqs, FreqOn(cpu))
    ensures GetR(FreqWeights(freqs), cpu) == SeqSumR(freqs, FreqPart(cpu))
  {
    if freqs != [] {
      FreqWeightsAre(freqs[..|freqs| - 1], cpu);
      LastEntry(freqs, FreqOn(cpu));
    }
  }

  lemma {:induction false} TimeWeightsAre(times: seq<Entry>, cpu: nat)
    ensures cpu in TimeWeights(times) <==> Has(times, TimeOn(cpu))
    ensures GetR(TimeWeights(times), cpu) == SeqSumR(times, TimePart(cpu))
  {
    if times != [] {
      TimeWeightsAre(times[..|times| - 1], cpu);
      LastEntry(times, TimeOn(cpu));
    }
  }

  /** Some core counted cycles. */
  ghost predicate Counted(counters: seq<CoreCounters>)
  {
    exists i :: 0 <= i < |counters| && counters[i].counters.cycles > 0
  }

  /** Which weights are used, and what they are: the cycles a core last counted if any core counted some;
      else the sum of squared frequency times time over its entries if there is frequency data; else the
      sum of the times on it. */
  lemma CoreWeightsAre(input: Input, cpu: nat)
    ensures Counted(input.counters) ==>
      && (cpu in CoreWeights(input) <==> Has(input.counters, HasCycles(cpu)))
      && forall i: nat :: IsLast(input.counters, i, HasCycles(cpu)) ==>
           cpu in CoreWeights(input) && CoreWeights(input)[cpu] == input.counters[i].counters.cycles as real
    ensures !Counted(input.counters) && input.freqs != [] ==>
      && (cpu in CoreWeights(input) <==> Has(input.freqs, FreqOn(cpu)))
      && GetR(CoreWeights(input), cpu) == SeqSumR(input.freqs, FreqPart(cpu))
    ensures !Counted(input.counters) && input.freqs == [] ==>
      && (cpu in CoreWeights(input) <==> Has(input.times, TimeOn(cpu)))
      && GetR(CoreWeights(input), cpu) == SeqSumR(input.times, TimePart(cpu))
  {
    CountedIff(input.counters);
    CycleWeightsAre(input.counters, cpu);
    FreqWeightsAre(input.freqs, cpu);
    TimeWeightsAre(input.times, cpu);
    if input.freqs != [] { assert input.freqs[|input.freqs| - 1].cpu in FreqWeights(input.freqs); }
  }

  lemma {:induction false} CountedIff(counters: seq<CoreCounters>)
    ensures CycleWeights(counters) != map[] <==> Counted(counters)
  {
    if counters != [] {
      var n := |counters| - 1;
      CountedIff(counters[..n]);
      if i :| 0 <= i < n && counters[..n][i].counters.cycles > 0 { assert counters[i].counters.cycles > 0; }
      if i :| 0 <= i < |counters| && counters[i].counters.cycles > 0 {
        assert i == n || counters[..n][i].counters.cycles > 0;
      }
      if counters[n].counters.cycles > 0 { assert counters[n].core in CycleWeights(counters); }
    }
  }

  lemma {:induction false} CycleWeightsNonneg(counters: seq<CoreCounters>)
    ensures NonnegValues(CycleWeights(counters))
  {
    if counters != [] { CycleWeightsNonneg(counters[..|counters| - 1]); }
  }

  lemma {:induction false} FreqWeightsNonneg(freqs: seq<FreqTime>)
    ensures NonnegValues(FreqWeights(freqs))
  {
    if freqs != [] {
      FreqWeightsNonneg(freqs[..|freqs| - 1]);
      FreqTermNonneg(freqs[|freqs| - 1]);
    }
  }

  lemma FreqTermNonneg(e: FreqTime)
    ensures FreqFactor(e.freqKhz) * e.timeNs as real >= 0.0
  {
    FreqFactorSign(e.freqKhz);
    ProductNonneg(FreqFactor(e.freqKhz), e.timeNs as real);
  }

  lemma {:induction false} TimeWeightsNonneg(times: seq<Entry>)
    ensures NonnegValues(TimeWeights(times))
  {
    if times != [] { TimeWeightsNonneg(times[..|times| - 1]); }
  }

  lemma CoreWeightsNonneg(input: Input)
    ensures NonnegValues(CoreWeights(input))
  {
    CycleWeightsNonneg(input.counters);
    FreqWeightsNonneg(input.freqs);
    TimeWeightsNonneg(input.times);
  }

  // Step 2: core power.

  /** A core's part of the node's CPU power; none if no core has weight or this core is unknown. */
  ghost function CorePower(input: Input, cpu: nat): real
  {
    var w := CoreWeights(input);
    if cpu in w && TotalR(w) > 0.0 then input.cpuUw as real * (w[cpu] / TotalR(w)) else 0.0
  }

  ghost function CorePowers(input: Input): nat -> real
  {
    (cpu: nat) => CorePower(input, cpu)
  }

  /** The cores' powers add up to the node's. */
  lemma CoresAddUp(input: Input)
    requires TotalR(CoreWeights(input)) > 0.0
    ensures SumR(CoreWeights(input).Keys, CorePowers(input)) == input.cpuUw as real
    ensures forall cpu: nat :: CorePower(input, cpu) >= 0.0
  {
    var w := CoreWeights(input);
    CoreWeightsNonneg(input);
    ShareReals(w.Keys, ValuesR(w), CorePowers(input), input.cpuUw, TotalR(w));
    assert forall cpu :: cpu in w ==> CorePowers(input)(cpu) >= 0.0;
  }

  // Step 3: tasks and pods.

  /** The first cgroup read that names a pod decides; a failed read is tried again. */
  function PidPods(times: seq<Entry>): map<nat, string>
  {
    if times == [] then map[]
    else
      var rest, e := PidPods(times[..|times| - 1]), times[|times| - 1];
      if e.pid !in rest && e.cgroup.Some? then rest[e.pid := e.cgroup.value] else rest
  }

  function TasksOn(times: seq<Entry>, cpu: nat): seq<Entry>
  {
    if times == [] then []
    else
      var rest, e := TasksOn(times[..|times| - 1], cpu), times[|times| - 1];
      if e.cpu == cpu then rest + [e] else rest
  }

  ghost function Cpus(times: seq<Entry>): set<nat>
  {
    set i | 0 <= i < |times| :: times[i].cpu
  }

  // Step 4: the tasks of one core.

  /** Time, times the workload factor when there are per-task counters. */
  function TaskWeight(input: Input, e: Entry): real
  {
    if input.hw == map[] then e.timeNs as real
    else
      var c := CountersOf(input.hw, e.cpu, e.pid);
      e.timeNs as real * WorkloadFactor(input.alpha, input.beta,
        Observation(e.timeNs, c.instructions, c.cycles, c.cacheMisses))
  }

  datatype Weighted = Weighted(pid: nat, weight: real)

  function Weigh(input: Input, tasks: seq<Entry>): (ws: seq<Weighted>)
    ensures |ws| == |tasks| && forall i :: 0 <= i < |ws| ==>
      ws[i] == Weighted(tasks[i].pid, TaskWeight(input, tasks[i]))
  {
    seq(|tasks|, i requires 0 <= i < |tasks| => Weighted(tasks[i].pid, TaskWeight(input, tasks[i])))
  }

  function WeightSum(ws: seq<Weighted>): real
  {
    if ws == [] then 0.0 else WeightSum(ws[..|ws| - 1]) + ws[|ws| - 1].weight
  }

  /** `ce * (weight / total)`. */
  function Part(power: real, weight: real, sum: real): real
  {
    if sum > 0.0 then power * (weight / sum) else 0.0
  }

  predicate InPod(pods: map<nat, string>, pid: nat, uid: string)
  {
    pid in pods && pods[pid] == uid
  }

  /** What the first tasks of a core give a pod. */
  function Charged(ws: seq<Weighted>, pods: map<nat, string>, power: real, sum: real, uid: string): real
  {
    if ws == [] then 0.0
    else
      var rest, w := Charged(ws[..|ws| - 1], pods, power, sum, uid), ws[|ws| - 1];
      if InPod(pods, w.pid, uid) then rest + Part(power, w.weight, sum) else rest
  }

  /** A core's contribution to a pod. */
  function CoreShare(ws: seq<Weighted>, pods: map<nat, string>, power: real, uid: string): real
  {
    if power <= 0.0 || WeightSum(ws) <= 0.0 then 0.0 else Charged(ws, pods, power, WeightSum(ws), uid)
  }

  ghost predicate WeightsNonneg(ws: seq<Weighted>)
  {
    forall i :: 0 <= i < |ws| ==> ws[i].weight >= 0.0
  }

  lemma TaskWeightNonneg(input: Input, e: Entry)
    requires input.alpha >= 0.0 && input.beta >= 0.0
    ensures TaskWeight(input, e) >= 0.0
  {
    if input.hw != map[] {
      var c := CountersOf(input.hw, e.cpu, e.pid);
      var o := Observation(e.timeNs, c.instructions, c.cycles, c.cacheMisses);
      FactorAtLeastOne(input.alpha, input.beta, o);
      ProductNonneg(e.timeNs as real, WorkloadFactor(input.alpha, input.beta, o));
    }
  }

  lemma PartAdds(power: real, a: real, b: real, sum: real)
    requires sum > 0.0 && power >= 0.0
    ensures Part(power, a + b, sum) == Part(power, a, sum) + Part(power, b, sum)
    ensures b >= 0.0 ==> Part(power, b, sum) >= 0.0
    ensures Part(power, 0.0, sum) == 0.0 && Part(power, sum, sum) == power
  {
    ScaledShare(power, a, sum);
    ScaledShare(power, b, sum);
    ScaledShare(power, a + b, sum);
    ScaledShare(power, 0.0, sum);
    ScaledShare(power, sum, sum);
    TimesDistributes(power / sum, a, b);
  }

  function ChargedTo(ws: seq<Weighted>, pods: map<nat, string>, power: real, sum: real): string -> real
  {
    (uid: string) => Charged(ws, pods, power, sum, uid)
  }

  /** Every task of the core is in a pod of the set. */
  ghost predicate AllIn(ws: seq<Weighted>, pods: map<nat, string>, uids: set<string>)
  {
    forall i :: 0 <= i < |ws| ==> ws[i].pid in pods && pods[ws[i].pid] in uids
  }

  /** One task more gives its part to one pod, or to none. */
  lemma OneTask(ws: seq<Weighted>, pods: map<nat, string>, power: real, sum: real, uids: set<string>)
    requires ws != []
    ensures var rest, w := ws[..|ws| - 1], ws[|ws| - 1];
      SumR(uids, ChargedTo(ws, pods, power, sum)) == SumR(uids, ChargedTo(rest, pods, power, sum))
        + if w.pid in pods && pods[w.pid] in uids then Part(power, w.weight, sum) else 0.0
  {
    var rest, w := ws[..|ws| - 1], ws[|ws| - 1];
    var f, g := ChargedTo(ws, pods, power, sum), ChargedTo(rest, pods, power, sum);
    if w.pid in pods && pods[w.pid] in uids {
      var uid := pods[w.pid];
      SumRTake(uids, f, uid);
      SumRTake(uids, g, uid);
      SumRSame(uids - {uid}, f, g);
    } else {
      SumRSame(uids, f, g);
    }
  }

  lemma {:induction false} TasksGiveTheirParts(ws: seq<Weighted>, pods: map<nat, string>, power: real, sum: real,
                                               uids: set<string>)
    requires power >= 0.0 && sum > 0.0 && WeightsNonneg(ws)
    ensures SumR(uids, ChargedTo(ws, pods, power, sum)) <= Part(power, WeightSum(ws), sum)
    ensures AllIn(ws, pods, uids) ==> SumR(uids, ChargedTo(ws, pods, power, sum)) == Part(power, WeightSum(ws), sum)
    ensures forall uid :: Charged(ws, pods, power, sum, uid) >= 0.0
  {
    if ws == [] {
      var zero := (uid: string) => 0.0;
      SumRScale(uids, zero, ChargedTo(ws, pods, power, sum), 0.0);
      PartAdds(power, 0.0, 0.0, sum);
    } else {
      var rest, w := ws[..|ws| - 1], ws[|ws| - 1];
      TasksGiveTheirParts(rest, pods, power, sum, uids);
      OneTask(ws, pods, power, sum, uids);
      PartAdds(power, WeightSum(rest), w.weight, sum);
    }
  }

  function CoreShares(ws: seq<Weighted>, pods: map<nat, string>, power: real): string -> real
  {
    (uid: string) => CoreShare(ws, pods, power, uid)
  }

  /** A core gives the pods at most its power, and all of it if all its tasks are in pods. */
  lemma CoreIsConserved(ws: seq<Weighted>, pods: map<nat, string>, power: real, uids: set<string>)
    requires power >= 0.0 && WeightsNonneg(ws)
    ensures SumR(uids, CoreShares(ws, pods, power)) <= power
    ensures AllIn(ws, pods, uids) && WeightSum(ws) > 0.0 ==> SumR(uids, CoreShares(ws, pods, power)) == power
    ensures forall uid :: CoreShare(ws, pods, power, uid) >= 0.0
  {
    if power <= 0.0 || WeightSum(ws) <= 0.0 {
      var zero := (uid: string) => 0.0;
      SumRScale(uids, zero, CoreShares(ws, pods, power), 0.0);
    } else {
      TasksGiveTheirParts(ws, pods, power, WeightSum(ws), uids);
      PartAdds(power, 0.0, 0.0, WeightSum(ws));
      SumRSame(uids, CoreShares(ws, pods, power), ChargedTo(ws, pods, power, WeightSum(ws)));
    }
  }

  // All cores.

  ghost function TasksOf(input: Input, cpu: nat): seq<Weighted>
  {
    Weigh(input, TasksOn(input.times, cpu))
  }

  /** What a core gives a pod. */
  ghost function CpuTable(input: Input): (string, nat) -> real
  {
    (uid: string, cpu: nat) => CoreShare(TasksOf(input, cpu), PidPods(input.times), CorePower(input, cpu), uid)
  }

  /** A pod's CPU power before truncation. */
  ghost function PodCpu(input: Input): string -> real
  {
    Row(Cpus(input.times), CpuTable(input))
  }

  ghost predicate Calibrated(input: Input)
  {
    input.alpha >= 0.0 && input.beta >= 0.0
  }

  lemma TasksNonneg(input: Input, cpu: nat)
    requires Calibrated(input)
    ensures WeightsNonneg(TasksOf(input, cpu))
  {
    var tasks := TasksOn(input.times, cpu);
    forall i | 0 <= i < |tasks| ensures TasksOf(input, cpu)[i].weight >= 0.0 { TaskWeightNonneg(input, tasks[i]); }
  }

  lemma CpuColumn(input: Input, uids: set<string>, cpu: nat)
    requires Calibrated(input) && CorePower(input, cpu) >= 0.0
    ensures Column(uids, CpuTable(input))(cpu) <= CorePower(input, cpu)
    ensures AllIn(TasksOf(input, cpu), PidPods(input.times), uids) && WeightSum(TasksOf(input, cpu)) > 0.0 ==>
      Column(uids, CpuTable(input))(cpu) == CorePower(input, cpu)
    ensures forall uid :: CpuTable(input)(uid, cpu) >= 0.0
  {
    TasksNonneg(input, cpu);
    var ws, pods, power := TasksOf(input, cpu), PidPods(input.times), CorePower(input, cpu);
    CoreIsConserved(ws, pods, power, uids);
    SumRSame(uids, CellsOf(CpuTable(input), cpu), CoreShares(ws, pods, power));
    forall uid ensures CpuTable(input)(uid, cpu) >= 0.0 { assert CoreShare(ws, pods, power, uid) >= 0.0; }
  }

  /** Every core that has power also ran tasks, all of them in pods of the set. */
  ghost predicate FullyInPods(input: Input, uids: set<string>)
  {
    forall cpu :: cpu in CoreWeights(input) ==>
      cpu in Cpus(input.times) && AllIn(TasksOf(input, cpu), PidPods(input.times), uids) &&
        WeightSum(TasksOf(input, cpu)) > 0.0
  }

  /** The pods' CPU powers add up to at most the node's in all three fallbacks, and to exactly it
      when every core with weight ran only tasks of pods. */
  lemma PodsShareTheCpu(input: Input, uids: set<string>)
    requires Calibrated(input) && TotalR(CoreWeights(input)) > 0.0
    ensures forall uid :: PodCpu(input)(uid) >= 0.0
    ensures SumR(uids, PodCpu(input)) <= input.cpuUw as real
    ensures FullyInPods(input, uids) ==> SumR(uids, PodCpu(input)) == input.cpuUw as real
  {
    var cpus, w := Cpus(input.times), CoreWeights(input).Keys;
    CoresAddUp(input);
    forall cpu ensures Column(uids, CpuTable(input))(cpu) <= CorePowers(input)(cpu) { CpuColumn(input, uids, cpu); }
    forall uid, cpu ensures CpuTable(input)(uid, cpu) >= 0.0 { CpuColumn(input, uids, cpu); }
    forall uid ensures PodCpu(input)(uid) >= 0.0 { SumRNonneg(cpus, Cells(CpuTable(input), uid)); }
    Exchange(uids, cpus, CpuTable(input));
    SumRMono(cpus, Column(uids, CpuTable(input)), CorePowers(input));
    SumWithin(cpus, w, CorePowers(input));
    if FullyInPods(input, uids) { NothingIsLost(input, uids); }
  }

  lemma NothingIsLost(input: Input, uids: set<string>)
    requires Calibrated(input) && TotalR(CoreWeights(input)) > 0.0 && FullyInPods(input, uids)
    ensures SumR(Cpus(input.times), Column(uids, CpuTable(input))) == input.cpuUw as real
  {
    var cpus, w := Cpus(input.times), CoreWeights(input).Keys;
    CoresAddUp(input);
    forall cpu | cpu in cpus ensures Column(uids, CpuTable(input))(cpu) == CorePowers(input)(cpu) {
      CpuColumn(input, uids, cpu);
      if cpu !in w { SumRNonneg(uids, CellsOf(CpuTable(input), cpu)); }
    }
    SumRSame(cpus, Column(uids, CpuTable(input)), CorePowers(input));
    SumOnly(cpus, w, CorePowers(input));
  }
}
