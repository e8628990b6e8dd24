/** `attribute`: one interval of observations and energy readings becomes a power snapshot. */
module Attribution {
  import opened Options
  import opened Sums
  import opened Shares
  import opened KernelData
  import opened SeqSums
  import opened Entries
  import opened Models
  import opened SocketSplit
  import opened Engine

  datatype Observations = Observations(
    pidCpuTimes: seq<PidTime>, cpuFreqTimes: seq<FreqTime>, coreCounters: seq<CoreCounters>)

  datatype EnergyInput = EnergyInput(
    socketEnergyUj: seq<nat>, dramEnergyUj: seq<nat>, gpuEnergyUj: seq<nat>, platformEnergyUj: Option<nat>,
    intervalNs: nat)

  // Steps 2 to 4: what each core saw.

  function TimesOf(corePids: map<nat, map<nat, nat>>, core: nat): map<nat, nat>
  {
    if core in corePids then corePids[core] else map[]
  }

  /** `build_core_pid_observations`: core to task to time; a repeated key keeps the last entry. */
  function CorePids(times: seq<PidTime>): map<nat, map<nat, nat>>
  {
    if times == [] then map[]
    else
      var e, rest := times[|times| - 1], CorePids(times[..|times| - 1]);
      rest[e.cpu := TimesOf(rest, e.cpu)[e.pid := e.timeNs]]
  }

  function IsFor(core: nat, pid: nat): PidTime -> bool
  {
    (e: PidTime) => e.cpu == core && e.pid == pid
  }

  /** A core's map holds exactly the tasks with an entry for that core, each with the time of its last. */
  lemma {:induction false} CorePidsHold(times: seq<PidTime>, core: nat, pid: nat)
    ensures core in CorePids(times) <==> Has(times, IsOn(core))
    ensures pid in TimesOf(CorePids(times), core) <==> Has(times, IsFor(core, pid))
    ensures forall i: nat :: IsLast(times, i, IsFor(core, pid)) ==>
      pid in TimesOf(CorePids(times), core) && TimesOf(CorePids(times), core)[pid] == times[i].timeNs
  {
    if times != [] {
      CorePidsHold(times[..|times| - 1], core, pid);
      LastEntry(times, IsOn(core));
      LastEntry(times, IsFor(core, pid));
    }
  }

  method BuildCorePids(times: seq<PidTime>) returns (r: map<nat, map<nat, nat>>)
    ensures r == CorePids(times)
  {
    r := map[];
    for i := 0 to |times|
      invariant r == CorePids(times[..i])
    {
      assert times[..i + 1][..i] == times[..i];
      r := r[times[i].cpu := TimesOf(r, times[i].cpu)[times[i].pid := times[i].timeNs]];
    }
    assert times[..|times|] == times;
  }

  /** `pid_times.values().sum()`. */
  method SumValues(m: map<nat, nat>) returns (t: nat)
    ensures t == Total(m)
  {
    t := 0;
    var todo := m.Keys;
    ghost var done: set<nat> := {};
    ghost var f := Values<nat>(m);
    while todo != {}
      invariant todo !! done && m.Keys == todo + done && t == SumI(done, f)
    {
      var k :| k in todo;
      SumIAdd(done, f, k);
      t := t + m[k];
      todo, done := todo - {k}, done + {k};
    }
  }

  /** The counters that `build_core_counter_map` ends up with for a core: the last ones listed. */
  function LastCounters(counters: seq<CoreCounters>, core: nat): Option<Counters>
  {
    if counters == [] then None
    else if counters[|counters| - 1].core == core then Some(counters[|counters| - 1].counters)
    else LastCounters(counters[..|counters| - 1], core)
  }

  /** `(counter as f64 * (time / total)) as u64`; nothing when the core has no busy time. */
  function Scale(counter: nat, time: nat, total: nat): nat
  {
    if total == 0 then 0 else Share(counter, time as real, total as real)
  }

  function Observe(time: nat, total: nat, counters: Option<Counters>): Observation
  {
    match counters
    case None => Observation(time, 0, 0, 0)
    case Some(c) =>
      Observation(time, Scale(c.instructions, time, total), Scale(c.cycles, time, total),
        Scale(c.cacheMisses, time, total))
  }

  function ObserveAll(times: map<nat, nat>, total: nat, counters: Option<Counters>): Core
  {
    map pid | pid in times :: Observe(times[pid], total, counters)
  }

  /** The tasks are charged with a core's counters in proportion to time; together they receive at
      most the counter, and all of it but less than one unit per task. */
  lemma CountersAreSplit(times: map<nat, nat>, counter: nat, share: nat -> int)
    requires Total(times) > 0
    requires forall pid :: pid in times ==> share(pid) == Scale(counter, times[pid], Total(times))
    ensures counter - |times| < SumI(times.Keys, share) <= counter
  {
    var w := (pid: nat) => Get(times, pid) as real;
    RealsOfInts(times.Keys, times);
    SplitLosesLessThanCount(times.Keys, w, share, counter, Total(times) as real);
  }

  lemma {:induction false} RealsOfInts(s: set<nat>, m: map<nat, nat>)
    ensures SumR(s, (k: nat) => Get(m, k) as real) == SumI(s, Values(m)) as real
    decreases |s|
  {
    var w, f := (k: nat) => Get(m, k) as real, Values<nat>(m);
    if s != {} {
      var k :| k in s;
      SumRTake(s, w, k);
      SumITake(s, f, k);
      RealsOfInts(s - {k}, m);
    }
  }

  lemma TotalNonneg(m: map<nat, nat>)
    ensures 0 <= Total(m) && forall k :: k in m ==> m[k] <= Total(m)
  {
    SumINonneg(m.Keys, Values(m));
    forall k | k in m ensures m[k] <= Total(m) { assert Get(m, k) == m[k]; }
  }

  /** The average frequency of a core in kHz; 1 GHz without data. */
  function FreqAt(freqs: seq<FreqTime>, core: nat): nat
  {
    ToU64(AvgFreq(freqs, core))
  }

  /** Steps 2 to 4 for every core. */
  ghost function InputOf(obs: Observations, energies: map<nat, nat>, core: nat): CoreInput
  {
    var times := TimesOf(CorePids(obs.pidCpuTimes), core);
    TotalNonneg(times);
    CoreInput(if core in energies then energies[core] else 0, FreqAt(obs.cpuFreqTimes, core),
              ObserveAll(times, Total(times), LastCounters(obs.coreCounters, core)))
  }

  function IsCore(core: nat): CoreCounters -> bool
  {
    (c: CoreCounters) => c.core == core
  }

  lemma {:induction false} LastCountersAre(counters: seq<CoreCounters>, core: nat)
    ensures LastCounters(counters, core).Some? <==> Has(counters, IsCore(core))
    ensures forall i: nat :: IsLast(counters, i, IsCore(core)) ==>
      LastCounters(counters, core) == Some(counters[i].counters)
  {
    if counters != [] {
      LastCountersAre(counters[..|counters| - 1], core);
      LastEntry(counters, IsCore(core));
    }
  }

  /** A task's part of a core's counters, in proportion to its time there. */
  ghost predicate IsPartOf(o: Observation, c: Counters, total: int)
  {
    && IsPart(o.instructions, c.instructions, o.timeNs, total)
    && IsPart(o.cycles, c.cycles, o.timeNs, total)
    && IsPart(o.cacheMisses, c.cacheMisses, o.timeNs, total)
  }

  lemma ObserveIs(time: nat, total: nat, counters: Option<Counters>)
    ensures var o := Observe(time, total, counters);
      && o.timeNs == time
      && (counters.None? ==> o.instructions == o.cycles == o.cacheMisses == 0)
      && (counters.Some? ==> IsPartOf(o, counters.value, total))
  {
    if counters.Some? && total > 0 {
      ShareIsPart(counters.value.instructions, time, total);
      ShareIsPart(counters.value.cycles, time, total);
      ShareIsPart(counters.value.cacheMisses, time, total);
    }
  }

  /** What a core's input is: its energy, its average frequency in whole kHz, and the tasks with an entry
      for it, each with the time of the last and its part of the counters last listed for the core. */
  lemma InputIs(obs: Observations, energies: map<nat, nat>, core: nat, pid: nat)
    ensures var c := InputOf(obs, energies, core);
      && c.energyUj == Get(energies, core)
      && c.freqKhz as real <= AvgFreq(obs.cpuFreqTimes, core) < c.freqKhz as real + 1.0
      && (pid in c.tasks <==> Has(obs.pidCpuTimes, IsFor(core, pid)))
      && (pid in c.tasks && !Has(obs.coreCounters, IsCore(core)) ==>
            c.tasks[pid] == Observation(c.tasks[pid].timeNs, 0, 0, 0))
    ensures var c := InputOf(obs, energies, core);
      forall i: nat :: IsLast(obs.pidCpuTimes, i, IsFor(core, pid)) ==>
        pid in c.tasks && c.tasks[pid].timeNs == obs.pidCpuTimes[i].timeNs
    ensures var c := InputOf(obs, energies, core);
      forall i: nat :: pid in c.tasks && IsLast(obs.coreCounters, i, IsCore(core)) ==>
        IsPartOf(c.tasks[pid], obs.coreCounters[i].counters, Total(TimesOf(CorePids(obs.pidCpuTimes), core)))
  {
    var times := TimesOf(CorePids(obs.pidCpuTimes), core);
    CorePidsHold(obs.pidCpuTimes, core, pid);
    LastCountersAre(obs.coreCounters, core);
    AvgFreqNonneg(obs.cpuFreqTimes, core);
    TotalNonneg(times);
    if pid in times { ObserveIs(times[pid], Total<nat>(times), LastCounters(obs.coreCounters, core)); }
  }

  method BuildInputs(obs: Observations, energies: map<nat, nat>, numCores: nat) returns (r: seq<CoreInput>)
    ensures |r| == numCores && forall core :: 0 <= core < numCores ==> r[core] == InputOf(obs, energies, core)
  {
    var corePids := BuildCorePids(obs.pidCpuTimes);
    r := [];
    for core := 0 to numCores
      invariant |r| == core && forall c :: 0 <= c < core ==> r[c] == InputOf(obs, energies, c)
    {
      var times := TimesOf(corePids, core);
      var total := SumValues(times);
      r := r + [CoreInput(if core in energies then energies[core] else 0, FreqAt(obs.cpuFreqTimes, core),
                          ObserveAll(times, total, LastCounters(obs.coreCounters, core)))];
    }
  }

  // Step 6: memory energy.

  /** What one core adds to every task's share of a counter. */
  ghost function WithShares(acc: map<nat, nat>, times: map<nat, nat>, counter: nat): map<nat, nat>
  {
    TotalNonneg(times);
    if Total(times) == 0 then acc
    else map pid | pid in acc.Keys + times.Keys ::
           (if pid in acc then acc[pid] else 0) + (if pid in times then Scale(counter, times[pid], Total(times)) else 0)
  }

  /** `aggregate_pid_counter` for cache misses. */
  ghost function PidMisses(counters: seq<CoreCounters>, corePids: map<nat, map<nat, nat>>): map<nat, nat>
  {
    if counters == [] then map[]
    else
      var c := counters[|counters| - 1];
      WithShares(PidMisses(counters[..|counters| - 1], corePids), TimesOf(corePids, c.core), c.counters.cacheMisses)
  }

  /** The counter entries from which a task gets misses: those of the busy cores it ran on. */
  ghost function Reaches(corePids: map<nat, map<nat, nat>>, pid: nat): CoreCounters -> bool
  {
    (c: CoreCounters) => Total(TimesOf(corePids, c.core)) != 0 && pid in TimesOf(corePids, c.core)
  }

  ghost function MissesFrom(corePids: map<nat, map<nat, nat>>, pid: nat): CoreCounters -> int
  {
    (c: CoreCounters) => MissPart(TimesOf(corePids, c.core), c.counters.cacheMisses, pid)
  }

  /** A task's part of one core's misses, in proportion to its time there. */
  ghost function MissPart(times: map<nat, nat>, misses: nat, pid: nat): nat
  {
    TotalNonneg(times);
    if Total(times) != 0 && pid in times then Scale(misses, times[pid], Total(times)) else 0
  }

  /** A task has misses exactly if some counter entry reaches it, and they are the sum of its parts. */
  lemma {:induction false} PidMissesAre(counters: seq<CoreCounters>, corePids: map<nat, map<nat, nat>>, pid: nat)
    ensures pid in PidMisses(counters, corePids) <==> Has(counters, Reaches(corePids, pid))
    ensures Get(PidMisses(counters, corePids), pid) == SeqSum(counters, MissesFrom(corePids, pid))
  {
    if counters != [] {
      var n := |counters| - 1;
      PidMissesAre(counters[..n], corePids, pid);
      LastEntry(counters, Reaches(corePids, pid));
      SharesOneMore(PidMisses(counters[..n], corePids), TimesOf(corePids, counters[n].core),
        counters[n].counters.cacheMisses, pid);
    }
  }

  lemma SharesOneMore(acc: map<nat, nat>, times: map<nat, nat>, counter: nat, pid: nat)
    ensures pid in WithShares(acc, times, counter) <==> pid in acc || (Total(times) != 0 && pid in times)
    ensures Get(WithShares(acc, times, counter), pid) == Get(acc, pid) + MissPart(times, counter, pid)
  {
  }

  method AddMisses(acc: map<nat, nat>, times: map<nat, nat>, counter: nat) returns (r: map<nat, nat>)
    ensures r == WithShares(acc, times, counter)
  {
    var total := SumValues(times);
    if total == 0 {
      r := acc;
    } else {
      r := map pid | pid in acc.Keys + times.Keys ::
        (if pid in acc then acc[pid] else 0) + (if pid in times then Scale(counter, times[pid], total) else 0);
    }
  }

  method AggregateMisses(counters: seq<CoreCounters>, corePids: map<nat, map<nat, nat>>) returns (r: map<nat, nat>)
    ensures r == PidMisses(counters, corePids)
  {
    r := map[];
    for i := 0 to |counters|
      invariant r == PidMisses(counters[..i], corePids)
    {
      assert counters[..i + 1][..i] == counters[..i];
      r := AddMisses(r, TimesOf(corePids, counters[i].core), counters[i].counters.cacheMisses);
    }
    assert counters[..|counters|] == counters;
  }

  /** The quantities by which DRAM energy is divided: cache misses if any were counted, else CPU energy. */
  ghost function MemoryBase(obs: Observations, cpu: map<nat, nat>): map<nat, nat>
  {
    var misses := PidMisses(obs.coreCounters, CorePids(obs.pidCpuTimes));
    if obs.coreCounters != [] && Total(misses) > 0 then misses else cpu
  }

  /** Both branches of `attribute_memory`: nothing to give or nothing to divide by gives nobody
      anything; otherwise every task gets its truncated share of the base. */
  ghost predicate IsMemorySplit(r: map<nat, nat>, dram: nat, base: map<nat, nat>)
  {
    if dram == 0 || Total(base) == 0 then r == map[]
    else
      r.Keys == base.Keys &&
      forall pid :: pid in base ==> Total(base) > 0 && r[pid] == Share(dram, base[pid] as real, Total(base) as real)
  }

  /** DRAM energy goes by cache misses if there were any, else by CPU energy, else to nobody. */
  ghost predicate MemoryGoesBy(r: map<nat, nat>, dram: nat, misses: map<nat, nat>, cpu: map<nat, nat>)
  {
    if dram == 0 then r == map[]
    else if Total(misses) > 0 then IsSplit(r, dram, misses)
    else if Total(cpu) > 0 then IsSplit(r, dram, cpu)
    else r == map[]
  }

  ghost predicate IsSplit(r: map<nat, nat>, dram: nat, base: map<nat, nat>)
  {
    r.Keys == base.Keys && forall pid :: pid in base ==> IsPart(r[pid], dram, base[pid], Total(base))
  }

  lemma SplitIs(r: map<nat, nat>, dram: nat, base: map<nat, nat>)
    requires IsMemorySplit(r, dram, base) && dram > 0 && Total(base) > 0
    ensures IsSplit(r, dram, base)
  {
    forall pid | pid in base ensures IsPart(r[pid], dram, base[pid], Total(base)) {
      ShareIsPart(dram, base[pid], Total<nat>(base));
    }
  }

  lemma MemorySplitIs(r: map<nat, nat>, dram: nat, obs: Observations, cpu: map<nat, nat>)
    requires IsMemorySplit(r, dram, MemoryBase(obs, cpu))
    ensures MemoryGoesBy(r, dram, PidMisses(obs.coreCounters, CorePids(obs.pidCpuTimes)), cpu)
  {
    TotalNonneg(MemoryBase(obs, cpu));
    TotalNonneg(PidMisses(obs.coreCounters, CorePids(obs.pidCpuTimes)));
    if dram > 0 && Total(MemoryBase(obs, cpu)) > 0 { SplitIs(r, dram, MemoryBase(obs, cpu)); }
  }

  method SplitBy(dram: nat, base: map<nat, nat>, total: nat) returns (r: map<nat, nat>)
    requires total == Total(base) && total > 0 && dram > 0
    ensures IsMemorySplit(r, dram, base)
  {
    r := map pid | pid in base :: Share(dram, base[pid] as real, total as real);
  }

  method AttributeMemory(obs: Observations, dram: nat, cpu: map<nat, nat>) returns (r: map<nat, nat>)
    ensures IsMemorySplit(r, dram, MemoryBase(obs, cpu))
  {
    if dram == 0 {
      return map[];
    }
    var corePids := BuildCorePids(obs.pidCpuTimes);
    var misses := AggregateMisses(obs.coreCounters, corePids);
    var totalMisses := SumValues(misses);
    if obs.coreCounters != [] && totalMisses > 0 {
      r := SplitBy(dram, misses, totalMisses);
      return;
    }
    var totalCpu := SumValues(cpu);
    if totalCpu == 0 {
      return map[];
    }
    r := SplitBy(dram, cpu, totalCpu);
  }

  /** DRAM energy is never over-attributed, and when a branch fires it falls short by less than one
      microjoule per task. */
  lemma MemoryIsConserved(r: map<nat, nat>, dram: nat, base: map<nat, nat>)
    requires IsMemorySplit(r, dram, base)
    ensures 0 <= Total(r) <= dram
    ensures r != map[] ==> dram - |r| < Total(r)
  {
    TotalNonneg(base);
    if r == map[] {
    } else {
      var w := (pid: nat) => Get(base, pid) as real;
      RealsOfInts(base.Keys, base);
      SplitLosesLessThanCount(base.Keys, w, Values(r), dram, Total(base) as real);
      TotalNonneg(r);
    }
  }

  // Steps 7 to 9: the snapshot.

  datatype ProcessPower = ProcessPower(cpuUw: nat, memoryUw: nat, coreDetail: seq<CoreAttribution>)

  datatype Snapshot = Snapshot(
    processes: map<nat, ProcessPower>, measuredCpuUw: nat, measuredMemoryUw: nat, measuredGpuUw: nat,
    attributedTotalUw: nat, idleCpuUw: nat, platformUw: Option<nat>, componentSumUw: nat,
    unaccountedUj: int, errorRatio: real, model: Model)

  function CpuPower(processes: map<nat, ProcessPower>): nat -> int
  {
    (pid: nat) => if pid in processes then processes[pid].cpuUw else 0
  }

  function MemoryPower(processes: map<nat, ProcessPower>): nat -> int
  {
    (pid: nat) => if pid in processes then processes[pid].memoryUw else 0
  }

  /** The energy of the first n cores, as the map of core energies has it. */
  lemma EnergyOneMore(energies: map<nat, nat>, n: nat, next: nat)
    requires next == n + 1
    ensures CoreSum(energies, 0, next) == CoreSum(energies, 0, n) + Get(energies, n)
  {
    MoreCores(0, n);
    SumIAdd<nat>(Cores(0, n), Values<nat>(energies), n);
  }

  lemma NoCores(energies: map<nat, nat>)
    ensures CoreSum(energies, 0, 0) == 0
  {
    assert Cores(0, 0) == {};
  }

  lemma {:induction false} ListedEnergy(energies: map<nat, nat>, inputs: seq<CoreInput>, m: Model)
    requires forall core :: 0 <= core < |inputs| ==> 0 <= CoreEnergyCharged(m, inputs[core]) <= Get(energies, core)
    ensures 0 <= EnergyCharged(m, inputs) <= CoreSum(energies, 0, |inputs|)
  {
    if inputs == [] {
      NoCores(energies);
    } else {
      var n := |inputs| - 1;
      ListedEnergy(energies, inputs[..n], m);
      EnergyOneMore(energies, n, |inputs|);
    }
  }

  lemma CoreGivesAtMostItsEnergy(obs: Observations, energies: map<nat, nat>, core: nat, c: CoreInput, m: Model)
    requires Sensible(m) && c == InputOf(obs, energies, core)
    ensures 0 <= CoreEnergyCharged(m, c) <= Get(energies, core)
  {
    ChargedCoreIsConserved(m, c);
  }

  lemma SomeWithinTotal(keys: set<nat>, m: map<nat, nat>)
    ensures SumI(keys, Values(m)) <= Total(m)
  {
    var f := Values(m);
    assert keys == keys * m.Keys + (keys - m.Keys);
    assert m.Keys == keys * m.Keys + (m.Keys - keys);
    SumIUnion<nat>(keys * m.Keys, keys - m.Keys, f);
    SumIUnion<nat>(keys * m.Keys, m.Keys - keys, f);
    SumIZero<nat>(keys - m.Keys, f);
    SumINonneg<nat>(m.Keys - keys, f);
  }

  /** No task energy exceeds the total, so `saturating_sub` subtracts exactly: attributed plus idle
      energy is the total core energy. */
  lemma ChargesFitTheTotal(obs: Observations, energies: map<nat, nat>, inputs: seq<CoreInput>, m: Model)
    requires Sensible(m)
    requires forall core :: 0 <= core < |inputs| ==> inputs[core] == InputOf(obs, energies, core)
    ensures 0 <= EnergyCharged(m, inputs) <= Total(energies)
  {
    forall core | 0 <= core < |inputs| ensures 0 <= CoreEnergyCharged(m, inputs[core]) <= Get(energies, core) {
      CoreGivesAtMostItsEnergy(obs, energies, core, inputs[core], m);
    }
    ListedEnergy(energies, inputs, m);
    SomeWithinTotal(Cores(0, |inputs|), energies);
  }

  /** Step 7: the processes are the tasks that were charged on some core. */
  function BuildProcesses(cpu: map<nat, nat>, memory: map<nat, nat>, detail: map<nat, seq<CoreAttribution>>,
                          intervalNs: nat): map<nat, ProcessPower>
  {
    map pid | pid in cpu ::
      ProcessPower(EnergyToPower(cpu[pid], intervalNs),
        EnergyToPower(if pid in memory then memory[pid] else 0, intervalNs), Details(detail, pid))
  }

  /** The power of all processes and the idle power add up to the measured CPU power, short by at
      most one microwatt per process. */
  lemma CpuPowerIsConserved(cpu: map<nat, nat>, processes: map<nat, ProcessPower>, idle: nat, total: nat,
                            intervalNs: nat)
    requires processes.Keys == cpu.Keys && total == Total(cpu) + idle
    requires forall pid :: pid in cpu ==> processes[pid].cpuUw == EnergyToPower(cpu[pid], intervalNs)
    ensures var parts := SumI(processes.Keys, CpuPower(processes)) + EnergyToPower(idle, intervalNs);
            parts <= EnergyToPower(total, intervalNs) <= parts + |processes|
  {
    PowerOfParts<nat>(cpu.Keys, Values(cpu), CpuPower(processes), idle, intervalNs);
    assert SumI(cpu.Keys, Values(cpu)) + idle == total;
  }

  /** The memory power of all processes is at most the measured memory power. */
  lemma MemoryPowerFits(memory: map<nat, nat>, processes: map<nat, ProcessPower>, dram: nat, intervalNs: nat)
    requires Total(memory) <= dram
    requires forall pid :: pid in processes ==>
      processes[pid].memoryUw == EnergyToPower(if pid in memory then memory[pid] else 0, intervalNs)
    ensures SumI(processes.Keys, MemoryPower(processes)) <= EnergyToPower(dram, intervalNs)
  {
    PowerOfParts<nat>(processes.Keys, Values(memory), MemoryPower(processes), 0, intervalNs);
    SomeWithinTotal(processes.Keys, memory);
    var given := SumI(processes.Keys, Values(memory));
    EnergyToPowerAdds(given, dram - given, intervalNs);
  }

  /** Each process lists exactly the cores it was charged on, and its power is that of their energy. */
  ghost predicate ProcessMatches(snap: Snapshot, intervalNs: nat, inputs: seq<CoreInput>, pid: nat)
  {
    var d := DetailOf(snap.model, inputs, pid);
    && (pid in snap.processes <==> d != [])
    && (pid in snap.processes ==>
          && snap.processes[pid].coreDetail == d
          && snap.processes[pid].cpuUw == EnergyToPower(SumDetail(d), intervalNs))
  }

  /** Idle power is that of exactly the energy that was not charged, and nothing is left over. */
  ghost predicate IdleMatches(snap: Snapshot, intervalNs: nat, energies: map<nat, nat>, inputs: seq<CoreInput>)
  {
    && Total(energies) >= EnergyCharged(snap.model, inputs) >= 0
    && snap.idleCpuUw == EnergyToPower(Total(energies) - EnergyCharged(snap.model, inputs), intervalNs)
    && snap.attributedTotalUw == snap.measuredCpuUw == EnergyToPower(Total(energies), intervalNs)
  }

  /** Process and idle power stay within one microwatt per process of the measured power. */
  ghost predicate PowerIsConserved(snap: Snapshot)
  {
    && (var parts := SumI(snap.processes.Keys, CpuPower(snap.processes)) + snap.idleCpuUw;
        parts <= snap.measuredCpuUw <= parts + |snap.processes|)
    && SumI(snap.processes.Keys, MemoryPower(snap.processes)) <= snap.measuredMemoryUw
  }

  /** Memory power is that of the task's share of the DRAM energy. */
  ghost predicate MemoryMatches(snap: Snapshot, intervalNs: nat, memory: map<nat, nat>)
  {
    forall pid :: pid in snap.processes ==>
      snap.processes[pid].memoryUw == EnergyToPower(if pid in memory then memory[pid] else 0, intervalNs)
  }

  /** The node's measured power, and how it compares with the platform's. */
  ghost predicate NodeMatches(snap: Snapshot, energy: EnergyInput, totalCore: int)
  {
    var dram, gpu := SumSeq(energy.dramEnergyUj), SumSeq(energy.gpuEnergyUj);
    && totalCore >= 0
    && snap.measuredMemoryUw == EnergyToPower(dram, energy.intervalNs)
    && snap.measuredGpuUw == EnergyToPower(gpu, energy.intervalNs)
    && snap.componentSumUw == EnergyToPower(totalCore + dram + gpu, energy.intervalNs)
    && (match energy.platformEnergyUj
        case None => snap.platformUw == None && snap.unaccountedUj == 0
        case Some(p) =>
          && snap.platformUw == Some(EnergyToPower(p, energy.intervalNs))
          && snap.unaccountedUj == p - (totalCore + dram + gpu))
    && snap.errorRatio >= 0.0 && ErrorIs(snap.errorRatio, energy.platformEnergyUj, totalCore + dram + gpu)
  }

  /** The error is the gap between the platform's energy and the components', relative to the platform's. */
  ghost predicate ErrorIs(errorRatio: real, platformUj: Option<nat>, components: int)
  {
    match platformUj
    case None => errorRatio == 0.0
    case Some(p) =>
      if p == 0 then errorRatio == 0.0
      else errorRatio * p as real == (if p >= components then p - components else components - p) as real
  }

  /** Every power of the snapshot is that of the energy it stands for. */
  ghost predicate PowersMatch(snap: Snapshot, energy: EnergyInput, inputs: seq<CoreInput>, energies: map<nat, nat>,
                              cpu: map<nat, nat>, memory: map<nat, nat>)
  {
    && (forall pid: nat :: ProcessMatches(snap, energy.intervalNs, inputs, pid))
    && snap.processes.Keys == cpu.Keys && (forall pid :: pid in cpu ==>
      cpu[pid] == SumDetail(snap.processes[pid].coreDetail))
    && MemoryMatches(snap, energy.intervalNs, memory)
    && IdleMatches(snap, energy.intervalNs, energies, inputs)
    && NodeMatches(snap, energy, Total(energies))
  }

  /** The powers of the node that a snapshot holds. */
  datatype Quantity = MeasuredCpu | Attributed | Idle | MeasuredMemory | MeasuredGpu | Components

  function PowerIn(snap: Snapshot, q: Quantity): nat
  {
    match q
    case MeasuredCpu => snap.measuredCpuUw
    case Attributed => snap.attributedTotalUw
    case Idle => snap.idleCpuUw
    case MeasuredMemory => snap.measuredMemoryUw
    case MeasuredGpu => snap.measuredGpuUw
    case Components => snap.componentSumUw
  }

  /** The energies they stand for. What is attributed, idle energy included, is all that was measured. */
  ghost function EnergyIn(q: Quantity, energy: EnergyInput, totalCore: int, charged: int): int
  {
    match q
    case MeasuredCpu => totalCore
    case Attributed => totalCore
    case Idle => totalCore - charged
    case MeasuredMemory => SumSeq(energy.dramEnergyUj)
    case MeasuredGpu => SumSeq(energy.gpuEnergyUj)
    case Components => totalCore + SumSeq(energy.dramEnergyUj) + SumSeq(energy.gpuEnergyUj)
  }

  ghost predicate PowersAreRight(snap: Snapshot, energy: EnergyInput, totalCore: int, charged: int)
  {
    forall q: Quantity :: IsPower(PowerIn(snap, q), EnergyIn(q, energy, totalCore, charged), energy.intervalNs)
  }

  /** A task is in the snapshot exactly if some core charged it; it lists these cores, and its powers are
      those of what they charged and of its part of the DRAM energy. */
  ghost predicate TaskIsRight(snap: Snapshot, intervalNs: nat, inputs: seq<CoreInput>, cpu: map<nat, nat>,
                              memory: map<nat, nat>, pid: nat)
  {
    var d := DetailOf(snap.model, inputs, pid);
    && (pid in snap.processes <==> d != []) && (pid in cpu <==> d != [])
    && (pid in snap.processes ==>
          && snap.processes[pid].coreDetail == d && Get(cpu, pid) == SumDetail(d)
          && IsPower(snap.processes[pid].cpuUw, SumDetail(d), intervalNs)
          && IsPower(snap.processes[pid].memoryUw, Get(memory, pid), intervalNs))
  }

  /** The platform's power, and by how much its energy differs from the components'. */
  ghost predicate PlatformIsRight(snap: Snapshot, energy: EnergyInput, components: int)
  {
    && (match energy.platformEnergyUj
        case None => snap.platformUw == None && snap.unaccountedUj == 0
        case Some(p) =>
          && snap.platformUw.Some? && IsPower(snap.platformUw.value, p, energy.intervalNs)
          && snap.unaccountedUj == p - components)
    && snap.errorRatio >= 0.0 && ErrorIs(snap.errorRatio, energy.platformEnergyUj, components)
  }

  /** What is promised of a snapshot: the tasks, the powers of the node, the platform; where DRAM energy goes;
      and that processes and idle power keep within the measured power. */
  ghost predicate IsRight(snap: Snapshot, obs: Observations, energy: EnergyInput, inputs: seq<CoreInput>,
                          energies: map<nat, nat>, cpu: map<nat, nat>, memory: map<nat, nat>)
  {
    var dram, gpu, total := SumSeq(energy.dramEnergyUj), SumSeq(energy.gpuEnergyUj), Total(energies);
    && (forall pid: nat :: TaskIsRight(snap, energy.intervalNs, inputs, cpu, memory, pid))
    && 0 <= EnergyCharged(snap.model, inputs) <= total
    && PowersAreRight(snap, energy, total, EnergyCharged(snap.model, inputs))
    && PlatformIsRight(snap, energy, total + dram + gpu)
    && MemoryGoesBy(memory, dram, PidMisses(obs.coreCounters, CorePids(obs.pidCpuTimes)), cpu)
    && PowerIsConserved(snap)
  }

  lemma TasksAreRight(snap: Snapshot, energy: EnergyInput, inputs: seq<CoreInput>, energies: map<nat, nat>,
                      cpu: map<nat, nat>, memory: map<nat, nat>, pid: nat)
    requires PowersMatch(snap, energy, inputs, energies, cpu, memory)
    ensures TaskIsRight(snap, energy.intervalNs, inputs, cpu, memory, pid)
  {
    assert ProcessMatches(snap, energy.intervalNs, inputs, pid);
    if pid in snap.processes {
      EnergyToPowerIs(SumDetail(snap.processes[pid].coreDetail), energy.intervalNs);
      EnergyToPowerIs(Get(memory, pid), energy.intervalNs);
    }
  }

  lemma NodePowersAreRight(snap: Snapshot, energy: EnergyInput, inputs: seq<CoreInput>, energies: map<nat, nat>)
    requires IdleMatches(snap, energy.intervalNs, energies, inputs) && NodeMatches(snap, energy, Total(energies))
    ensures PowersAreRight(snap, energy, Total(energies), EnergyCharged(snap.model, inputs))
  {
    forall q: Quantity
      ensures IsPower(PowerIn(snap, q), EnergyIn(q, energy, Total(energies), EnergyCharged(snap.model, inputs)),
                      energy.intervalNs)
    {
      EnergyToPowerIs(EnergyIn(q, energy, Total(energies), EnergyCharged(snap.model, inputs)), energy.intervalNs);
    }
  }

  lemma MatchIsRight(snap: Snapshot, obs: Observations, energy: EnergyInput, inputs: seq<CoreInput>,
                     energies: map<nat, nat>, cpu: map<nat, nat>, memory: map<nat, nat>)
    requires PowersMatch(snap, energy, inputs, energies, cpu, memory) && PowerIsConserved(snap)
    requires IsMemorySplit(memory, SumSeq(energy.dramEnergyUj), MemoryBase(obs, cpu))
    ensures IsRight(snap, obs, energy, inputs, energies, cpu, memory)
  {
    forall pid: nat ensures TaskIsRight(snap, energy.intervalNs, inputs, cpu, memory, pid) {
      TasksAreRight(snap, energy, inputs, energies, cpu, memory, pid);
    }
    NodePowersAreRight(snap, energy, inputs, energies);
    PlatformIs(snap, energy, Total(energies));
    MemorySplitIs(memory, SumSeq(energy.dramEnergyUj), obs, cpu);
  }

  lemma PlatformIs(snap: Snapshot, energy: EnergyInput, totalCore: int)
    requires NodeMatches(snap, energy, totalCore)
    ensures PlatformIsRight(snap, energy, totalCore + SumSeq(energy.dramEnergyUj) + SumSeq(energy.gpuEnergyUj))
  {
    if energy.platformEnergyUj.Some? { EnergyToPowerIs(energy.platformEnergyUj.value, energy.intervalNs); }
  }

  class AttributionEngine {
    var model: Model
    const numCores: nat
    const coresPerSocket: nat

    /** There is a core for every socket exactly if there are cores, and no fewer than sockets. */
    constructor (numCores: nat, numSockets: nat)
      ensures model == CpuTimeRatio && this.numCores == numCores
      ensures coresPerSocket == if numSockets > 0 then numCores / numSockets else numCores
      ensures coresPerSocket > 0 <==> 0 < numCores && numSockets <= numCores
    {
      if 0 < numSockets <= numCores { AtLeastOne(numCores, numSockets); }
      this.model := SelectModel(false, false);
      this.numCores := numCores;
      this.coresPerSocket := if numSockets > 0 then numCores / numSockets else numCores;
    }

    /** `attribute`. With a socket to split and no core for it, the even split divides by zero. */
    method Attribute(obs: Observations, energy: EnergyInput)
      returns (snap: Snapshot, ghost energies: map<nat, nat>, ghost inputs: seq<CoreInput>,
               ghost cpuEnergy: map<nat, nat>, ghost memoryEnergy: map<nat, nat>)
      requires coresPerSocket > 0 || energy.socketEnergyUj == []
      modifies this`model
      ensures model == SelectModel(obs.cpuFreqTimes != [], obs.coreCounters != []) && snap.model == model
      ensures forall s :: 0 <= s < |energy.socketEnergyUj| ==>
        SocketOk(energies, CoreWeights(obs.pidCpuTimes, obs.cpuFreqTimes), energy.socketEnergyUj[s],
                 FirstCore(s, coresPerSocket), coresPerSocket)
      ensures forall c :: c in energies <==> 0 <= c < FirstCore(|energy.socketEnergyUj|, coresPerSocket)
      ensures Conserved(Total(energies), energy.socketEnergyUj, coresPerSocket)
      ensures |inputs| == numCores && forall core :: 0 <= core < numCores ==>
        inputs[core] == InputOf(obs, energies, core)
      ensures IsRight(snap, obs, energy, inputs, energies, cpuEnergy, memoryEnergy)
    {
      model := SelectModel(obs.cpuFreqTimes != [], obs.coreCounters != []);
      var coreEnergies := SplitSocketToCores(obs.pidCpuTimes, obs.cpuFreqTimes, energy.socketEnergyUj, coresPerSocket);
      energies := coreEnergies;
      snap, inputs, cpuEnergy, memoryEnergy := AttributeCores(model, obs, energy, coreEnergies, numCores);
    }
  }

  /** Steps 2 to 9: from the energy of each core to the snapshot. */
  method AttributeCores(m: Model, obs: Observations, energy: EnergyInput, energies: map<nat, nat>, numCores: nat)
    returns (snap: Snapshot, ghost inputs: seq<CoreInput>, ghost cpuEnergy: map<nat, nat>,
             ghost memoryEnergy: map<nat, nat>)
    requires Sensible(m)
    ensures |inputs| == numCores && forall core :: 0 <= core < numCores ==>
      inputs[core] == InputOf(obs, energies, core)
    ensures snap.model == m && IsRight(snap, obs, energy, inputs, energies, cpuEnergy, memoryEnergy)
  {
    var coreInputs := BuildInputs(obs, energies, numCores);
    inputs := coreInputs;
    snap, cpuEnergy, memoryEnergy := ChargeTasks(m, obs, energy, energies, coreInputs);
  }

  /** Steps 5 to 9: from the energy and the tasks of each core to the snapshot. */
  method ChargeTasks(m: Model, obs: Observations, energy: EnergyInput, energies: map<nat, nat>, inputs: seq<CoreInput>)
    returns (snap: Snapshot, ghost cpuEnergy: map<nat, nat>, ghost memoryEnergy: map<nat, nat>)
    requires Sensible(m) && forall core :: 0 <= core < |inputs| ==> inputs[core] == InputOf(obs, energies, core)
    ensures snap.model == m && IsRight(snap, obs, energy, inputs, energies, cpuEnergy, memoryEnergy)
  {
    var cpu, detail := ChargeCores(m, inputs);
    var dram := SumSeq(energy.dramEnergyUj);
    var memory := AttributeMemory(obs, dram, cpu);
    ChargesFitTheTotal(obs, energies, inputs, m);
    MemoryIsConserved(memory, dram, MemoryBase(obs, cpu));
    cpuEnergy, memoryEnergy := cpu, memory;
    snap := Finish(m, inputs, energies, cpu, detail, memory, energy);
    MatchIsRight(snap, obs, energy, inputs, energies, cpu, memory);
  }

  lemma AtLeastOne(a: nat, b: nat)
    requires 0 < b <= a
    ensures a / b > 0
  {
  }

  /** Steps 7 to 9: processes, idle power and reconciliation. */
  method Finish(m: Model, ghost inputs: seq<CoreInput>, energies: map<nat, nat>, cpu: map<nat, nat>,
                detail: map<nat, seq<CoreAttribution>>, memory: map<nat, nat>, energy: EnergyInput)
    returns (snap: Snapshot)
    requires 0 <= Total(cpu) == EnergyCharged(m, inputs) <= Total(energies)
    requires Total(memory) <= SumSeq(energy.dramEnergyUj)
    requires forall pid: nat :: TaskOk(m, inputs, cpu, detail, pid)
    ensures snap.model == m
    ensures PowersMatch(snap, energy, inputs, energies, cpu, memory)
    ensures PowerIsConserved(snap)
  {
    var intervalNs := energy.intervalNs;
    var processes := BuildProcesses(cpu, memory, detail, intervalNs);
    var attributed := SumValues(cpu);
    var totalCore := SumValues(energies);
    var idle := if totalCore >= attributed then totalCore - attributed else 0;
    var dram := SumSeq(energy.dramEnergyUj);
    snap := MakeSnapshot(processes, energy, totalCore, attributed, idle, m);
    FinishIdle(snap, inputs, energies, attributed, totalCore, idle, intervalNs);
    FinishConserves(snap, cpu, detail, memory, totalCore, idle, dram, intervalNs);
    FinishMatches(snap, inputs, cpu, detail, memory, intervalNs);
    FinishEnergies(snap, inputs, cpu, detail, memory, intervalNs);
  }

  lemma FinishEnergies(snap: Snapshot, inputs: seq<CoreInput>, cpu: map<nat, nat>,
                       detail: map<nat, seq<CoreAttribution>>, memory: map<nat, nat>, intervalNs: nat)
    requires snap.processes == BuildProcesses(cpu, memory, detail, intervalNs)
    requires forall pid: nat :: TaskOk(snap.model, inputs, cpu, detail, pid)
    ensures snap.processes.Keys == cpu.Keys && forall pid :: pid in cpu ==>
      cpu[pid] == SumDetail(snap.processes[pid].coreDetail)
    ensures MemoryMatches(snap, intervalNs, memory)
  {
    forall pid | pid in cpu ensures cpu[pid] == SumDetail(snap.processes[pid].coreDetail) {
      assert TaskOk(snap.model, inputs, cpu, detail, pid);
    }
  }

  /** Step 9: reconciliation, and the snapshot. */
  method MakeSnapshot(processes: map<nat, ProcessPower>, energy: EnergyInput, totalCore: nat, attributed: nat,
                      idle: nat, m: Model)
    returns (snap: Snapshot)
    ensures snap.processes == processes && snap.model == m && NodeMatches(snap, energy, totalCore)
    ensures snap.measuredCpuUw == EnergyToPower(totalCore, energy.intervalNs)
    ensures snap.attributedTotalUw == EnergyToPower(attributed + idle, energy.intervalNs)
    ensures snap.idleCpuUw == EnergyToPower(idle, energy.intervalNs)
  {
    var intervalNs, dram, gpu := energy.intervalNs, SumSeq(energy.dramEnergyUj), SumSeq(energy.gpuEnergyUj);
    var components := totalCore + dram + gpu;
    var platform, unaccounted, errorRatio := Reconcile(energy.platformEnergyUj, components, intervalNs);
    snap := Snapshot(processes, EnergyToPower(totalCore, intervalNs), EnergyToPower(dram, intervalNs),
                     EnergyToPower(gpu, intervalNs), EnergyToPower(attributed + idle, intervalNs),
                     EnergyToPower(idle, intervalNs), platform, EnergyToPower(components, intervalNs),
                     unaccounted, errorRatio, m);
  }

  lemma FinishIdle(snap: Snapshot, inputs: seq<CoreInput>, energies: map<nat, nat>, attributed: nat, totalCore: nat,
                   idle: nat, intervalNs: nat)
    requires attributed == EnergyCharged(snap.model, inputs) && totalCore == Total(energies) &&
      idle == totalCore - attributed
    requires snap.measuredCpuUw == EnergyToPower(totalCore, intervalNs)
    requires snap.attributedTotalUw == EnergyToPower(attributed + idle, intervalNs)
    requires snap.idleCpuUw == EnergyToPower(idle, intervalNs)
    ensures IdleMatches(snap, intervalNs, energies, inputs)
  {
    assert attributed + idle == totalCore;
  }

  lemma FinishMatches(snap: Snapshot, inputs: seq<CoreInput>, cpu: map<nat, nat>,
                      detail: map<nat, seq<CoreAttribution>>, memory: map<nat, nat>, intervalNs: nat)
    requires snap.processes == BuildProcesses(cpu, memory, detail, intervalNs)
    requires forall pid: nat :: TaskOk(snap.model, inputs, cpu, detail, pid)
    ensures forall pid: nat :: ProcessMatches(snap, intervalNs, inputs, pid)
  {
    forall pid: nat ensures ProcessMatches(snap, intervalNs, inputs, pid) {
      assert TaskOk(snap.model, inputs, cpu, detail, pid);
    }
  }

  lemma FinishConserves(snap: Snapshot, cpu: map<nat, nat>, detail: map<nat, seq<CoreAttribution>>,
                        memory: map<nat, nat>,
                        totalCore: nat, idle: nat, dram: nat, intervalNs: nat)
    requires snap.processes == BuildProcesses(cpu, memory, detail, intervalNs)
    requires Total(memory) <= dram && snap.measuredMemoryUw == EnergyToPower(dram, intervalNs) && Total(cpu) >= 0
    requires totalCore == Total(cpu) + idle
    requires snap.measuredCpuUw == EnergyToPower(totalCore, intervalNs) &&
      snap.idleCpuUw == EnergyToPower(idle, intervalNs)
    ensures PowerIsConserved(snap)
  {
    assert snap.processes.Keys == cpu.Keys;
    CpuPowerIsConserved(cpu, snap.processes, idle, totalCore, intervalNs);
    MemoryPowerFits(memory, snap.processes, dram, intervalNs);
  }

  /** Step 9. The source reports the unaccounted energy under a name that says power. */
  method Reconcile(platformUj: Option<nat>, components: nat, intervalNs: nat)
    returns (platformUw: Option<nat>, unaccountedUj: int, errorRatio: real)
    ensures platformUw.Some? <==> platformUj.Some?
    ensures platformUj.Some? ==>
      && platformUw.value == EnergyToPower(platformUj.value, intervalNs)
      && unaccountedUj == platformUj.value - components
    ensures platformUj.None? ==> unaccountedUj == 0
    ensures errorRatio >= 0.0
    ensures errorRatio == 0.0 <==> platformUj.None? || platformUj.value == 0 || unaccountedUj == 0
    ensures ErrorIs(errorRatio, platformUj, components)
  {
    if platformUj.None? {
      return None, 0, 0.0;
    }
    var platform := platformUj.value;
    platformUw, unaccountedUj, errorRatio := Some(EnergyToPower(platform, intervalNs)), platform - components, 0.0;
    if platform > 0 {
      var gap := if unaccountedUj >= 0 then unaccountedUj else -unaccountedUj;
      errorRatio := gap as real / platform as real;
      RatioBounds(gap as real, platform as real);
      assert errorRatio * platform as real == gap as real;
    }
  }
}
