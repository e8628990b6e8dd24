/** What the eBPF-weighted path gives a core, a task and a pod, in proportions rather than formulas. */
module EbpfShares {
  import opened Options
  import opened Sums
  import opened Shares
  import opened Ratios
  import opened SeqSums
  import opened KernelData
  import opened Models
  import opened EbpfPods
  import opened EbpfReports

  /** x is the quotient of a and b; nothing if there is no b. */
  ghost predicate IsQuotient(x: real, a: real, b: real)
  {
    if b > 0.0 then x * b == a else x == 0.0
  }

  lemma RatioIs(x: real, a: real, b: real)
    requires IsQuotient(x, a, b)
    ensures RatioOf(a, b) == x
  {
    if b > 0.0 { QuotientOf(a, b, x); }
  }

  /** A core's power is to the node's as its weight is to all weights. */
  lemma CorePowerIs(input: Input, cpu: nat)
    ensures var all := TotalR(CoreWeights(input));
      if all > 0.0 then CorePower(input, cpu) * all == input.cpuUw as real * GetR(CoreWeights(input), cpu)
      else CorePower(input, cpu) == 0.0
  {
    var all := TotalR(CoreWeights(input));
    if all > 0.0 && cpu in CoreWeights(input) {
      ScaledBack(input.cpuUw as real, CoreWeights(input)[cpu], all, CorePower(input, cpu));
    }
  }

  /** Without per-task counters a task weighs its time; with them, its time times one plus alpha times its
      instructions per cycle plus beta times its misses per instruction. */
  lemma TaskWeightIs(input: Input, e: Entry, ipc: real, misses: real)
    requires var k := Key(e.cpu, e.pid);
      if k in input.hw then
        var c := input.hw[k];
        && IsQuotient(ipc, c.instructions as real, c.cycles as real)
        && IsQuotient(misses, c.cacheMisses as real, c.instructions as real)
      else ipc == 0.0 && misses == 0.0
    ensures TaskWeight(input, e) ==
      if input.hw == map[] then e.timeNs as real
      else e.timeNs as real * (1.0 + input.alpha * ipc + input.beta * misses)
  {
    if input.hw != map[] {
      var c := CountersOf(input.hw, e.cpu, e.pid);
      var o := Observation(e.timeNs, c.instructions, c.cycles, c.cacheMisses);
      WorkloadFactorIs(input.alpha, input.beta, o, ipc, misses);
    }
  }

  function WeightIn(w: Weighted): real { w.weight }

  function WeightFor(pods: map<nat, string>, uid: string): Weighted -> real
  {
    (w: Weighted) => if w.pid in pods && pods[w.pid] == uid then w.weight else 0.0
  }

  lemma {:induction false} WeightSumIs(ws: seq<Weighted>)
    ensures WeightSum(ws) == SeqSumR(ws, WeightIn)
  {
    if ws != [] { WeightSumIs(ws[..|ws| - 1]); }
  }

  lemma {:induction false} ChargedIs(ws: seq<Weighted>, pods: map<nat, string>, power: real, sum: real, uid: string)
    requires sum > 0.0
    ensures Times(Charged(ws, pods, power, sum, uid), sum) == Times(power, SeqSumR(ws, WeightFor(pods, uid)))
  {
    if ws == [] {
      assert Times(0.0, sum) == 0.0 && Times(power, 0.0) == 0.0;
    } else {
      var rest, w := ws[..|ws| - 1], ws[|ws| - 1];
      ChargedIs(rest, pods, power, sum, uid);
      OneMoreCharge(Charged(rest, pods, power, sum, uid), SeqSumR(rest, WeightFor(pods, uid)), power, w.weight, sum);
    }
  }

  lemma OneMoreCharge(x: real, y: real, power: real, w: real, sum: real)
    requires sum > 0.0 && Times(x, sum) == Times(power, y)
    ensures Times(x + Part(power, w, sum), sum) == Times(power, y + w)
  {
    ScaledBack(power, w, sum, Part(power, w, sum));
    assert (x + Part(power, w, sum)) * sum == x * sum + Part(power, w, sum) * sum;
    assert power * (y + w) == power * y + power * w;
  }

  /** A pod's part of a core's power is to that power as the weight of the pod's tasks is to that of all tasks. */
  lemma CoreShareIs(ws: seq<Weighted>, pods: map<nat, string>, power: real, uid: string)
    ensures var all := SeqSumR(ws, WeightIn);
      if power > 0.0 && all > 0.0 then
        Times(CoreShare(ws, pods, power, uid), all) == Times(power, SeqSumR(ws, WeightFor(pods, uid)))
      else CoreShare(ws, pods, power, uid) == 0.0
  {
    WeightSumIs(ws);
    if power > 0.0 && WeightSum(ws) > 0.0 { ChargedIs(ws, pods, power, WeightSum(ws), uid); }
  }

  // Which pod a task is in, and which tasks a core ran.

  predicate Names(e: Entry, pid: nat)
  {
    e.pid == pid && e.cgroup.Some?
  }

  ghost predicate IsFirst(times: seq<Entry>, pid: nat, i: nat)
  {
    i < |times| && Names(times[i], pid) && forall j :: 0 <= j < i ==> !Names(times[j], pid)
  }

  /** A task's pod is the one named by its first entry that names one. */
  lemma {:induction false} PidPodsAre(times: seq<Entry>, pid: nat)
    ensures pid in PidPods(times) <==> exists i :: 0 <= i < |times| && Names(times[i], pid)
    ensures forall i: nat :: IsFirst(times, pid, i) ==>
      pid in PidPods(times) && times[i].cgroup == Some(PidPods(times)[pid])
  {
    if times != [] {
      var n := |times| - 1;
      PidPodsAre(times[..n], pid);
      if i :| 0 <= i < n && Names(times[..n][i], pid) { assert Names(times[i], pid); }
      if i :| 0 <= i < |times| && Names(times[i], pid) { assert i == n || Names(times[..n][i], pid); }
      forall i: nat | IsFirst(times, pid, i)
        ensures pid in PidPods(times) && times[i].cgroup == Some(PidPods(times)[pid])
      {
        if i < n { assert IsFirst(times[..n], pid, i); }
      }
    }
  }

  /** The tasks of a core are its entries, each as often as it is there. */
  lemma {:induction false} TasksOnAre(times: seq<Entry>, cpu: nat, e: Entry)
    ensures multiset(TasksOn(times, cpu))[e] == if e.cpu == cpu then multiset(times)[e] else 0
  {
    if times != [] {
      TasksOnAre(times[..|times| - 1], cpu, e);
      assert times == times[..|times| - 1] + [times[|times| - 1]];
    }
  }

  // The reports.

  ghost function PidsOf(input: Input, uid: string): set<nat>
  {
    set pid | pid in PidPods(input.times) && PidPods(input.times)[pid] == uid
  }

  /** A pod's memory is the sum of its tasks'; a task without a reading counts nothing. */
  lemma PodPssIs(input: Input, uid: string)
    ensures PodPss(input)(uid) == SumR(PidsOf(input, uid), PssValues(input))
    ensures forall pid :: PssValues(input)(pid) == if pid in input.pss then input.pss[pid] as real else 0.0
  {
    var all, f := PidPods(input.times).Keys, Cells(PssTable(input), uid);
    SumOnly(all, PidsOf(input, uid), f);
    SumRSame(PidsOf(input, uid), f, PssValues(input));
  }

  /** A report has the pod's CPU power and its part of the memory power, both truncated: the part goes by
      memory, or six tenths by memory and four tenths by CPU power when cache misses were counted. */
  lemma ReportIs(input: Input, uid: string, pss: real, cpu: real, ratio: real)
    requires Calibrated(input) && TotalR(CoreWeights(input)) > 0.0
    requires IsQuotient(pss, PodPss(input)(uid), TotalPss(input))
    requires IsQuotient(cpu, PodCpu(input)(uid), SumR(Pods(input), PodCpu(input)))
    requires ratio == if input.llcMisses > 0 then 0.6 * pss + 0.4 * cpu else pss
    ensures var r := ReportOf(input, uid);
      && r.uid == uid && IsFloor(r.cpuUw, PodCpu(input)(uid))
      && r.gpuUw == r.storageUw == r.ioUw == 0 && r.totalUw == r.cpuUw + r.memoryUw
    ensures uid in Pods(input) ==> IsFloor(ReportOf(input, uid).memoryUw, input.memoryUw as real * ratio)
  {
    PodsShareTheCpu(input, Pods(input));
    FloorIs(PodCpu(input)(uid));
    if uid in Pods(input) {
      MemoryRatioIs(input, uid, pss, cpu, ratio);
      MemoryRatioNonneg(input, uid);
      MemoryIs(input, uid, ratio);
    }
  }

  ghost predicate IsFloor(n: int, x: real)
  {
    n as real <= x < n as real + 1.0
  }

  lemma FloorIs(x: real)
    requires x >= 0.0
    ensures IsFloor(ToU64(x), x)
  {
  }

  lemma PowerIsFloor(total: nat, x: real)
    requires x >= 0.0
    ensures IsFloor(PowerOf(total, x), total as real * x)
  {
    ProductNonneg(total as real, x);
    FloorIs(total as real * x);
  }

  lemma MemoryIs(input: Input, uid: string, ratio: real)
    requires MemoryRatios(input)(uid) == ratio >= 0.0
    ensures IsFloor(ReportOf(input, uid).memoryUw, input.memoryUw as real * ratio)
  {
    PowerIsFloor(input.memoryUw, ratio);
    assert ReportOf(input, uid).memoryUw == PowerOf(input.memoryUw, ratio);
  }

  lemma MemoryRatioIs(input: Input, uid: string, pss: real, cpu: real, ratio: real)
    requires IsQuotient(pss, PodPss(input)(uid), TotalPss(input))
    requires IsQuotient(cpu, PodCpu(input)(uid), SumR(Pods(input), PodCpu(input)))
    requires ratio == if input.llcMisses > 0 then 0.6 * pss + 0.4 * cpu else pss
    ensures MemoryRatios(input)(uid) == ratio
  {
    RatioIs(pss, PodPss(input)(uid), TotalPss(input));
    RatioIs(cpu, PodCpu(input)(uid), SumR(Pods(input), PodCpu(input)));
    assert PssRatios(input)(uid) == pss && LlcRatios(input)(uid) == cpu;
  }

  lemma MemoryRatioNonneg(input: Input, uid: string)
    requires Calibrated(input) && TotalR(CoreWeights(input)) > 0.0 && uid in Pods(input)
    ensures MemoryRatios(input)(uid) >= 0.0
  {
    PssFits(input);
    LlcFits(input);
    MemoryFits(input);
  }
}
