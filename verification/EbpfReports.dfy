/** The reports of the eBPF-weighted path: their powers fit the node, and the loops compute them. */
module EbpfReports {
  import opened Sums
  import opened Shares
  import opened Ratios
  import opened KernelData
  import opened Models
  import opened SeqSums
  import opened PodReports
  import opened EbpfPods

  function PssOf(input: Input, pid: nat): nat
  {
    if pid in input.pss then input.pss[pid] else 0
  }

  function PssValues(input: Input): nat -> real
  {
    (pid: nat) => PssOf(input, pid) as real
  }

  /** A task's memory, counted for its pod. */
  function PssTable(input: Input): (string, nat) -> real
  {
    (uid: string, pid: nat) => if InPod(PidPods(input.times), pid, uid) then PssOf(input, pid) as real else 0.0
  }

  ghost function PodPss(input: Input): string -> real
  {
    Row(PidPods(input.times).Keys, PssTable(input))
  }

  ghost function TotalPss(input: Input): real
  {
    SumR(PidPods(input.times).Keys, PssValues(input))
  }

  function Pods(input: Input): set<string>
  {
    PidPods(input.times).Values
  }

  ghost function PssRatios(input: Input): string -> real
  {
    (uid: string) => RatioOf(PodPss(input)(uid), TotalPss(input))
  }

  /** Without per-pod cache misses, the CPU share stands in. */
  ghost function LlcRatios(input: Input): string -> real
  {
    (uid: string) => RatioOf(PodCpu(input)(uid), SumR(Pods(input), PodCpu(input)))
  }

  function Blend(llcMisses: nat, pss: real, llc: real): real
  {
    if llcMisses > 0 then 0.6 * pss + 0.4 * llc else pss
  }

  ghost function MemoryRatios(input: Input): string -> real
  {
    (uid: string) => Blend(input.llcMisses, PssRatios(input)(uid), LlcRatios(input)(uid))
  }

  function MakeReport(uid: string, cpu: nat, mem: nat, cache: map<string, Identity>): Report
  {
    var id := NameOf(cache, uid);
    Report(uid, id.name, id.ns, cpu, mem, 0, 0, 0, cpu + mem)
  }

  ghost function ReportOf(input: Input, uid: string): Report
  {
    MakeReport(uid, ToU64(PodCpu(input)(uid)), PowerOf(input.memoryUw, MemoryRatios(input)(uid)), input.cache)
  }

  ghost predicate IsEbpfReport(r: seq<Report>, input: Input)
  {
    if TotalR(CoreWeights(input)) <= 0.0 then r == []
    else
      && Lists(r, Pods(input))
      && AllReports(r, input)
  }

  ghost predicate AllReports(r: seq<Report>, input: Input)
  {
    forall i :: 0 <= i < |r| ==> IsReport(r[i], input)
  }

  ghost predicate IsReport(p: Report, input: Input)
  {
    p == ReportOf(input, p.uid)
  }

  lemma OneMoreReport(r: seq<Report>, p: Report, input: Input)
    requires AllReports(r, input) && IsReport(p, input)
    ensures AllReports(r + [p], input)
  {
  }

  /** Each task's memory is counted for one pod. */
  lemma PssAddsUp(input: Input)
    ensures SumR(Pods(input), PodPss(input)) == TotalPss(input)
    ensures forall uid :: PodPss(input)(uid) >= 0.0
  {
    var pods := PidPods(input.times);
    Exchange(Pods(input), pods.Keys, PssTable(input));
    forall pid | pid in pods.Keys ensures Column(Pods(input), PssTable(input))(pid) == PssValues(input)(pid) {
      var uid := pods[pid];
      var f := CellsOf(PssTable(input), pid);
      SumOnly(Pods(input), {uid}, f);
      SumRTake({uid}, f, uid);
    }
    SumRSame(pods.Keys, Column(Pods(input), PssTable(input)), PssValues(input));
    forall uid ensures PodPss(input)(uid) >= 0.0 { SumRNonneg(pods.Keys, Cells(PssTable(input), uid)); }
  }

  lemma PssFits(input: Input)
    ensures Fits(Pods(input), PssRatios(input))
  {
    PssAddsUp(input);
    RatiosFit(Pods(input), PodPss(input), PssRatios(input), TotalPss(input));
  }

  lemma LlcFits(input: Input)
    requires Calibrated(input) && TotalR(CoreWeights(input)) > 0.0
    ensures Fits(Pods(input), LlcRatios(input))
  {
    PodsShareTheCpu(input, Pods(input));
    RatiosFit(Pods(input), PodCpu(input), LlcRatios(input), SumR(Pods(input), PodCpu(input)));
  }

  lemma MemoryFits(input: Input)
    requires Fits(Pods(input), PssRatios(input)) && Fits(Pods(input), LlcRatios(input))
    ensures Fits(Pods(input), MemoryRatios(input))
  {
    var uids, pss, llc, mem := Pods(input), PssRatios(input), LlcRatios(input), MemoryRatios(input);
    assert forall uid :: mem(uid) == Blend(input.llcMisses, pss(uid), llc(uid));
    if input.llcMisses > 0 { BlendFits(uids, pss, llc, mem); } else { SumRSame(uids, mem, pss); }
  }

  ghost function CpuOf(input: Input): string -> int
  {
    (uid: string) => ToU64(PodCpu(input)(uid))
  }

  ghost function MemoryOf(input: Input): string -> int
  {
    (uid: string) => PowerOf(input.memoryUw, MemoryRatios(input)(uid))
  }

  /** The eBPF reports never exceed the node's CPU or memory power, and lose less than one microwatt
      of CPU power each when every core with weight ran only tasks of pods. */
  lemma EbpfFitsNode(r: seq<Report>, input: Input)
    requires IsEbpfReport(r, input) && Calibrated(input)
    ensures 0 <= SeqSum(r, Cpu) <= input.cpuUw && 0 <= SeqSum(r, Memory) <= input.memoryUw
    ensures TotalR(CoreWeights(input)) > 0.0 && FullyInPods(input, Pods(input)) && r != [] ==>
      input.cpuUw - |Pods(input)| < SeqSum(r, Cpu)
  {
    if TotalR(CoreWeights(input)) > 0.0 {
      PodsShareTheCpu(input, Pods(input));
      ListedSum(r, Cpu, CpuOf(input));
      FloorSum(Pods(input), PodCpu(input), CpuOf(input));
      ListedSum(r, Memory, MemoryOf(input));
      PssFits(input);
      LlcFits(input);
      MemoryFits(input);
      PowersFit(Pods(input), MemoryRatios(input), MemoryOf(input), input.memoryUw);
      if r != [] { assert r[0].uid in Uids(r); }
    }
  }

  lemma EbpfWellFormed(r: seq<Report>, input: Input)
    requires IsEbpfReport(r, input)
    ensures WellFormed(r, input.cache) && Unique(r)
  {
  }

  // The loops.

  method WeighCores(input: Input) returns (w: map<nat, real>)
    ensures w == CoreWeights(input)
  {
    w := map[];
    for i := 0 to |input.counters|
      invariant w == CycleWeights(input.counters[..i])
    {
      assert input.counters[..i + 1][..i] == input.counters[..i];
      var c := input.counters[i];
      if c.counters.cycles > 0 {
        w := w[c.core := c.counters.cycles as real];
      }
    }
    assert input.counters[..|input.counters|] == input.counters;
    if w == map[] {
      w := WeighByFrequency(input.freqs);
    }
    if w == map[] {
      w := WeighByTime(input.times);
    }
  }

  method WeighByFrequency(freqs: seq<FreqTime>) returns (w: map<nat, real>)
    ensures w == FreqWeights(freqs)
  {
    w := map[];
    for i := 0 to |freqs|
      invariant w == FreqWeights(freqs[..i])
    {
      assert freqs[..i + 1][..i] == freqs[..i];
      var e := freqs[i];
      w := w[e.cpu := GetR(w, e.cpu) + FreqFactor(e.freqKhz) * e.timeNs as real];
    }
    assert freqs[..|freqs|] == freqs;
  }

  method WeighByTime(times: seq<Entry>) returns (w: map<nat, real>)
    ensures w == TimeWeights(times)
  {
    w := map[];
    for i := 0 to |times|
      invariant w == TimeWeights(times[..i])
    {
      assert times[..i + 1][..i] == times[..i];
      var e := times[i];
      w := w[e.cpu := GetR(w, e.cpu) + e.timeNs as real];
    }
    assert times[..|times|] == times;
  }

  method AddUp<K(==, !new)>(m: map<K, real>) returns (sum: real)
    ensures sum == TotalR(m)
  {
    sum := 0.0;
    var todo := m.Keys;
    ghost var done: set<K> := {};
    while todo != {}
      invariant todo !! done && m.Keys == todo + done && sum == SumR(done, ValuesR(m))
    {
      var k :| k in todo;
      SumRAdd(done, ValuesR(m), k);
      sum := sum + m[k];
      todo, done := todo - {k}, done + {k};
    }
    assert done == m.Keys;
  }

  /** Step 2. */
  method SplitToCores(input: Input, w: map<nat, real>, sum: real) returns (power: map<nat, real>)
    requires w == CoreWeights(input) && sum == TotalR(w) && sum > 0.0
    ensures forall cpu: nat :: GetR(power, cpu) == CorePower(input, cpu)
  {
    power := map[];
    var todo := w.Keys;
    while todo != {}
      invariant todo <= w.Keys && power.Keys == w.Keys - todo
      invariant forall cpu :: cpu in power ==> power[cpu] == CorePower(input, cpu)
    {
      var cpu :| cpu in todo;
      power := power[cpu := input.cpuUw as real * (w[cpu] / sum)];
      todo := todo - {cpu};
    }
  }

  ghost predicate IsTasks(tasks: map<nat, seq<Entry>>, times: seq<Entry>)
  {
    tasks.Keys == Cpus(times) && forall cpu :: cpu in tasks ==> tasks[cpu] == TasksOn(times, cpu)
  }

  lemma CpusOneMore(times: seq<Entry>, i: nat)
    requires i < |times|
    ensures Cpus(times[..i + 1]) == Cpus(times[..i]) + {times[i].cpu}
  {
    var a, b := times[..i], times[..i + 1];
    forall j | 0 <= j < i ensures a[j].cpu in Cpus(b) { assert b[j] == a[j]; }
    assert b[i] == times[i];
  }

  lemma {:induction false} NoTasks(times: seq<Entry>, cpu: nat)
    requires cpu !in Cpus(times)
    ensures TasksOn(times, cpu) == []
  {
    if times != [] {
      var n := |times| - 1;
      CpusOneMore(times, n);
      assert times[..n + 1] == times;
      NoTasks(times[..n], cpu);
    }
  }

  /** Step 3. */
  method MapTasks(times: seq<Entry>) returns (pods: map<nat, string>, tasks: map<nat, seq<Entry>>)
    ensures pods == PidPods(times) && IsTasks(tasks, times)
  {
    pods, tasks := map[], map[];
    for i := 0 to |times|
      invariant pods == PidPods(times[..i]) && IsTasks(tasks, times[..i])
    {
      assert times[..i + 1][..i] == times[..i];
      var e := times[i];
      if e.pid !in pods && e.cgroup.Some? {
        pods := pods[e.pid := e.cgroup.value];
      }
      CpusOneMore(times, i);
      if e.cpu !in tasks { NoTasks(times[..i], e.cpu); }
      tasks := tasks[e.cpu := (if e.cpu in tasks then tasks[e.cpu] else []) + [e]];
    }
    assert times[..|times|] == times;
  }

  /** The pods' CPU power so far. */
  ghost predicate IsCharged(podCpu: map<string, real>, pods: map<nat, string>, f: string -> real)
  {
    (forall uid :: GetR(podCpu, uid) == f(uid)) && podCpu.Keys <= pods.Values
  }

  function Adds(f: string -> real, g: string -> real): string -> real
  {
    (uid: string) => f(uid) + g(uid)
  }

  /** Step 4 for one core. */
  method ChargeCore(podCpu: map<string, real>, pods: map<nat, string>, ws: seq<Weighted>, power: real,
                    ghost f: string -> real)
    returns (r: map<string, real>)
    requires IsCharged(podCpu, pods, f)
    ensures IsCharged(r, pods, Adds(f, CoreShares(ws, pods, power)))
  {
    r := podCpu;
    var sum := 0.0;
    for i := 0 to |ws|
      invariant sum == WeightSum(ws[..i])
    {
      assert ws[..i + 1][..i] == ws[..i];
      sum := sum + ws[i].weight;
    }
    assert ws[..|ws|] == ws;
    if power <= 0.0 || sum <= 0.0 {
      return;
    }
    for i := 0 to |ws|
      invariant IsCharged(r, pods, Adds(f, ChargedTo(ws[..i], pods, power, sum)))
    {
      ChargeOne(r, pods, f, ws, i, power, sum);
      if ws[i].pid in pods {
        var uid := pods[ws[i].pid];
        r := r[uid := GetR(r, uid) + Part(power, ws[i].weight, sum)];
      }
    }
  }

  lemma ChargedOneMore(ws: seq<Weighted>, i: nat, pods: map<nat, string>, power: real, sum: real)
    requires i < |ws|
    ensures forall uid :: ChargedTo(ws[..i + 1], pods, power, sum)(uid) ==
                          ChargedTo(ws[..i], pods, power, sum)(uid) + if InPod(pods, ws[i].pid, uid)
                            then Part(power, ws[i].weight, sum) else 0.0
  {
    assert ws[..i + 1][..i] == ws[..i];
  }

  lemma ChargeOne(r: map<string, real>, pods: map<nat, string>, f: string -> real, ws: seq<Weighted>, i: nat,
                  power: real, sum: real)
    requires i < |ws| && IsCharged(r, pods, Adds(f, ChargedTo(ws[..i], pods, power, sum)))
    ensures ws[i].pid !in pods ==> IsCharged(r, pods, Adds(f, ChargedTo(ws[..i + 1], pods, power, sum)))
    ensures ws[i].pid in pods ==>
      IsCharged(r[pods[ws[i].pid] := GetR(r, pods[ws[i].pid]) + Part(power, ws[i].weight, sum)], pods,
                Adds(f, ChargedTo(ws[..i + 1], pods, power, sum)))
  {
    var g, g' := Adds(f, ChargedTo(ws[..i], pods, power, sum)), Adds(f, ChargedTo(ws[..i + 1], pods, power, sum));
    ChargedOneMore(ws, i, pods, power, sum);
    if ws[i].pid in pods {
      var u := pods[ws[i].pid];
      var r' := r[u := GetR(r, u) + Part(power, ws[i].weight, sum)];
      forall uid ensures GetR(r', uid) == g'(uid) { assert GetR(r, uid) == g(uid); }
    } else {
      forall uid ensures GetR(r, uid) == g'(uid) { assert GetR(r, uid) == g(uid); }
    }
  }

  ghost function ChargedBy(input: Input, done: set<nat>): string -> real
  {
    Row(done, CpuTable(input))
  }

  /** Step 4: the cores in any order. */
  method ChargeCores(input: Input, pods: map<nat, string>, tasks: map<nat, seq<Entry>>, power: map<nat, real>)
    returns (podCpu: map<string, real>)
    requires pods == PidPods(input.times) && IsTasks(tasks, input.times)
    requires forall cpu: nat :: GetR(power, cpu) == CorePower(input, cpu)
    ensures IsCharged(podCpu, pods, PodCpu(input))
  {
    podCpu := map[];
    var todo := tasks.Keys;
    ghost var done: set<nat> := {};
    while todo != {}
      invariant todo !! done && tasks.Keys == todo + done
      invariant IsCharged(podCpu, pods, ChargedBy(input, done))
    {
      var cpu :| cpu in todo;
      ghost var f := ChargedBy(input, done);
      podCpu := ChargeCore(podCpu, pods, Weigh(input, tasks[cpu]), GetR(power, cpu), f);
      CoreDone(input, podCpu, pods, done, cpu);
      todo, done := todo - {cpu}, done + {cpu};
    }
    assert done == Cpus(input.times);
  }

  lemma CoreDone(input: Input, podCpu: map<string, real>, pods: map<nat, string>, done: set<nat>, cpu: nat)
    requires pods == PidPods(input.times) && cpu !in done
    requires IsCharged(podCpu, pods, Adds(ChargedBy(input, done),
      CoreShares(TasksOf(input, cpu), pods, CorePower(input, cpu))))
    ensures IsCharged(podCpu, pods, ChargedBy(input, done + {cpu}))
  {
    forall uid ensures GetR(podCpu, uid) == ChargedBy(input, done + {cpu})(uid) {
      SumRAdd(done, Cells(CpuTable(input), uid), cpu);
      assert GetR(podCpu, uid) == Adds(ChargedBy(input, done),
        CoreShares(TasksOf(input, cpu), pods, CorePower(input, cpu)))(uid);
    }
  }

  function PssIn(podPss: map<string, nat>, uid: string): nat
  {
    if uid in podPss then podPss[uid] else 0
  }

  /** The memory of the tasks in `done`, by pod. */
  ghost predicate PssByPod(podPss: map<string, nat>, input: Input, done: set<nat>)
  {
    && (forall uid :: PssIn(podPss, uid) as real == Row(done, PssTable(input))(uid))
    && podPss.Keys <= Pods(input)
    && forall pid :: pid in done && pid in PidPods(input.times) ==> PidPods(input.times)[pid] in podPss
  }

  /** Step 5: proportional set sizes by pod, and in all. */
  method ReadPss(input: Input, pods: map<nat, string>) returns (podPss: map<string, nat>, total: nat)
    requires pods == PidPods(input.times)
    ensures PssByPod(podPss, input, pods.Keys) && total as real == TotalPss(input)
  {
    podPss, total := map[], 0;
    var todo := pods.Keys;
    ghost var done: set<nat> := {};
    while todo != {}
      invariant todo !! done && pods.Keys == todo + done && PssDone(podPss, total, input, done)
    {
      var pid :| pid in todo;
      OneVisited(pods.Keys, todo, done, pid);
      podPss, total := AddPss(podPss, total, input, pods, done, pid);
      todo, done := todo - {pid}, done + {pid};
    }
    assert done == pods.Keys;
  }

  ghost predicate PssDone(podPss: map<string, nat>, total: nat, input: Input, done: set<nat>)
  {
    PssByPod(podPss, input, done) && total as real == SumR(done, PssValues(input))
  }

  /** One task. */
  method AddPss(podPss: map<string, nat>, total: nat, input: Input, pods: map<nat, string>, ghost done: set<nat>,
                pid: nat)
    returns (podPss': map<string, nat>, total': nat)
    requires pods == PidPods(input.times) && pid in pods && pid !in done && PssDone(podPss, total, input, done)
    ensures PssDone(podPss', total', input, done + {pid})
  {
    PssOneMore(podPss, input, pods, done, pid);
    SumRAdd(done, PssValues(input), pid);
    podPss' := podPss[pods[pid] := PssIn(podPss, pods[pid]) + PssOf(input, pid)];
    total' := total + PssOf(input, pid);
  }

  lemma PssOneMore(podPss: map<string, nat>, input: Input, pods: map<nat, string>, done: set<nat>, pid: nat)
    requires pods == PidPods(input.times) && PssByPod(podPss, input, done) && pid !in done && pid in pods
    ensures PssByPod(podPss[pods[pid] := PssIn(podPss, pods[pid]) + PssOf(input, pid)], input, done + {pid})
  {
    var podPss' := podPss[pods[pid] := PssIn(podPss, pods[pid]) + PssOf(input, pid)];
    forall uid ensures PssIn(podPss', uid) as real == Row(done + {pid}, PssTable(input))(uid) {
      PssRow(input, done, pid, uid);
      assert PssIn(podPss', uid) == PssIn(podPss, uid) + if pods[pid] == uid then PssOf(input, pid) else 0;
    }
  }

  lemma PssRow(input: Input, done: set<nat>, pid: nat, uid: string)
    requires pid !in done && pid in PidPods(input.times)
    ensures Row(done + {pid}, PssTable(input))(uid) ==
      Row(done, PssTable(input))(uid) + (if PidPods(input.times)[pid] == uid then PssOf(input, pid) else 0) as real
  {
    SumRAdd(done, Cells(PssTable(input), uid), pid);
  }

  /** `enumerate_pods_ebpf_weighted`. */
  method EnumerateWeighted(input: Input) returns (r: seq<Report>)
    ensures IsEbpfReport(r, input) && WellFormed(r, input.cache) && Unique(r)
    ensures Calibrated(input) ==> 0 <= SeqSum(r, Cpu) <= input.cpuUw && 0 <= SeqSum(r, Memory) <= input.memoryUw
  {
    var w := WeighCores(input);
    var sum := AddUp(w);
    if sum <= 0.0 {
      r := [];
      return;
    }
    var power := SplitToCores(input, w, sum);
    var pods, tasks := MapTasks(input.times);
    var podCpu := ChargeCores(input, pods, tasks, power);
    var podPss, totalPss := ReadPss(input, pods);
    r := ReportAll(input, pods, podCpu, podPss, totalPss);
    EbpfWellFormed(r, input);
    if Calibrated(input) { EbpfFitsNode(r, input); }
  }

  lemma PodCpuTotal(input: Input, podCpu: map<string, real>)
    requires IsCharged(podCpu, PidPods(input.times), PodCpu(input))
    ensures TotalR(podCpu) == SumR(Pods(input), PodCpu(input))
  {
    SumOnly(Pods(input), podCpu.Keys, PodCpu(input));
    SumRSame(podCpu.Keys, ValuesR(podCpu), PodCpu(input));
  }

  lemma PodUids(input: Input, podCpu: map<string, real>, podPss: map<string, nat>)
    requires podCpu.Keys <= Pods(input) && PssByPod(podPss, input, PidPods(input.times).Keys)
    ensures podCpu.Keys + podPss.Keys == Pods(input)
  {
    var pods := PidPods(input.times);
    forall uid | uid in Pods(input) ensures uid in podPss {
      var pid :| pid in pods && pods[pid] == uid;
    }
  }

  /** One pod's report. */
  method ReportPod(input: Input, uid: string, cpu: real, totalPodCpu: real, pss: nat, totalPss: nat) returns (p: Report)
    requires cpu == PodCpu(input)(uid) && totalPodCpu == SumR(Pods(input), PodCpu(input))
    requires pss as real == PodPss(input)(uid) && totalPss as real == TotalPss(input)
    ensures p.uid == uid && IsReport(p, input)
  {
    var pssRatio := RatioOf(pss as real, totalPss as real);
    var llcRatio := RatioOf(cpu, totalPodCpu);
    assert pssRatio == PssRatios(input)(uid) && llcRatio == LlcRatios(input)(uid);
    assert Blend(input.llcMisses, pssRatio, llcRatio) == MemoryRatios(input)(uid);
    p := MakeReport(uid, ToU64(cpu), PowerOf(input.memoryUw, Blend(input.llcMisses, pssRatio, llcRatio)), input.cache);
  }

  /** Step 6. */
  method ReportAll(input: Input, pods: map<nat, string>, podCpu: map<string, real>, podPss: map<string, nat>,
                   totalPss: nat)
    returns (r: seq<Report>)
    requires TotalR(CoreWeights(input)) > 0.0 && pods == PidPods(input.times)
    requires IsCharged(podCpu, pods, PodCpu(input)) && PssByPod(podPss, input, pods.Keys) &&
      totalPss as real == TotalPss(input)
    ensures IsEbpfReport(r, input)
  {
    var totalPodCpu := AddUp(podCpu);
    PodCpuTotal(input, podCpu);
    PodUids(input, podCpu, podPss);
    r := ListAll(input, podCpu.Keys + podPss.Keys, podCpu, totalPodCpu, podPss, totalPss);
  }

  method ListAll(input: Input, uids: set<string>, podCpu: map<string, real>, totalPodCpu: real,
                 podPss: map<string, nat>, totalPss: nat)
    returns (r: seq<Report>)
    requires forall uid :: GetR(podCpu, uid) == PodCpu(input)(uid) && PssIn(podPss, uid) as real == PodPss(input)(uid)
    requires totalPodCpu == SumR(Pods(input), PodCpu(input)) && totalPss as real == TotalPss(input)
    ensures Lists(r, uids) && AllReports(r, input)
  {
    r := [];
    var todo := uids;
    ghost var done: set<string> := {};
    while todo != {}
      invariant todo !! done && uids == todo + done && Lists(r, done)
      invariant AllReports(r, input)
    {
      var uid :| uid in todo;
      var p := ReportPod(input, uid, GetR(podCpu, uid), totalPodCpu, PssIn(podPss, uid), totalPss);
      ListsOneMore(r, done, p);
      OneMoreReport(r, p, input);
      OneVisited(uids, todo, done, uid);
      r := r + [p];
      todo, done := todo - {uid}, done + {uid};
    }
    assert done == uids;
  }
}
