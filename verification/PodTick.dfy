/** The pods of one collection tick: the loops of the merge, and what holds of the emitted reports. */
module PodTick {
  import opened Options
  import opened Sums
  import opened Ratios
  import opened KernelData
  import opened SeqSums
  import opened PodReports
  import opened PodMerge
  import opened MergeExact
  import ProcPods
  import EbpfPods
  import EbpfReports

  /** The override merge. */
  method Merge(pods: seq<Report>, ebpf: seq<Report>) returns (r: seq<Report>)
    ensures IsMerged(r, pods, ebpf)
  {
    var m: map<string, Powers> := map[];
    for i := 0 to |ebpf|
      invariant m == PowersOf(ebpf[..i])
    {
      assert ebpf[..i + 1][..i] == ebpf[..i];
      m := m[ebpf[i].uid := Powers(ebpf[i].cpuUw, ebpf[i].memoryUw)];
    }
    assert ebpf[..|ebpf|] == ebpf;
    r := pods;
    for i := 0 to |pods|
      invariant |r| == |pods|
      invariant forall j :: 0 <= j < i ==> r[j] == Overridden(pods[j], m)
      invariant forall j :: i <= j < |pods| ==> r[j] == pods[j]
    {
      if r[i].uid in m {
        r := r[i := Recalculated(r[i].(cpuUw := m[r[i].uid].cpuUw, memoryUw := m[r[i].uid].memoryUw))];
      }
    }
  }

  method FindPod(r: seq<Report>, id: Identity) returns (found: Option<nat>)
    ensures found.Some? ==> found.value < |r| && IdOf(r[found.value]) == id && forall j :: 0 <= j < found.value ==>
      IdOf(r[j]) != id
    ensures found.None? ==> forall j :: 0 <= j < |r| ==> IdOf(r[j]) != id
  {
    for i := 0 to |r|
      invariant forall j :: 0 <= j < i ==> IdOf(r[j]) != id
    {
      if IdOf(r[i]) == id {
        return Some(i);
      }
    }
    return None;
  }

  method PlaceGpu(r: seq<Report>, l: GpuLine, cache: map<string, Identity>) returns (r': seq<Report>)
    ensures IsPlaced(r, r', l, cache)
  {
    var found := FindPod(r, l.id);
    if found.Some? {
      r' := WithGpu(r, found.value, l.gpuUw);
    } else if l.id in cache.Values {
      var uid :| uid in cache && cache[uid] == l.id;
      r' := r + [GpuOnly(uid, l)];
    } else {
      r' := r;
    }
  }

  /** What adding GPU power keeps and changes, over all measurements. */
  ghost predicate GpuAdded(pods: seq<Report>, r: seq<Report>, lines: seq<GpuLine>, cache: map<string, Identity>)
  {
    && SeqSum(r, Cpu) == SeqSum(pods, Cpu) && SeqSum(r, Memory) == SeqSum(pods, Memory)
    && SeqSum(r, Storage) == SeqSum(pods, Storage) && SeqSum(r, Io) == SeqSum(pods, Io)
    && SeqSum(r, Gpu) == SeqSum(pods, Gpu) + Placeable(lines, pods, cache)
    && (forall id ::
          SeqSum(r, GpuFor(id)) == SeqSum(pods, GpuFor(id)) +
          (if Known(pods, cache, id) then MeasuredFor(lines, id) else 0))
    && (forall id :: Known(r, cache, id) <==> Known(pods, cache, id))
  }

  lemma AddedOneMore(pods: seq<Report>, r: seq<Report>, r': seq<Report>, lines: seq<GpuLine>, i: nat,
                     cache: map<string, Identity>)
    requires i < |lines| && GpuAdded(pods, r, lines[..i], cache) && GpuStep(r, r', lines[i], cache)
    ensures GpuAdded(pods, r', lines[..i + 1], cache)
  {
    assert lines[..i + 1][..i] == lines[..i];
  }

  /** The loop of `add_gpu_power_to_pods`. */
  method AddGpu(pods: seq<Report>, lines: seq<GpuLine>, cache: map<string, Identity>) returns (r: seq<Report>)
    ensures GpuAdded(pods, r, lines, cache) && OnlyGpuChanged(pods, r)
    ensures WellFormed(pods, cache) && Unique(pods) ==> WellFormed(r, cache) && Unique(r)
  {
    r := pods;
    for i := 0 to |lines|
      invariant GpuAdded(pods, r, lines[..i], cache) && OnlyGpuChanged(pods, r)
      invariant WellFormed(pods, cache) && Unique(pods) ==> WellFormed(r, cache) && Unique(r)
    {
      var r' := PlaceGpu(r, lines[i], cache);
      PlacedSteps(r, r', lines[i], cache);
      AddedOneMore(pods, r, r', lines, i, cache);
      PlacedOnlyChangesGpu(r, r', lines[i], cache);
      OnlyGpuChangedAgain(pods, r, r');
      if WellFormed(r, cache) && Unique(r) { PlacedWellFormed(r, r', lines[i], cache); }
      r := r';
    }
    assert lines[..|lines|] == lines;
  }

  /** What the eBPF observer saw in this interval, with the tuner's coefficients. */
  datatype Snapshot = Snapshot(times: seq<EbpfPods.Entry>, freqs: seq<FreqTime>, hw: map<Key, Counters>,
                               alpha: real, beta: real, pss: map<nat, nat>)

  function InputOf(s: Snapshot, node: ProcPods.Node, llcMisses: nat, counters: seq<CoreCounters>,
                   cache: map<string, Identity>): EbpfPods.Input
  {
    EbpfPods.Input(node.cpuUw, node.memoryUw, llcMisses, counters, s.times, s.freqs, s.hw, s.alpha, s.beta, s.pss,
      cache)
  }

  /** The eBPF path gets what was observed, the coefficients, and the node's CPU and memory power. */
  lemma InputIs(s: Snapshot, node: ProcPods.Node, llcMisses: nat, counters: seq<CoreCounters>,
                cache: map<string, Identity>)
    ensures var i := InputOf(s, node, llcMisses, counters, cache);
      && i.cpuUw == node.cpuUw && i.memoryUw == node.memoryUw && i.llcMisses == llcMisses && i.counters == counters
      && i.times == s.times && i.freqs == s.freqs && i.hw == s.hw && i.pss == s.pss && i.cache == cache
      && i.alpha == s.alpha && i.beta == s.beta
  {
  }

  predicate Calibrated(s: Option<Snapshot>)
  {
    s.Some? ==> s.value.alpha >= 0.0 && s.value.beta >= 0.0
  }

  predicate UsesEbpf(estimated: bool, snapshot: Option<Snapshot>)
  {
    estimated && snapshot.Some? && snapshot.value.times != []
  }

  /** The pod part of one tick. The eBPF path is used only for estimated CPU power with a snapshot
      that has entries; if it reports anything, its powers override those from /proc, and then GPU power is
      added if there is any. Whatever the tick saw: uids are unique, every total is the sum of its
      components, storage and network fit the node, CPU and memory fit twice the node, and they fit
      the node itself if the eBPF path is not used or covers every pod. */
  method CollectPods(procs: seq<ProcPods.Process>, node: ProcPods.Node, llcMisses: nat, counters: seq<CoreCounters>,
                     cache: map<string, Identity>,
                     estimated: bool, snapshot: Option<Snapshot>, gpuUw: nat, lines: seq<GpuLine>)
    returns (r: seq<Report>, ghost proc: seq<Report>, ghost ebpf: seq<Report>, ghost merged: seq<Report>)
    ensures ProcPods.IsProcReport(proc, procs, llcMisses, node, cache)
    ensures if ebpf == [] then merged == proc else IsMerged(merged, proc, ebpf)
    ensures if gpuUw == 0 then r == merged else GpuAdded(merged, r, lines, cache) && OnlyGpuChanged(merged, r)
    ensures Unique(r) && WellFormed(r, cache)
    ensures 0 <= SeqSum(r, Storage) <= node.storageUw && 0 <= SeqSum(r, Io) <= node.ioUw
    ensures Calibrated(snapshot) ==>
      0 <= SeqSum(r, Cpu) <= 2 * node.cpuUw && 0 <= SeqSum(r, Memory) <= 2 * node.memoryUw
    ensures Calibrated(snapshot) && (ebpf == [] || ProcPods.PodsOf(procs) <= Uids(ebpf)) ==>
      SeqSum(r, Cpu) <= node.cpuUw && SeqSum(r, Memory) <= node.memoryUw
    ensures if UsesEbpf(estimated, snapshot) then EbpfReports.IsEbpfReport(ebpf,
      InputOf(snapshot.value, node, llcMisses, counters, cache)) else ebpf == []
  {
    ebpf := [];
    var pods := ProcPods.EnumeratePods(procs, llcMisses, node, cache);
    proc := pods;
    if UsesEbpf(estimated, snapshot) {
      var ebpfPods := EbpfReports.EnumerateWeighted(InputOf(snapshot.value, node, llcMisses, counters, cache));
      ebpf := ebpfPods;
      if ebpfPods != [] {
        var merged := Merge(pods, ebpfPods);
        MergedUids(merged, pods, ebpfPods);
        MergeWellFormed(merged, pods, ebpfPods, cache);
        if Calibrated(snapshot) { MergeBounds(merged, pods, ebpfPods, node.cpuUw, node.memoryUw); }
        pods := merged;
      }
    }
    r, merged := pods, pods;
    if gpuUw > 0 {
      r := AddGpu(pods, lines, cache);
    }
  }

  // The override can hand out twice what the node used.

  /** According to /proc only pod "a" used the CPU; the eBPF path saw only pod "b" and gave it all of
      the node's power. */
  ghost predicate BusyPodUnseen(procs: seq<ProcPods.Process>, node: ProcPods.Node, input: EbpfPods.Input)
  {
    && ProcPods.PodsOf(procs) == {"a", "b"}
    && ProcPods.OfPod(procs, "a").cpuTicks == ProcPods.AllOf(procs).cpuTicks > 0 == ProcPods.OfPod(procs, "b").cpuTicks
    && TotalR(EbpfPods.CoreWeights(input)) > 0.0
    && EbpfReports.Pods(input) == {"b"} && EbpfPods.PodCpu(input)("b") == node.cpuUw as real
  }

  /** Such a tick exists for every node: one task of "b" ran on core 0. */
  lemma BusyPodCanBeUnseen(node: ProcPods.Node)
    ensures var b := ProcPods.Process(Some("b"), ProcPods.Metrics(0, 0, 0, 0));
      var snapshot := Snapshot([EbpfPods.Entry(0, 7, 1, Some("b"))], [], map[], 0.3, 1.5, map[]);
      BusyPodUnseen([ProcPods.Process(Some("a"), ProcPods.Metrics(1, 0, 0, 0)), b], node,
        InputOf(snapshot, node, 0, [], map[]))
  {
    var b := ProcPods.Process(Some("b"), ProcPods.Metrics(0, 0, 0, 0));
    var snapshot := Snapshot([EbpfPods.Entry(0, 7, 1, Some("b"))], [], map[], 0.3, 1.5, map[]);
    TwoProcesses([ProcPods.Process(Some("a"), ProcPods.Metrics(1, 0, 0, 0)), b]);
    OneTask(InputOf(snapshot, node, 0, [], map[]));
  }

  lemma TwoProcesses(procs: seq<ProcPods.Process>)
    requires |procs| == 2 && procs[0].pod == Some("a") && procs[1].pod == Some("b")
    requires procs[0].metrics.cpuTicks == 1 && procs[1].metrics.cpuTicks == 0
    ensures ProcPods.AllOf(procs).cpuTicks == 1 && ProcPods.PodsOf(procs) == {"a", "b"}
    ensures ProcPods.OfPod(procs, "a").cpuTicks == 1 && ProcPods.OfPod(procs, "b").cpuTicks == 0
  {
    var one := procs[..1];
    assert one[..0] == [];
    assert ProcPods.PodsOf(one) == {"a"} && ProcPods.AllOf(one).cpuTicks == 1;
    assert ProcPods.OfPod(one, "a").cpuTicks == 1 && ProcPods.OfPod(one, "b").cpuTicks == 0;
  }

  /** The entries of one task of "b" that ran on core 0. */
  ghost predicate RanOnCoreZero(times: seq<EbpfPods.Entry>)
  {
    |times| == 1 && times[0].cpu == 0 && times[0].timeNs == 1 && times[0].cgroup == Some("b")
  }

  lemma OneEntry(times: seq<EbpfPods.Entry>)
    requires RanOnCoreZero(times)
    ensures EbpfPods.TimeWeights(times) == map[0 := 1.0] && EbpfPods.PidPods(times) == map[times[0].pid := "b"]
    ensures EbpfPods.TasksOn(times, 0) == [times[0]] && EbpfPods.Cpus(times) == {0}
  {
    assert times[..0] == [];
    assert EbpfPods.Cpus(times) == {0} by { assert times[0].cpu == 0; }
  }

  lemma OneWeight(input: EbpfPods.Input)
    requires RanOnCoreZero(input.times) && input.hw == map[]
    ensures EbpfPods.AllIn(EbpfPods.TasksOf(input, 0), EbpfPods.PidPods(input.times), {"b"})
    ensures EbpfPods.WeightSum(EbpfPods.TasksOf(input, 0)) == 1.0
  {
    OneEntry(input.times);
    var ws := EbpfPods.TasksOf(input, 0);
    assert |ws| == 1 && ws[..0] == [];
  }

  lemma OneTask(input: EbpfPods.Input)
    requires input.counters == [] && input.freqs == [] && input.hw == map[]
    requires RanOnCoreZero(input.times) && input.alpha >= 0.0 && input.beta >= 0.0
    ensures TotalR(EbpfPods.CoreWeights(input)) > 0.0
    ensures EbpfReports.Pods(input) == {"b"} && EbpfPods.PodCpu(input)("b") == input.cpuUw as real
  {
    OneEntry(input.times);
    OneWeight(input);
    OneCore(input);
    EbpfPods.PodsShareTheCpu(input, {"b"});
    SumOfOne({"b"}, EbpfPods.PodCpu(input), "b");
  }

  lemma OneCore(input: EbpfPods.Input)
    requires input.counters == [] && input.freqs == [] && RanOnCoreZero(input.times)
    ensures EbpfPods.CoreWeights(input) == map[0 := 1.0] && TotalR(EbpfPods.CoreWeights(input)) == 1.0
  {
    OneEntry(input.times);
    var w := EbpfPods.CoreWeights(input);
    SumOfOne(w.Keys, ValuesR(w), 0);
  }

  lemma SumOfOne<K(!new)>(s: set<K>, f: K -> real, k: K)
    requires s == {k}
    ensures SumR(s, f) == f(k)
  {
    SumRTake(s, f, k);
  }

  lemma WholeShare(total: nat, ticks: nat)
    requires ticks > 0
    ensures PowerOf(total, RatioOf(ticks as real, ticks as real)) == total &&
      PowerOf(total, RatioOf(0.0, ticks as real)) == 0
  {
    RatioScales(ticks as real, ticks as real);
    RatioScales(0.0, ticks as real);
    assert total as real * 1.0 == total as real && total as real * 0.0 == 0.0;
  }

  lemma ProcShares(pods: seq<Report>, procs: seq<ProcPods.Process>, node: ProcPods.Node, cache: map<string, Identity>)
    requires ProcPods.IsProcReport(pods, procs, 0, node, cache) && ProcPods.PodsOf(procs) == {"a", "b"}
    requires ProcPods.OfPod(procs, "a").cpuTicks == ProcPods.AllOf(procs).cpuTicks > 0 ==
      ProcPods.OfPod(procs, "b").cpuTicks
    ensures forall i :: 0 <= i < |pods| ==> pods[i].cpuUw == Amounts("a", node.cpuUw)(pods[i].uid)
  {
    WholeShare(node.cpuUw, ProcPods.AllOf(procs).cpuTicks);
    assert forall i :: 0 <= i < |pods| ==> pods[i].uid in Uids(pods);
  }

  lemma EbpfShares(ebpf: seq<Report>, input: EbpfPods.Input, total: nat)
    requires EbpfReports.IsEbpfReport(ebpf, input) && TotalR(EbpfPods.CoreWeights(input)) > 0.0
    requires EbpfReports.Pods(input) == {"b"} && EbpfPods.PodCpu(input)("b") == total as real
    ensures Unique(ebpf) && Uids(ebpf) == {"b"} && forall i :: 0 <= i < |ebpf| ==> ebpf[i].cpuUw == total
  {
    forall i | 0 <= i < |ebpf| ensures ebpf[i].cpuUw == total {
      assert ebpf[i].uid in Uids(ebpf);
      assert EbpfReports.IsReport(ebpf[i], input);
    }
  }

  /** The bound of twice the node is reached on every node: a pod that only /proc sees keeps the whole
      of the CPU although the eBPF path has handed out the whole of it. */
  lemma MergeReachesTwice(procs: seq<ProcPods.Process>, node: ProcPods.Node, input: EbpfPods.Input,
                          pods: seq<Report>, ebpf: seq<Report>, r: seq<Report>)
    requires BusyPodUnseen(procs, node, input) && ProcPods.IsProcReport(pods, procs, 0, node, input.cache)
    requires EbpfReports.IsEbpfReport(ebpf, input) && IsMerged(r, pods, ebpf)
    ensures SeqSum(r, Cpu) == 2 * node.cpuUw
  {
    ProcShares(pods, procs, node, input.cache);
    EbpfShares(ebpf, input, node.cpuUw);
    BothInFull(pods, ebpf, r, node.cpuUw);
  }

  function Both(total: nat): string -> int
  {
    (uid: string) => total
  }

  lemma BothInFull(pods: seq<Report>, ebpf: seq<Report>, r: seq<Report>, total: nat)
    requires Unique(pods) && Unique(ebpf) && IsMerged(r, pods, ebpf) && Uids(pods) == {"a", "b"} && Uids(ebpf) == {"b"}
    requires forall i :: 0 <= i < |pods| ==> pods[i].cpuUw == Amounts("a", total)(pods[i].uid)
    requires forall i :: 0 <= i < |ebpf| ==> ebpf[i].cpuUw == total
    ensures SeqSum(r, Cpu) == 2 * total
  {
    MergedUids(r, pods, ebpf);
    PowersListed(ebpf);
    forall i | 0 <= i < |r| ensures Cpu(r[i]) == total {
      assert r[i].uid in Uids(r);
      if r[i].uid == "b" {
        var j :| 0 <= j < |ebpf| && ebpf[j].uid == "b";
        assert r[i].cpuUw == ebpf[j].cpuUw;
      }
    }
    ListedSum(r, Cpu, Both(total));
    SumITake({"a", "b"}, Both(total), "a");
    assert {"a", "b"} - {"a"} == {"b"};
    SumITake({"b"}, Both(total), "b");
    assert {"b"} - {"b"} == {};
  }
}
