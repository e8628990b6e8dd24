/** `enumerate_pods`: pod power from the per-process metrics of one /proc scan. Reading /proc is
    the input: each process comes with its deltas and the pod its cgroup names, if any. */
module ProcPods {
  import opened Options
  import opened Sums
  import opened Shares
  import opened Ratios
  import opened SeqSums
  import opened PodReports

  datatype Metrics = Metrics(cpuTicks: nat, pssKb: nat, ioBytes: nat, netBytes: nat)

  datatype Process = Process(pod: Option<string>, metrics: Metrics)

  datatype Node = Node(cpuUw: nat, memoryUw: nat, storageUw: nat, ioUw: nat)

  const NONE := Metrics(0, 0, 0, 0)

  function Plus(a: Metrics, b: Metrics): Metrics
  {
    Metrics(a.cpuTicks + b.cpuTicks, a.pssKb + b.pssKb, a.ioBytes + b.ioBytes, a.netBytes + b.netBytes)
  }

  /** The metrics of all processes together. */
  function AllOf(procs: seq<Process>): Metrics
  {
    if procs == [] then NONE else Plus(AllOf(procs[..|procs| - 1]), procs[|procs| - 1].metrics)
  }

  /** The metrics of one pod's processes. */
  function OfPod(procs: seq<Process>, uid: string): Metrics
  {
    if procs == [] then NONE
    else
      var rest, p := OfPod(procs[..|procs| - 1], uid), procs[|procs| - 1];
      if p.pod == Some(uid) then Plus(rest, p.metrics) else rest
  }

  /** The processes that belong to a pod. */
  function InPods(procs: seq<Process>): seq<Process>
  {
    if procs == [] then []
    else
      var rest, p := InPods(procs[..|procs| - 1]), procs[|procs| - 1];
      if p.pod.Some? then rest + [p] else rest
  }

  ghost function PodsOf(procs: seq<Process>): set<string>
  {
    if procs == [] then {}
    else
      var rest, p := PodsOf(procs[..|procs| - 1]), procs[|procs| - 1];
      if p.pod.Some? then rest + {p.pod.value} else rest
  }

  function CpuTicks(m: Metrics): int { m.cpuTicks }
  function PssKb(m: Metrics): int { m.pssKb }
  function IoBytes(m: Metrics): int { m.ioBytes }
  function NetBytes(m: Metrics): int { m.netBytes }

  /** A nonnegative quantity that adds up over processes. */
  ghost predicate Additive(f: Metrics -> int)
  {
    f(NONE) == 0 && (forall a, b :: f(Plus(a, b)) == f(a) + f(b)) && forall m :: f(m) >= 0
  }

  function FieldOf(procs: seq<Process>, f: Metrics -> int, uid: string): real
  {
    f(OfPod(procs, uid)) as real
  }

  function PodField(procs: seq<Process>, f: Metrics -> int): string -> real
  {
    (uid: string) => FieldOf(procs, f, uid)
  }

  /** What the pods use is at most what all processes use, and all of it if every process is in a pod. */
  lemma {:induction false} PodsUseAtMostAll(procs: seq<Process>, uids: set<string>, f: Metrics -> int)
    requires Additive(f)
    ensures SumR(uids, PodField(procs, f)) <= f(AllOf(procs)) as real
    ensures PodsOf(procs) <= uids && AllInPods(procs) ==>
      SumR(uids, PodField(procs, f)) == f(AllOf(procs)) as real
  {
    if procs == [] {
      var zero := (uid: string) => 0.0;
      assert forall uid :: uid in uids ==> PodField(procs, f)(uid) == FieldOf(procs, f, uid) == 0.0;
      SumRScale(uids, zero, PodField(procs, f), 0.0);
    } else {
      var rest, p := procs[..|procs| - 1], procs[|procs| - 1];
      PodsUseAtMostAll(rest, uids, f);
      OneProcess(procs, uids, f);
      assert f(AllOf(procs)) == f(AllOf(rest)) + f(p.metrics);
    }
  }

  lemma OneProcess(procs: seq<Process>, uids: set<string>, f: Metrics -> int)
    requires Additive(f) && procs != []
    ensures var rest, p := procs[..|procs| - 1], procs[|procs| - 1];
      SumR(uids, PodField(procs, f)) == SumR(uids, PodField(rest, f))
        + if p.pod.Some? && p.pod.value in uids then f(p.metrics) as real else 0.0
  {
    var rest, p := procs[..|procs| - 1], procs[|procs| - 1];
    if p.pod.Some? && p.pod.value in uids {
      var uid := p.pod.value;
      SumRTake(uids, PodField(procs, f), uid);
      SumRTake(uids, PodField(rest, f), uid);
      SumRSame(uids - {uid}, PodField(procs, f), PodField(rest, f));
      assert f(OfPod(procs, uid)) == f(OfPod(rest, uid)) + f(p.metrics);
    } else {
      SumRSame(uids, PodField(procs, f), PodField(rest, f));
    }
  }

  lemma {:induction false} PodProcesses(procs: seq<Process>)
    ensures forall i :: 0 <= i < |InPods(procs)| ==> InPods(procs)[i].pod.Some?
    ensures PodsOf(InPods(procs)) == PodsOf(procs)
    ensures forall uid :: OfPod(InPods(procs), uid) == OfPod(procs, uid)
  {
    if procs != [] {
      var rest, p := procs[..|procs| - 1], procs[|procs| - 1];
      PodProcesses(rest);
      if p.pod.Some? {
        assert InPods(procs) == InPods(rest) + [p];
        assert InPods(procs)[..|InPods(procs)| - 1] == InPods(rest);
      }
    }
  }

  // Phase 4: the report of one pod.

  function CpuRatio(m: Metrics, all: Metrics): real
  {
    RatioOf(m.cpuTicks as real, all.cpuTicks as real)
  }

  function MemoryRatio(m: Metrics, all: Metrics, llcMisses: nat): real
  {
    var pss := RatioOf(m.pssKb as real, all.pssKb as real);
    if llcMisses > 0 then 0.6 * pss + 0.4 * CpuRatio(m, all) else 1.0 * pss + 0.0 * CpuRatio(m, all)
  }

  function StorageRatio(m: Metrics, all: Metrics): real
  {
    RatioOf(m.ioBytes as real, all.ioBytes as real)
  }

  /** Network bytes are normalised by the pods' own; without any, the CPU ratio stands in. */
  function NetRatio(m: Metrics, all: Metrics, podNet: nat): real
  {
    if podNet > 0 then RatioOf(m.netBytes as real, podNet as real) else CpuRatio(m, all)
  }

  function PodReport(uid: string, m: Metrics, all: Metrics, podNet: nat, llcMisses: nat, node: Node,
                     cache: map<string, Identity>): Report
  {
    var id := NameOf(cache, uid);
    var cpu, mem := PowerOf(node.cpuUw, CpuRatio(m, all)), PowerOf(node.memoryUw, MemoryRatio(m, all, llcMisses));
    var sto, io := PowerOf(node.storageUw, StorageRatio(m, all)), PowerOf(node.ioUw, NetRatio(m, all, podNet));
    Report(uid, id.name, id.ns, cpu, mem, 0, sto, io, cpu + mem + sto + io)
  }

  /** The report the scan gives a pod. */
  function ReportOf(procs: seq<Process>, llcMisses: nat, node: Node, cache: map<string, Identity>, uid: string): Report
  {
    PodReport(uid, OfPod(procs, uid), AllOf(procs), AllOf(InPods(procs)).netBytes, llcMisses, node, cache)
  }

  ghost predicate FitsNode(r: seq<Report>, node: Node)
  {
    && 0 <= SeqSum(r, Cpu) <= node.cpuUw
    && 0 <= SeqSum(r, Memory) <= node.memoryUw
    && 0 <= SeqSum(r, Storage) <= node.storageUw
    && 0 <= SeqSum(r, Io) <= node.ioUw
  }

  ghost predicate IsProcReport(r: seq<Report>, procs: seq<Process>, llcMisses: nat, node: Node,
                               cache: map<string, Identity>)
  {
    && Lists(r, PodsOf(procs))
    && forall i :: 0 <= i < |r| ==> r[i] == ReportOf(procs, llcMisses, node, cache, r[i].uid)
  }

  function AtLeastOne(n: nat): nat
  {
    if n == 0 then 1 else n
  }

  /** Memory goes by set size alone, or six tenths by set size and four tenths by CPU time. */
  ghost predicate IsMemoryPart(p: int, total: nat, m: Metrics, all: Metrics, llcMisses: nat)
  {
    var pss, ticks := AtLeastOne(all.pssKb), AtLeastOne(all.cpuTicks);
    if llcMisses == 0 then IsPart(p, total, m.pssKb, all.pssKb)
    else IsPart(p, total, 6 * m.pssKb * ticks + 4 * m.cpuTicks * pss, 10 * pss * ticks)
  }

  /** Each component of a report is the pod's part of the node's, by what the pod used of what all used:
      CPU by ticks, storage by bytes of I/O, the network by bytes among the pods, or by ticks without any. */
  ghost predicate FollowsUse(p: Report, procs: seq<Process>, llcMisses: nat, node: Node)
  {
    var m, all, net := OfPod(procs, p.uid), AllOf(procs), AllOf(InPods(procs)).netBytes;
    && IsPart(p.cpuUw, node.cpuUw, m.cpuTicks, all.cpuTicks)
    && IsMemoryPart(p.memoryUw, node.memoryUw, m, all, llcMisses)
    && IsPart(p.storageUw, node.storageUw, m.ioBytes, all.ioBytes)
    && (if net > 0 then IsPart(p.ioUw, node.ioUw, m.netBytes, net)
        else IsPart(p.ioUw, node.ioUw, m.cpuTicks, all.cpuTicks))
    && p.gpuUw == 0 && p.totalUw == p.cpuUw + p.memoryUw + p.storageUw + p.ioUw
  }

  lemma {:induction false} PodUsesAtMostAll(procs: seq<Process>, uid: string)
    ensures OfPod(procs, uid).pssKb <= AllOf(procs).pssKb && OfPod(procs, uid).cpuTicks <= AllOf(procs).cpuTicks
  {
    if procs != [] { PodUsesAtMostAll(procs[..|procs| - 1], uid); }
  }

  lemma MemoryIsPart(total: nat, m: Metrics, all: Metrics, llcMisses: nat)
    requires m.pssKb <= all.pssKb && m.cpuTicks <= all.cpuTicks
    ensures IsMemoryPart(PowerOf(total, MemoryRatio(m, all, llcMisses)), total, m, all, llcMisses)
  {
    if llcMisses == 0 {
      assert MemoryRatio(m, all, llcMisses) == RatioOf(m.pssKb as real, all.pssKb as real);
      PowerIsPart(total, m.pssKb, all.pssKb);
    } else {
      assert RatioOf(m.pssKb as real, all.pssKb as real) == m.pssKb as real / AtLeastOne(all.pssKb) as real;
      assert CpuRatio(m, all) == m.cpuTicks as real / AtLeastOne(all.cpuTicks) as real;
      BlendIsPart(total, m.pssKb, AtLeastOne(all.pssKb), m.cpuTicks, AtLeastOne(all.cpuTicks));
    }
  }

  /** The reports follow what the pods used. */
  lemma ReportFollowsUse(procs: seq<Process>, llcMisses: nat, node: Node, cache: map<string, Identity>, uid: string)
    ensures FollowsUse(ReportOf(procs, llcMisses, node, cache, uid), procs, llcMisses, node)
  {
    var m, all, net := OfPod(procs, uid), AllOf(procs), AllOf(InPods(procs)).netBytes;
    PodUsesAtMostAll(procs, uid);
    PowerIsPart(node.cpuUw, m.cpuTicks, all.cpuTicks);
    MemoryIsPart(node.memoryUw, m, all, llcMisses);
    PowerIsPart(node.storageUw, m.ioBytes, all.ioBytes);
    PowerIsPart(node.ioUw, m.netBytes, net);
    PowerIsPart(node.ioUw, m.cpuTicks, all.cpuTicks);
  }

  /** Every process belongs to a pod. */
  predicate AllInPods(procs: seq<Process>)
  {
    forall i :: 0 <= i < |procs| ==> procs[i].pod.Some?
  }

  lemma FieldFits(procs: seq<Process>, uids: set<string>, f: Metrics -> int, x: string -> real)
    requires Additive(f) && forall uid :: uid in uids ==>
      x(uid) == RatioOf(PodField(procs, f)(uid), f(AllOf(procs)) as real)
    ensures Fits(uids, x)
    ensures f(AllOf(procs)) > 0 && PodsOf(procs) <= uids && AllInPods(procs) ==>
      SumR(uids, x) == 1.0
  {
    PodsUseAtMostAll(procs, uids, f);
    RatiosFit(uids, PodField(procs, f), x, f(AllOf(procs)) as real);
  }

  function CpuRatios(procs: seq<Process>): string -> real
  {
    (uid: string) => CpuRatio(OfPod(procs, uid), AllOf(procs))
  }

  function PssRatios(procs: seq<Process>): string -> real
  {
    (uid: string) => RatioOf(OfPod(procs, uid).pssKb as real, AllOf(procs).pssKb as real)
  }

  function MemoryRatios(procs: seq<Process>, llcMisses: nat): string -> real
  {
    (uid: string) => MemoryRatio(OfPod(procs, uid), AllOf(procs), llcMisses)
  }

  function StorageRatios(procs: seq<Process>): string -> real
  {
    (uid: string) => StorageRatio(OfPod(procs, uid), AllOf(procs))
  }

  function NetRatios(procs: seq<Process>): string -> real
  {
    (uid: string) => NetRatio(OfPod(procs, uid), AllOf(procs), AllOf(InPods(procs)).netBytes)
  }

  lemma CpuFits(procs: seq<Process>, uids: set<string>)
    ensures Fits(uids, CpuRatios(procs))
    ensures AllOf(procs).cpuTicks > 0 && PodsOf(procs) <= uids && AllInPods(procs) ==>
      SumR(uids, CpuRatios(procs)) == 1.0
  {
    FieldFits(procs, uids, CpuTicks, CpuRatios(procs));
  }

  lemma MemoryFits(procs: seq<Process>, uids: set<string>, llcMisses: nat)
    ensures Fits(uids, MemoryRatios(procs, llcMisses))
    ensures AllOf(procs).pssKb > 0 && (llcMisses == 0 || AllOf(procs).cpuTicks > 0) && AllInPods(procs) ==>
      (PodsOf(procs) <= uids ==> SumR(uids, MemoryRatios(procs, llcMisses)) == 1.0)
  {
    CpuFits(procs, uids);
    FieldFits(procs, uids, PssKb, PssRatios(procs));
    if llcMisses > 0 {
      BlendFits(uids, PssRatios(procs), CpuRatios(procs), MemoryRatios(procs, llcMisses));
    } else {
      SumRSame(uids, MemoryRatios(procs, llcMisses), PssRatios(procs));
    }
  }

  lemma StorageFits(procs: seq<Process>, uids: set<string>)
    ensures Fits(uids, StorageRatios(procs))
    ensures AllOf(procs).ioBytes > 0 && PodsOf(procs) <= uids && AllInPods(procs) ==>
      SumR(uids, StorageRatios(procs)) == 1.0
  {
    FieldFits(procs, uids, IoBytes, StorageRatios(procs));
  }

  lemma NetFits(procs: seq<Process>, uids: set<string>)
    ensures Fits(uids, NetRatios(procs))
    ensures AllOf(InPods(procs)).netBytes > 0 && PodsOf(procs) <= uids ==> SumR(uids, NetRatios(procs)) == 1.0
  {
    PodProcesses(procs);
    if AllOf(InPods(procs)).netBytes > 0 {
      FieldFits(InPods(procs), uids, NetBytes, NetRatios(procs));
    } else {
      CpuFits(procs, uids);
      SumRSame(uids, NetRatios(procs), CpuRatios(procs));
    }
  }

  function Powers(total: nat, x: string -> real): string -> int
  {
    (uid: string) => PowerOf(total, x(uid))
  }

  /** One component of the reports, added up. */
  lemma ComponentFits(r: seq<Report>, f: Report -> int, total: nat, x: string -> real)
    requires Unique(r) && Fits(Uids(r), x)
    requires forall i :: 0 <= i < |r| ==> f(r[i]) == PowerOf(total, x(r[i].uid))
    ensures 0 <= SeqSum(r, f) <= total
    ensures SumR(Uids(r), x) == 1.0 ==> total - |Uids(r)| < SeqSum(r, f)
  {
    ListedSum(r, f, Powers(total, x));
    PowersFit(Uids(r), x, Powers(total, x), total);
  }

  /** Pod attribution from /proc never exceeds the node, component by component. */
  lemma ProcFitsNode(r: seq<Report>, procs: seq<Process>, llcMisses: nat, node: Node, cache: map<string, Identity>)
    requires IsProcReport(r, procs, llcMisses, node, cache)
    ensures FitsNode(r, node) && WellFormed(r, cache)
  {
    CpuAndMemoryFit(r, procs, llcMisses, node, cache);
    StorageAndNetFit(r, procs, llcMisses, node, cache);
  }

  lemma CpuAndMemoryFit(r: seq<Report>, procs: seq<Process>, llcMisses: nat, node: Node, cache: map<string, Identity>)
    requires IsProcReport(r, procs, llcMisses, node, cache)
    ensures 0 <= SeqSum(r, Cpu) <= node.cpuUw && 0 <= SeqSum(r, Memory) <= node.memoryUw
  {
    CpuFits(procs, Uids(r));
    ComponentFits(r, Cpu, node.cpuUw, CpuRatios(procs));
    MemoryFits(procs, Uids(r), llcMisses);
    ComponentFits(r, Memory, node.memoryUw, MemoryRatios(procs, llcMisses));
  }

  lemma StorageAndNetFit(r: seq<Report>, procs: seq<Process>, llcMisses: nat, node: Node, cache: map<string, Identity>)
    requires IsProcReport(r, procs, llcMisses, node, cache)
    ensures 0 <= SeqSum(r, Storage) <= node.storageUw && 0 <= SeqSum(r, Io) <= node.ioUw
  {
    StorageFits(procs, Uids(r));
    ComponentFits(r, Storage, node.storageUw, StorageRatios(procs));
    NetFits(procs, Uids(r));
    ComponentFits(r, Io, node.ioUw, NetRatios(procs));
  }

  /** Network power is normalised over the pods alone, so the reports lose less than one microwatt
      each; the other components likewise when every process is in a pod. */
  lemma ProcLosesLessThanCount(r: seq<Report>, procs: seq<Process>, llcMisses: nat, node: Node,
                               cache: map<string, Identity>)
    requires IsProcReport(r, procs, llcMisses, node, cache)
    ensures AllOf(InPods(procs)).netBytes > 0 ==> node.ioUw - |PodsOf(procs)| < SeqSum(r, Io)
    ensures AllOf(procs).cpuTicks > 0 && AllInPods(procs) ==>
      node.cpuUw - |PodsOf(procs)| < SeqSum(r, Cpu)
    ensures AllOf(procs).ioBytes > 0 && AllInPods(procs) ==>
      node.storageUw - |PodsOf(procs)| < SeqSum(r, Storage)
    ensures AllOf(procs).pssKb > 0 && (llcMisses == 0 || AllOf(procs).cpuTicks > 0) && AllInPods(procs) ==>
      node.memoryUw - |PodsOf(procs)| < SeqSum(r, Memory)
  {
    NetFits(procs, Uids(r));
    ComponentFits(r, Io, node.ioUw, NetRatios(procs));
    CpuFits(procs, Uids(r));
    ComponentFits(r, Cpu, node.cpuUw, CpuRatios(procs));
    StorageFits(procs, Uids(r));
    ComponentFits(r, Storage, node.storageUw, StorageRatios(procs));
    MemoryFits(procs, Uids(r), llcMisses);
    ComponentFits(r, Memory, node.memoryUw, MemoryRatios(procs, llcMisses));
  }

  // The loops.

  /** Phase 1: scan all processes, keep those in pods, and add up what all of them use. */
  method Scan(procs: seq<Process>) returns (inPods: seq<Process>, all: Metrics)
    ensures inPods == InPods(procs) && all == AllOf(procs)
  {
    inPods, all := [], NONE;
    for i := 0 to |procs|
      invariant inPods == InPods(procs[..i]) && all == AllOf(procs[..i])
    {
      assert procs[..i + 1][..i] == procs[..i];
      all := Plus(all, procs[i].metrics);
      if procs[i].pod.Some? {
        inPods := inPods + [procs[i]];
      }
    }
    assert procs[..|procs|] == procs;
  }

  ghost predicate IsPodMetrics(m: map<string, Metrics>, procs: seq<Process>)
  {
    && (forall uid :: uid in m <==> uid in PodsOf(procs))
    && (forall uid :: uid in m ==> m[uid] == OfPod(procs, uid))
  }

  lemma {:induction false} NoMetrics(procs: seq<Process>, uid: string)
    requires uid !in PodsOf(procs)
    ensures OfPod(procs, uid) == NONE
  {
    if procs != [] { NoMetrics(procs[..|procs| - 1], uid); }
  }

  /** Phase 2: aggregate the processes of each pod. */
  method Aggregate(inPods: seq<Process>) returns (m: map<string, Metrics>, podNet: nat)
    requires forall i :: 0 <= i < |inPods| ==> inPods[i].pod.Some?
    ensures IsPodMetrics(m, inPods) && podNet == AllOf(inPods).netBytes
  {
    m, podNet := map[], 0;
    for i := 0 to |inPods|
      invariant IsPodMetrics(m, inPods[..i]) && podNet == AllOf(inPods[..i]).netBytes
    {
      assert inPods[..i + 1][..i] == inPods[..i];
      var uid := inPods[i].pod.value;
      if uid !in m { NoMetrics(inPods[..i], uid); }
      m := m[uid := Plus(if uid in m then m[uid] else NONE, inPods[i].metrics)];
      podNet := podNet + inPods[i].metrics.netBytes;
    }
    assert inPods[..|inPods|] == inPods;
  }

  /** `enumerate_pods`. */
  method EnumeratePods(procs: seq<Process>, llcMisses: nat, node: Node, cache: map<string, Identity>)
    returns (r: seq<Report>)
    ensures IsProcReport(r, procs, llcMisses, node, cache)
    ensures FitsNode(r, node) && WellFormed(r, cache)
    ensures forall i :: 0 <= i < |r| ==> FollowsUse(r[i], procs, llcMisses, node)
  {
    var inPods, all := Scan(procs);
    PodProcesses(procs);
    var m, podNet := Aggregate(inPods);
    r := ReportAll(m, procs, all, podNet, llcMisses, node, cache);
    ProcFitsNode(r, procs, llcMisses, node, cache);
    forall i | 0 <= i < |r| ensures FollowsUse(r[i], procs, llcMisses, node) {
      ReportFollowsUse(procs, llcMisses, node, cache, r[i].uid);
    }
  }

  method ReportAll(m: map<string, Metrics>, ghost procs: seq<Process>, all: Metrics, podNet: nat, llcMisses: nat,
                   node: Node,
                   cache: map<string, Identity>) returns (r: seq<Report>)
    requires IsPodMetrics(m, procs) && all == AllOf(procs) && podNet == AllOf(InPods(procs)).netBytes
    ensures IsProcReport(r, procs, llcMisses, node, cache)
  {
    r := [];
    var todo := m.Keys;
    ghost var done: set<string> := {};
    while todo != {}
      invariant todo !! done && m.Keys == todo + done && Lists(r, done)
      invariant forall i :: 0 <= i < |r| ==> r[i] == ReportOf(procs, llcMisses, node, cache, r[i].uid)
    {
      var uid :| uid in todo;
      ListsOneMore(r, done, PodReport(uid, m[uid], all, podNet, llcMisses, node, cache));
      r := r + [PodReport(uid, m[uid], all, podNet, llcMisses, node, cache)];
      todo, done := todo - {uid}, done + {uid};
    }
    assert PodsOf(procs) == m.Keys;
  }
}
