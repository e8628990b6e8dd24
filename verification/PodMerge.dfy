/** One tick of the agent: /proc reports, overridden where the eBPF path knows better, plus GPU power. */
module PodMerge {
  import opened Sums
  import opened Ratios
  import opened SeqSums
  import opened PodReports
  import opened Entries

  // The override.

  datatype Powers = Powers(cpuUw: nat, memoryUw: nat)

  /** The collected map of uid to powers. */
  function PowersOf(ebpf: seq<Report>): map<string, Powers>
  {
    if ebpf == [] then map[]
    else
      var p := ebpf[|ebpf| - 1];
      PowersOf(ebpf[..|ebpf| - 1])[p.uid := Powers(p.cpuUw, p.memoryUw)]
  }

  function Overridden(p: Report, m: map<string, Powers>): Report
  {
    if p.uid in m then Recalculated(p.(cpuUw := m[p.uid].cpuUw, memoryUw := m[p.uid].memoryUw)) else p
  }

  ghost predicate IsMerged(r: seq<Report>, pods: seq<Report>, ebpf: seq<Report>)
  {
    |r| == |pods| && forall i :: 0 <= i < |r| ==> r[i] == Overridden(pods[i], PowersOf(ebpf))
  }

  function IsUid(uid: string): Report -> bool
  {
    (p: Report) => p.uid == uid
  }

  /** q is p with the CPU and memory power of e, and a total to match. */
  predicate TakesOver(q: Report, p: Report, e: Report)
  {
    && q.uid == p.uid && q.name == p.name && q.ns == p.ns
    && q.cpuUw == e.cpuUw && q.memoryUw == e.memoryUw
    && q.gpuUw == p.gpuUw && q.storageUw == p.storageUw && q.ioUw == p.ioUw
    && q.totalUw == e.cpuUw + e.memoryUw + p.gpuUw + p.storageUw + p.ioUw
  }

  /** A report takes over the powers of the last eBPF report of its uid, and is left alone without one. */
  lemma MergedIs(r: seq<Report>, pods: seq<Report>, ebpf: seq<Report>, i: nat)
    requires IsMerged(r, pods, ebpf) && i < |r|
    ensures !Has(ebpf, IsUid(pods[i].uid)) ==> r[i] == pods[i]
    ensures forall j: nat :: IsLast(ebpf, j, IsUid(pods[i].uid)) ==> TakesOver(r[i], pods[i], ebpf[j])
  {
    PowersAre(ebpf, pods[i].uid);
  }

  lemma {:induction false} PowersAre(ebpf: seq<Report>, uid: string)
    ensures uid in PowersOf(ebpf) <==> Has(ebpf, IsUid(uid))
    ensures forall j: nat :: IsLast(ebpf, j, IsUid(uid)) ==>
      uid in PowersOf(ebpf) && PowersOf(ebpf)[uid] == Powers(ebpf[j].cpuUw, ebpf[j].memoryUw)
  {
    if ebpf != [] {
      var n := |ebpf| - 1;
      PowersAre(ebpf[..n], uid);
      LastEntry(ebpf, IsUid(uid));
    }
  }

  lemma {:induction false} PowersListed(ebpf: seq<Report>)
    requires Unique(ebpf)
    ensures PowersOf(ebpf).Keys == Uids(ebpf)
    ensures forall i :: 0 <= i < |ebpf| ==>
      ebpf[i].uid in PowersOf(ebpf) && PowersOf(ebpf)[ebpf[i].uid] == Powers(ebpf[i].cpuUw, ebpf[i].memoryUw)
  {
    PowersKeyed(ebpf);
    forall i | 0 <= i < |ebpf|
      ensures ebpf[i].uid in PowersOf(ebpf) && PowersOf(ebpf)[ebpf[i].uid] == Powers(ebpf[i].cpuUw, ebpf[i].memoryUw)
    {
      PowersAt(ebpf, i);
    }
  }

  lemma {:induction false} PowersKeyed(ebpf: seq<Report>)
    ensures PowersOf(ebpf).Keys == Uids(ebpf)
  {
    if ebpf != [] {
      var rest, p := ebpf[..|ebpf| - 1], ebpf[|ebpf| - 1];
      PowersKeyed(rest);
      assert ebpf == rest + [p];
      KeysOneMore(rest, p, UidOf);
    }
  }

  lemma {:induction false} PowersAt(ebpf: seq<Report>, i: nat)
    requires Unique(ebpf) && i < |ebpf|
    ensures ebpf[i].uid in PowersOf(ebpf) && PowersOf(ebpf)[ebpf[i].uid] == Powers(ebpf[i].cpuUw, ebpf[i].memoryUw)
  {
    if i < |ebpf| - 1 { PowersAt(ebpf[..|ebpf| - 1], i); }
  }

  function CpuIn(m: map<string, Powers>): string -> int
  {
    (uid: string) => if uid in m then m[uid].cpuUw else 0
  }

  function MemoryIn(m: map<string, Powers>): string -> int
  {
    (uid: string) => if uid in m then m[uid].memoryUw else 0
  }

  function Inside(m: map<string, Powers>, f: Report -> int): Report -> int
  {
    (p: Report) => if p.uid in m then f(p) else 0
  }

  /** The component of the reports the override leaves alone. */
  function Outside(m: map<string, Powers>, f: Report -> int): Report -> int
  {
    (p: Report) => if p.uid in m then 0 else f(p)
  }

  lemma {:induction false} SeqSumSplits(r: seq<Report>, m: map<string, Powers>, f: Report -> int)
    requires forall p: Report :: f(p) >= 0
    ensures SeqSum(r, f) == SeqSum(r, Inside(m, f)) + SeqSum(r, Outside(m, f))
    ensures 0 <= SeqSum(r, Outside(m, f)) <= SeqSum(r, f)
    ensures (forall i :: 0 <= i < |r| ==> r[i].uid in m) ==> SeqSum(r, Outside(m, f)) == 0
  {
    if r != [] { SeqSumSplits(r[..|r| - 1], m, f); }
  }

  lemma MergedUids(r: seq<Report>, pods: seq<Report>, ebpf: seq<Report>)
    requires IsMerged(r, pods, ebpf) && Unique(pods)
    ensures Unique(r) && Uids(r) == Uids(pods)
  {
    assert forall i :: 0 <= i < |r| ==> r[i].uid == pods[i].uid;
    forall uid ensures uid in Uids(r) <==> uid in Uids(pods) {
      if uid in Uids(r) { var i :| 0 <= i < |r| && r[i].uid == uid; assert pods[i].uid == uid; }
      if uid in Uids(pods) { var i :| 0 <= i < |pods| && pods[i].uid == uid; assert r[i].uid == uid; }
    }
  }

  /** g is what the eBPF path gives, in the component f that the override replaces by it. */
  ghost predicate Replaces(r: seq<Report>, pods: seq<Report>, ebpf: seq<Report>, m: map<string, Powers>,
                           f: Report -> int, g: string -> int)
  {
    && (forall p: Report :: f(p) >= 0) && (forall uid :: g(uid) >= 0 && (uid !in m ==> g(uid) == 0))
    && |r| == |pods|
    && (forall i :: 0 <= i < |r| ==> r[i].uid == pods[i].uid && f(r[i]) == if r[i].uid in m then g(r[i].uid)
      else f(pods[i]))
    && (forall i :: 0 <= i < |ebpf| ==> f(ebpf[i]) == g(ebpf[i].uid))
  }

  /** After the override, a component adds up to exactly what the eBPF path gives the pods /proc knows
      plus what the pods it did not see keep from /proc. */
  lemma MergedComponent(r: seq<Report>, pods: seq<Report>, ebpf: seq<Report>, f: Report -> int, g: string -> int)
    requires Unique(r) && Unique(ebpf) && Replaces(r, pods, ebpf, PowersOf(ebpf), f, g)
    ensures SeqSum(r, f) == SumI(Uids(r), g) + SeqSum(pods, Outside(PowersOf(ebpf), f))
    ensures 0 <= SumI(Uids(r), g) <= SeqSum(ebpf, f)
  {
    var m := PowersOf(ebpf);
    PowersListed(ebpf);
    SeqSumSplits(r, m, f);
    ListedSum(r, Inside(m, f), g);
    ListedSum(ebpf, f, g);
    SumIWithin(Uids(r), Uids(ebpf), g);
    SeqSumSame(r, pods, Outside(m, f), Outside(m, f));
  }

  /** Every /proc pod is known to the eBPF path. */
  ghost predicate Covers(ebpf: seq<Report>, pods: seq<Report>)
  {
    Uids(pods) <= Uids(ebpf)
  }

  lemma ComponentBounds(r: seq<Report>, pods: seq<Report>, ebpf: seq<Report>, f: Report -> int, g: string -> int,
                        total: nat)
    requires Unique(r) && Unique(ebpf) && Replaces(r, pods, ebpf, PowersOf(ebpf), f, g)
    requires SeqSum(pods, f) <= total && SeqSum(ebpf, f) <= total
    ensures Covers(ebpf, pods) ==> SeqSum(r, f) <= total
    ensures 0 <= SeqSum(r, f) <= 2 * total
  {
    MergedComponent(r, pods, ebpf, f, g);
    SeqSumSplits(pods, PowersOf(ebpf), f);
    PowersListed(ebpf);
    assert forall i :: 0 <= i < |pods| ==> pods[i].uid in Uids(pods);
  }

  lemma CpuAndMemoryReplaced(r: seq<Report>, pods: seq<Report>, ebpf: seq<Report>)
    requires IsMerged(r, pods, ebpf) && Unique(ebpf)
    ensures Replaces(r, pods, ebpf, PowersOf(ebpf), Cpu, CpuIn(PowersOf(ebpf)))
    ensures Replaces(r, pods, ebpf, PowersOf(ebpf), Memory, MemoryIn(PowersOf(ebpf)))
  {
    PowersListed(ebpf);
  }

  /** The override keeps CPU and memory within the node if the eBPF path covers every pod, and
      within twice the node otherwise. */
  lemma MergeBounds(r: seq<Report>, pods: seq<Report>, ebpf: seq<Report>, cpuUw: nat, memoryUw: nat)
    requires IsMerged(r, pods, ebpf) && Unique(pods) && Unique(ebpf)
    requires SeqSum(pods, Cpu) <= cpuUw && SeqSum(ebpf, Cpu) <= cpuUw
    requires SeqSum(pods, Memory) <= memoryUw && SeqSum(ebpf, Memory) <= memoryUw
    ensures Covers(ebpf, pods) ==> SeqSum(r, Cpu) <= cpuUw && SeqSum(r, Memory) <= memoryUw
    ensures 0 <= SeqSum(r, Cpu) <= 2 * cpuUw && 0 <= SeqSum(r, Memory) <= 2 * memoryUw
  {
    MergedUids(r, pods, ebpf);
    CpuAndMemoryReplaced(r, pods, ebpf);
    ComponentBounds(r, pods, ebpf, Cpu, CpuIn(PowersOf(ebpf)), cpuUw);
    ComponentBounds(r, pods, ebpf, Memory, MemoryIn(PowersOf(ebpf)), memoryUw);
  }

  lemma MergeWellFormed(r: seq<Report>, pods: seq<Report>, ebpf: seq<Report>, cache: map<string, Identity>)
    requires IsMerged(r, pods, ebpf) && WellFormed(pods, cache)
    ensures WellFormed(r, cache)
    ensures SeqSum(r, Gpu) == SeqSum(pods, Gpu) && SeqSum(r, Storage) == SeqSum(pods, Storage) &&
      SeqSum(r, Io) == SeqSum(pods, Io)
  {
    SeqSumSame(r, pods, Gpu, Gpu);
    SeqSumSame(r, pods, Storage, Storage);
    SeqSumSame(r, pods, Io, Io);
  }

  // GPU power.

  /** A measurement of this node's GPUs that names a pod. */
  datatype GpuLine = GpuLine(id: Identity, gpuUw: nat)

  function IdOf(p: Report): Identity { Identity(p.name, p.ns) }

  /** The identities that GPU power can be charged to. */
  ghost predicate Known(r: seq<Report>, cache: map<string, Identity>, id: Identity)
  {
    (exists i :: 0 <= i < |r| && IdOf(r[i]) == id) || id in cache.Values
  }

  /** The measured power of one identity. */
  function MeasuredFor(lines: seq<GpuLine>, id: Identity): nat
  {
    if lines == [] then 0
    else
      var rest, l := MeasuredFor(lines[..|lines| - 1], id), lines[|lines| - 1];
      if l.id == id then rest + l.gpuUw else rest
  }

  /** The measured power of all known identities. */
  ghost function Placeable(lines: seq<GpuLine>, pods: seq<Report>, cache: map<string, Identity>): nat
  {
    if lines == [] then 0
    else
      var rest, l := Placeable(lines[..|lines| - 1], pods, cache), lines[|lines| - 1];
      if Known(pods, cache, l.id) then rest + l.gpuUw else rest
  }

  function GpuFor(id: Identity): Report -> int
  {
    (p: Report) => if IdOf(p) == id then p.gpuUw else 0
  }

  /** The reports after a measurement: given to the first report of its identity, or to a new report
      of a cached pod, or skipped. */
  ghost predicate IsPlaced(r: seq<Report>, r': seq<Report>, l: GpuLine, cache: map<string, Identity>)
  {
    if exists i :: 0 <= i < |r| && IdOf(r[i]) == l.id then
      exists i :: 0 <= i < |r| && IdOf(r[i]) == l.id && (forall j :: 0 <= j < i ==> IdOf(r[j]) != l.id) &&
        r' == WithGpu(r, i, l.gpuUw)
    else if l.id in cache.Values then
      exists uid :: uid in cache && cache[uid] == l.id && r' == r + [GpuOnly(uid, l)]
    else r' == r
  }

  function WithGpu(r: seq<Report>, i: nat, gpuUw: nat): seq<Report>
    requires i < |r|
  {
    r[i := Recalculated(r[i].(gpuUw := r[i].gpuUw + gpuUw))]
  }

  function GpuOnly(uid: string, l: GpuLine): Report
  {
    Report(uid, l.id.name, l.id.ns, 0, 0, l.gpuUw, 0, 0, l.gpuUw)
  }

  predicate SameButGpu(a: Report, b: Report)
  {
    && a.uid == b.uid && a.name == b.name && a.ns == b.ns
    && a.cpuUw == b.cpuUw && a.memoryUw == b.memoryUw && a.storageUw == b.storageUw && a.ioUw == b.ioUw
  }

  /** The reports of r are still there, in their places and with at most their GPU power changed; any others
      have GPU power only. */
  predicate OnlyGpuChanged(r: seq<Report>, r': seq<Report>)
  {
    && |r| <= |r'|
    && (forall i :: 0 <= i < |r| ==> SameButGpu(r'[i], r[i]))
    && (forall i :: |r| <= i < |r'| ==>
          r'[i].cpuUw == 0 && r'[i].memoryUw == 0 && r'[i].storageUw == 0 && r'[i].ioUw == 0)
  }

  lemma PlacedOnlyChangesGpu(r: seq<Report>, r': seq<Report>, l: GpuLine, cache: map<string, Identity>)
    requires IsPlaced(r, r', l, cache)
    ensures OnlyGpuChanged(r, r')
  {
  }

  lemma OnlyGpuChangedAgain(a: seq<Report>, b: seq<Report>, c: seq<Report>)
    requires OnlyGpuChanged(a, b) && OnlyGpuChanged(b, c)
    ensures OnlyGpuChanged(a, c)
  {
  }

  /** Everything a measurement keeps and changes. */
  ghost predicate GpuStep(r: seq<Report>, r': seq<Report>, l: GpuLine, cache: map<string, Identity>)
  {
    && SeqSum(r', Cpu) == SeqSum(r, Cpu) && SeqSum(r', Memory) == SeqSum(r, Memory)
    && SeqSum(r', Storage) == SeqSum(r, Storage) && SeqSum(r', Io) == SeqSum(r, Io)
    && SeqSum(r', Gpu) == SeqSum(r, Gpu) + (if Known(r, cache, l.id) then l.gpuUw else 0)
    && (forall id ::
          SeqSum(r', GpuFor(id)) == SeqSum(r, GpuFor(id)) + (if Known(r, cache, id) && l.id == id then l.gpuUw else 0))
    && (forall id :: Known(r', cache, id) <==> Known(r, cache, id))
  }

  lemma UpdateSteps(r: seq<Report>, l: GpuLine, cache: map<string, Identity>, i: nat)
    requires i < |r| && IdOf(r[i]) == l.id
    ensures GpuStep(r, WithGpu(r, i, l.gpuUw), l, cache)
  {
    var r', p := WithGpu(r, i, l.gpuUw), Recalculated(r[i].(gpuUw := r[i].gpuUw + l.gpuUw));
    SeqSumUpdate(r, i, p, Cpu);
    SeqSumUpdate(r, i, p, Memory);
    SeqSumUpdate(r, i, p, Storage);
    SeqSumUpdate(r, i, p, Io);
    SeqSumUpdate(r, i, p, Gpu);
    assert Known(r, cache, l.id);
    forall id ensures SeqSum(r', GpuFor(id)) ==
      SeqSum(r, GpuFor(id)) + (if Known(r, cache, id) && l.id == id then l.gpuUw else 0) {
      SeqSumUpdate(r, i, p, GpuFor(id));
    }
    SameKnown(r, r', cache);
  }

  lemma SameKnown(r: seq<Report>, r': seq<Report>, cache: map<string, Identity>)
    requires |r| == |r'| && forall i :: 0 <= i < |r| ==> IdOf(r[i]) == IdOf(r'[i])
    ensures forall id :: Known(r', cache, id) <==> Known(r, cache, id)
  {
  }

  lemma AppendSteps(r: seq<Report>, l: GpuLine, cache: map<string, Identity>, uid: string)
    requires uid in cache && cache[uid] == l.id
    ensures GpuStep(r, r + [GpuOnly(uid, l)], l, cache)
  {
    var p := GpuOnly(uid, l);
    SeqSumAppend(r, p, Cpu);
    SeqSumAppend(r, p, Memory);
    SeqSumAppend(r, p, Storage);
    SeqSumAppend(r, p, Io);
    SeqSumAppend(r, p, Gpu);
    assert Known(r, cache, l.id);
    forall id ensures SeqSum(r + [p], GpuFor(id)) ==
      SeqSum(r, GpuFor(id)) + (if Known(r, cache, id) && l.id == id then l.gpuUw else 0) {
      SeqSumAppend(r, p, GpuFor(id));
    }
    AppendKnown(r, p, cache);
  }

  lemma AppendKnown(r: seq<Report>, p: Report, cache: map<string, Identity>)
    requires p.uid in cache && cache[p.uid] == IdOf(p)
    ensures forall id :: Known(r + [p], cache, id) <==> Known(r, cache, id)
  {
    forall id ensures Known(r + [p], cache, id) <==> Known(r, cache, id) {
      if i :| 0 <= i < |r| && IdOf(r[i]) == id { assert IdOf((r + [p])[i]) == id; }
      if i :| 0 <= i < |r| + 1 && IdOf((r + [p])[i]) == id { assert i < |r| ==> IdOf(r[i]) == id; }
    }
  }

  /** One measurement keeps every other component, adds its power to its own identity if that is
      known, and keeps the uids unique and the totals right. */
  lemma PlacedSteps(r: seq<Report>, r': seq<Report>, l: GpuLine, cache: map<string, Identity>)
    requires IsPlaced(r, r', l, cache)
    ensures GpuStep(r, r', l, cache)
  {
    if exists i :: 0 <= i < |r| && IdOf(r[i]) == l.id {
      var i :| 0 <= i < |r| && IdOf(r[i]) == l.id && r' == WithGpu(r, i, l.gpuUw);
      UpdateSteps(r, l, cache, i);
    } else if l.id in cache.Values {
      var uid :| uid in cache && cache[uid] == l.id && r' == r + [GpuOnly(uid, l)];
      AppendSteps(r, l, cache, uid);
    }
  }

  lemma PlacedWellFormed(r: seq<Report>, r': seq<Report>, l: GpuLine, cache: map<string, Identity>)
    requires IsPlaced(r, r', l, cache) && WellFormed(r, cache) && Unique(r)
    ensures WellFormed(r', cache) && Unique(r')
  {
  }
}
