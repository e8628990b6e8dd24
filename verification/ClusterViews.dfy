/** What the controller shows of one metering method, and that it shows nothing of the others. */
module ClusterViews {
  import opened Options
  import opened Sums
  import opened Aggregator
  import opened Tallies

  /** `matches_method`: no filter means keck, and so does an empty method name. */
  predicate Matches(reportMeter: string, filter: Option<string>)
  {
    MethodName(reportMeter) == filter.UnwrapOr("keck")
  }

  function NodesOf(s: State, filter: Option<string>): map<NodeKey, NodeState>
  {
    map k | k in s.nodes && Matches(s.nodes[k].report.meteringMethod, filter) :: s.nodes[k]
  }

  function PodsOf(s: State, filter: Option<string>): map<PodKey, PodState>
  {
    map k | k in s.pods && Matches(s.pods[k].report.meteringMethod, filter) :: s.pods[k]
  }

  datatype ClusterPower = ClusterPower(
    cpu: int, memory: int, gpu: int, platform: int, psuOutput: int, psuLoss: int, idle: int,
    totalAttributed: int, nodeCount: nat, podCount: nat, avgErrorRatio: real)

  function FieldOf(nodes: map<NodeKey, NodeState>, k: NodeKey, field: NodeReport -> int): int
  {
    if k in nodes then field(nodes[k].report) else 0
  }

  function ErrorOf(nodes: map<NodeKey, NodeState>, k: NodeKey): real
  {
    if k in nodes then nodes[k].report.errorRatio else 0.0
  }

  ghost function Field(keys: set<NodeKey>, nodes: map<NodeKey, NodeState>, field: NodeReport -> int): int
  {
    SumI(keys, k => FieldOf(nodes, k, field))
  }

  ghost function Errors(keys: set<NodeKey>, nodes: map<NodeKey, NodeState>): real
  {
    SumR(keys, k => ErrorOf(nodes, k))
  }

  const CPU: NodeReport -> int := (r: NodeReport) => r.cpuUw
  const MEMORY: NodeReport -> int := (r: NodeReport) => r.memoryUw
  const GPU: NodeReport -> int := (r: NodeReport) => r.gpuUw
  const PLATFORM: NodeReport -> int := (r: NodeReport) => r.platformUw.UnwrapOr(0)
  const PSU_OUTPUT: NodeReport -> int := (r: NodeReport) => r.psuOutputUw.UnwrapOr(0)
  const IDLE: NodeReport -> int := (r: NodeReport) => r.idleUw

  function Summary(cpu: int, memory: int, gpu: int, platform: int, psuOutput: int, idle: int,
                   errors: real, nodeCount: nat, podCount: nat): ClusterPower
  {
    ClusterPower(cpu, memory, gpu, platform, psuOutput,
                 if platform >= psuOutput then platform - psuOutput else 0,
                 idle, cpu + memory + gpu, nodeCount, podCount,
                 if nodeCount > 0 then errors / nodeCount as real else 0.0)
  }

  /** The cluster summary of a set of nodes. */
  ghost function ClusterPowerOf(nodes: map<NodeKey, NodeState>, podCount: nat): ClusterPower
  {
    var n := nodes.Keys;
    Summary(Field(n, nodes, CPU), Field(n, nodes, MEMORY), Field(n, nodes, GPU), Field(n, nodes, PLATFORM),
            Field(n, nodes, PSU_OUTPUT), Field(n, nodes, IDLE), Errors(n, nodes), |n|, podCount)
  }

  // What the summary means, node by node.

  function CpuAt(nodes: map<NodeKey, NodeState>): NodeKey -> int
  {
    (k: NodeKey) => if k in nodes then nodes[k].report.cpuUw else 0
  }

  function MemoryAt(nodes: map<NodeKey, NodeState>): NodeKey -> int
  {
    (k: NodeKey) => if k in nodes then nodes[k].report.memoryUw else 0
  }

  function GpuAt(nodes: map<NodeKey, NodeState>): NodeKey -> int
  {
    (k: NodeKey) => if k in nodes then nodes[k].report.gpuUw else 0
  }

  function IdleAt(nodes: map<NodeKey, NodeState>): NodeKey -> int
  {
    (k: NodeKey) => if k in nodes then nodes[k].report.idleUw else 0
  }

  /** A missing reading counts as nothing. */
  function PlatformAt(nodes: map<NodeKey, NodeState>): NodeKey -> int
  {
    (k: NodeKey) => if k in nodes && nodes[k].report.platformUw.Some? then nodes[k].report.platformUw.value else 0
  }

  function PsuOutputAt(nodes: map<NodeKey, NodeState>): NodeKey -> int
  {
    (k: NodeKey) => if k in nodes && nodes[k].report.psuOutputUw.Some? then nodes[k].report.psuOutputUw.value else 0
  }

  /** CPU, memory and GPU power of a node together. */
  function UsedAt(nodes: map<NodeKey, NodeState>): NodeKey -> int
  {
    (k: NodeKey) => CpuAt(nodes)(k) + MemoryAt(nodes)(k) + GpuAt(nodes)(k)
  }

  function ErrorAt(nodes: map<NodeKey, NodeState>): NodeKey -> real
  {
    (k: NodeKey) => if k in nodes then nodes[k].report.errorRatio else 0.0
  }

  /** The parts are sums over the nodes, and so is the total of CPU, memory and GPU; output and loss of the
      power supplies add up to the platform's power or to the output, whichever is more; the average error
      times the number of nodes is the sum of the errors. */
  ghost predicate IsClusterPower(r: ClusterPower, nodes: map<NodeKey, NodeState>, podCount: nat)
  {
    && r.cpu == SumI(nodes.Keys, CpuAt(nodes)) && r.memory == SumI(nodes.Keys, MemoryAt(nodes))
    && r.gpu == SumI(nodes.Keys, GpuAt(nodes)) && r.idle == SumI(nodes.Keys, IdleAt(nodes))
    && r.platform == SumI(nodes.Keys, PlatformAt(nodes)) && r.psuOutput == SumI(nodes.Keys, PsuOutputAt(nodes))
    && r.totalAttributed == SumI(nodes.Keys, UsedAt(nodes))
    && r.psuLoss >= 0 && r.psuOutput + r.psuLoss == (if r.platform > r.psuOutput then r.platform else r.psuOutput)
    && r.nodeCount == |nodes| && r.podCount == podCount
    && (if nodes == map[] then r.avgErrorRatio == 0.0
        else r.avgErrorRatio * |nodes| as real == SumR(nodes.Keys, ErrorAt(nodes)))
  }

  lemma ClusterPowerIs(nodes: map<NodeKey, NodeState>, podCount: nat)
    ensures IsClusterPower(ClusterPowerOf(nodes, podCount), nodes, podCount)
  {
    var n := nodes.Keys;
    FieldIs(nodes, CPU, CpuAt(nodes));
    FieldIs(nodes, MEMORY, MemoryAt(nodes));
    FieldIs(nodes, GPU, GpuAt(nodes));
    FieldIs(nodes, IDLE, IdleAt(nodes));
    FieldIs(nodes, PLATFORM, PlatformAt(nodes));
    FieldIs(nodes, PSU_OUTPUT, PsuOutputAt(nodes));
    UsedAddsUp(nodes);
    AverageIs(nodes);
  }

  lemma AverageIs(nodes: map<NodeKey, NodeState>)
    ensures |nodes| == |nodes.Keys| && (nodes == map[] <==> |nodes.Keys| == 0)
    ensures Errors(nodes.Keys, nodes) == SumR(nodes.Keys, ErrorAt(nodes))
    ensures nodes != map[] ==>
      Errors(nodes.Keys, nodes) / |nodes.Keys| as real * |nodes| as real == SumR(nodes.Keys, ErrorAt(nodes))
  {
    SumRSame(nodes.Keys, k => ErrorOf(nodes, k), ErrorAt(nodes));
  }

  lemma FieldIs(nodes: map<NodeKey, NodeState>, field: NodeReport -> int, f: NodeKey -> int)
    requires forall k :: k in nodes ==> f(k) == field(nodes[k].report)
    ensures Field(nodes.Keys, nodes, field) == SumI(nodes.Keys, f)
  {
    SumISame(nodes.Keys, k => FieldOf(nodes, k, field), f);
  }

  lemma UsedAddsUp(nodes: map<NodeKey, NodeState>)
    ensures SumI(nodes.Keys, UsedAt(nodes)) ==
      SumI(nodes.Keys, CpuAt(nodes)) + SumI(nodes.Keys, MemoryAt(nodes)) + SumI(nodes.Keys, GpuAt(nodes))
  {
    var both := (k: NodeKey) => CpuAt(nodes)(k) + MemoryAt(nodes)(k);
    SumIPlus(nodes.Keys, CpuAt(nodes), MemoryAt(nodes), both);
    SumIPlus(nodes.Keys, both, GpuAt(nodes), UsedAt(nodes));
  }

  /** The pods of one namespace. */
  function InNamespace(pods: map<PodKey, PodState>, namespace: string): set<PodKey>
  {
    set k | k in pods && pods[k].report.namespace == namespace
  }

  ghost function NamespaceTally(pods: map<PodKey, PodState>, namespace: string): Tally
  {
    Sum(InNamespace(pods, namespace), pods)
  }

  datatype NamespacePower = NamespacePower(namespace: string, tally: Tally)

  const TOTAL: NamespacePower -> int := (e: NamespacePower) => e.tally.total
  const NAME: NamespacePower -> string := (e: NamespacePower) => e.namespace

  /** What `namespace_power` must return for a set of pods: one entry per namespace that has a pod,
      each the sum of that namespace's pods, in descending order of total power. */
  ghost predicate IsNamespaceView(r: seq<NamespacePower>, pods: map<PodKey, PodState>)
  {
    && (forall i :: 0 <= i < |r| ==>
         InNamespace(pods, r[i].namespace) != {} && r[i].tally == NamespaceTally(pods, r[i].namespace))
    && UniqueBy(r, NAME)
    && (forall k :: k in pods ==> exists i :: 0 <= i < |r| && r[i].namespace == pods[k].report.namespace)
    && Descending(r, TOTAL)
  }

  datatype NodeSummary = NodeSummary(report: NodeReport, headroomUw: Option<nat>, lastSeen: int)

  /** One entry of `node_summaries`. */
  function Summarise(n: NodeState): NodeSummary
  {
    var r := n.report;
    var used := r.cpuUw + r.memoryUw + r.gpuUw;
    NodeSummary(r,
                match r.platformUw case None => None case Some(p) => Some(if p >= used then p - used else 0),
                n.receivedAt)
  }

  /** The headroom is what the platform's power exceeds CPU, memory and GPU power by, and nothing if it
      does not; there is one exactly if there is a platform reading. */
  lemma HeadroomIs(n: NodeState)
    ensures var r, h := n.report, Summarise(n).headroomUw;
      && Summarise(n).report == r && Summarise(n).lastSeen == n.receivedAt
      && (h.Some? <==> r.platformUw.Some?)
      && (h.Some? ==> if r.platformUw.value < r.cpuUw + r.memoryUw + r.gpuUw then h.value == 0
                      else h.value + r.cpuUw + r.memoryUw + r.gpuUw == r.platformUw.value)
  {
  }

  // Keys and reports agree.

  ghost predicate NodesAligned(s: State)
  {
    forall k :: k in s.nodes ==>
      k.name == s.nodes[k].report.nodeName && k.meter == MethodName(s.nodes[k].report.meteringMethod)
  }

  ghost predicate PodsAligned(s: State)
  {
    forall k :: k in s.pods ==> k.meter == MethodName(s.pods[k].report.meteringMethod)
  }

  /** A well-formed report: each pod carries no method or that of the node. */
  predicate Tagged(r: AgentReport)
  {
    forall i :: 0 <= i < |r.pods| ==>
      r.pods[i].meteringMethod == "" || r.pods[i].meteringMethod == MethodName(r.node.meteringMethod)
  }

  /** Each pod that the report is stored with carries no method or that of the node. */
  predicate EffectivelyTagged(r: AgentReport)
  {
    forall u :: u in Uids(r.pods) ==>
      var m := Reported(r.pods, u).value.meteringMethod;
      m == "" || m == MethodName(r.node.meteringMethod)
  }

  predicate AllTagged(ops: seq<Op>)
  {
    forall i :: 0 <= i < |ops| && ops[i].Ingest? ==> EffectivelyTagged(ops[i].report)
  }

  ghost predicate AlignedAt(s: State, k: PodKey)
  {
    PodAt(s, k).Some? ==> k.meter == MethodName(PodAt(s, k).value.report.meteringMethod)
  }

  lemma AlignedPointwise(s: State)
    ensures PodsAligned(s) <==> forall k :: AlignedAt(s, k)
  {
    if forall k :: AlignedAt(s, k) {
      forall k | k in s.pods ensures k.meter == MethodName(s.pods[k].report.meteringMethod) { assert AlignedAt(s, k); }
    }
  }

  /** Accepting a report keeps every stored pod under its own method exactly if the pods it lists
      carry no method or the node's own. */
  lemma AcceptKeepsAlignmentIff(s: State, r: AgentReport, now: int)
    requires PodsAligned(s)
    ensures PodsAligned(Accept(s, r, now)) <==> EffectivelyTagged(r)
  {
    var s', meter := Accept(s, r, now), MethodName(r.node.meteringMethod);
    AlignedPointwise(s');
    if EffectivelyTagged(r) {
      forall k ensures AlignedAt(s', k) { TaggedAligned(s, r, now, k); }
    } else {
      var u :| u in Uids(r.pods) && Reported(r.pods, u).value.meteringMethod !in {"", meter};
      UntaggedAccepted(s, r, now, u);
      assert !AlignedAt(s', PodKey(u, meter));
    }
  }

  lemma TaggedAligned(s: State, r: AgentReport, now: int, k: PodKey)
    requires PodsAligned(s) && EffectivelyTagged(r)
    ensures AlignedAt(Accept(s, r, now), k)
  {
    var meter := MethodName(r.node.meteringMethod);
    AcceptAt(s, r, now, k);
    if k.meter == meter && k.uid in Uids(r.pods) {
      assert Reported(r.pods, k.uid).value.meteringMethod in {"", meter};
    }
  }

  lemma UntaggedAccepted(s: State, r: AgentReport, now: int, u: string)
    requires u in Uids(r.pods)
    requires Reported(r.pods, u).value.meteringMethod !in {"", MethodName(r.node.meteringMethod)}
    ensures var p := PodAt(Accept(s, r, now), PodKey(u, MethodName(r.node.meteringMethod)));
      && p.Some? && p.value.receivedAt == now
      && MethodName(p.value.report.meteringMethod) != MethodName(r.node.meteringMethod)
  {
    AcceptAt(s, r, now, PodKey(u, MethodName(r.node.meteringMethod)));
  }

  lemma {:induction false} RunKeepsAlignment(ops: seq<Op>)
    ensures NodesAligned(Run(ops))
    ensures AllTagged(ops) ==> PodsAligned(Run(ops))
  {
    if ops != [] {
      var prefix, op := ops[..|ops| - 1], ops[|ops| - 1];
      RunKeepsAlignment(prefix);
      if op.Ingest? && AllTagged(ops) {
        assert EffectivelyTagged(ops[|ops| - 1].report);
        assert AllTagged(prefix);
        AcceptKeepsAlignmentIff(Run(prefix), op.report, op.now);
      }
    }
  }

  /** Well-formed reports are more than enough. */
  lemma TaggedIsEffective(r: AgentReport)
    requires Tagged(r)
    ensures EffectivelyTagged(r)
  {
    forall u | u in Uids(r.pods)
      ensures var m := Reported(r.pods, u).value.meteringMethod; m == "" || m == MethodName(r.node.meteringMethod)
    {
      var p := Reported(r.pods, u).value;
      var i :| 0 <= i < |r.pods| && r.pods[i] == p;
    }
  }

  /** On aligned states, filtering by the method in the reports is taking the slice of that method. */
  lemma FilterIsSlice(s: State, filter: Option<string>)
    requires NodesAligned(s)
    ensures NodesOf(s, filter) == Only(s, filter.UnwrapOr("keck")).nodes
    ensures PodsAligned(s) ==> PodsOf(s, filter) == Only(s, filter.UnwrapOr("keck")).pods
  {
  }

  lemma OnlyTwice(s: State, meter: string, t: int)
    requires NodesAligned(s)
    ensures Only(Only(s, meter), meter) == Only(s, meter)
    ensures NodesAligned(EvictStale(s, t)) && (PodsAligned(s) ==> PodsAligned(EvictStale(s, t)))
  {
  }

  /** The state of a method replayed alone and evicted at the time of the last eviction. */
  function Alone(ops: seq<Op>, meter: string): State
  {
    var s := Run(OnlyOps(ops, meter));
    match LastEviction(ops) case None => s case Some(t) => EvictStale(s, t)
  }

  lemma {:induction false} OnlyOpsKeepsTags(ops: seq<Op>, meter: string)
    requires AllTagged(ops)
    ensures AllTagged(OnlyOps(ops, meter))
  {
    if ops != [] {
      OnlyOpsKeepsTags(ops[..|ops| - 1], meter);
    }
  }

  /** The views of a method depend on its own reports, the node removals and the time alone: what is
      shown after any run is what is shown after the method's own run. The node views need no
      assumption on the reports; the pod views need pods tagged with their node's method. */
  lemma ViewsAreIsolated(ops: seq<Op>, filter: Option<string>)
    requires Clocked(ops)
    ensures NodesOf(Run(ops), filter) == NodesOf(Alone(ops, filter.UnwrapOr("keck")), filter)
    ensures AllTagged(ops) ==> PodsOf(Run(ops), filter) == PodsOf(Alone(ops, filter.UnwrapOr("keck")), filter)
    ensures AllTagged(ops) ==>
      ClusterPowerOf(NodesOf(Run(ops), filter), |PodsOf(Run(ops), filter)|) ==
      var a := Alone(ops, filter.UnwrapOr("keck"));
      ClusterPowerOf(NodesOf(a, filter), |PodsOf(a, filter)|)
    ensures AllTagged(ops) ==> forall r ::
      IsNamespaceView(r, PodsOf(Run(ops), filter)) <==>
      IsNamespaceView(r, PodsOf(Alone(ops, filter.UnwrapOr("keck")), filter))
  {
    var meter := filter.UnwrapOr("keck");
    var s, mine := Run(ops), Run(OnlyOps(ops, meter));
    MethodsAreIsolated(ops, meter);
    RunKeepsAlignment(ops);
    RunKeepsAlignment(OnlyOps(ops, meter));
    if AllTagged(ops) { OnlyOpsKeepsTags(ops, meter); }
    var t := LastEviction(ops).UnwrapOr(0);
    OnlyTwice(mine, meter, t);
    OnlyTwice(s, meter, t);
    FilterIsSlice(s, filter);
    FilterIsSlice(Alone(ops, meter), filter);
    assert Alone(ops, meter) == Only(s, meter);
  }

  /** The pod views of a run are isolated: for every method they are those of the method's own run. */
  ghost predicate PodViewsIsolated(ops: seq<Op>)
  {
    forall filter: Option<string> :: PodsOf(Run(ops), filter) == PodsOf(Alone(ops, filter.UnwrapOr("keck")), filter)
  }

  lemma AloneIsTheSlice(ops: seq<Op>, meter: string)
    requires Clocked(ops)
    ensures Alone(ops, meter) == Only(Run(ops), meter)
  {
    MethodsAreIsolated(ops, meter);
  }

  /** The pod views are isolated exactly if every stored pod says the method it is stored under. */
  lemma PodViewsIsolatedIff(ops: seq<Op>)
    requires Clocked(ops)
    ensures PodViewsIsolated(ops) <==> PodsAligned(Run(ops))
  {
    var s := Run(ops);
    if PodsAligned(s) {
      forall filter: Option<string> ensures PodsOf(s, filter) == PodsOf(Alone(ops, filter.UnwrapOr("keck")), filter) {
        AloneIsTheSlice(ops, filter.UnwrapOr("keck"));
        SliceShowsTheSame(s, filter);
      }
    }
    if PodViewsIsolated(ops) {
      forall k | k in s.pods ensures k.meter == MethodName(s.pods[k].report.meteringMethod) {
        var filter := Some(MethodName(s.pods[k].report.meteringMethod));
        AloneIsTheSlice(ops, filter.value);
        assert PodsOf(s, filter) == PodsOf(Alone(ops, filter.UnwrapOr("keck")), filter);
        ShownMeansSliced(s, filter, k);
      }
    }
  }

  /** Evictions spare the report that triggers them. */
  predicate Prompt(ops: seq<Op>)
  {
    forall i :: 0 <= i < |ops| && ops[i].Ingest? ==> ops[i].later < ops[i].now + STALENESS
  }

  /** The pod views are isolated throughout a run exactly if every reported pod carries no method or that of
      its node. */
  lemma AlwaysIsolatedIff(ops: seq<Op>)
    requires Clocked(ops) && Prompt(ops)
    ensures (forall n :: 0 <= n <= |ops| ==> PodViewsIsolated(ops[..n])) <==> AllTagged(ops)
  {
    if AllTagged(ops) {
      forall n | 0 <= n <= |ops| ensures PodViewsIsolated(ops[..n]) { TaggedPrefix(ops, n); }
    } else {
      var i :| 0 <= i < |ops| && ops[i].Ingest? && !EffectivelyTagged(ops[i].report);
      UntaggedPrefix(ops, i);
    }
  }

  lemma TaggedPrefix(ops: seq<Op>, n: nat)
    requires Clocked(ops) && AllTagged(ops) && n <= |ops|
    ensures PodViewsIsolated(ops[..n])
  {
    ClockedPrefix(ops, n);
    assert AllTagged(ops[..n]);
    RunKeepsAlignment(ops[..n]);
    PodViewsIsolatedIff(ops[..n]);
  }

  lemma UntaggedPrefix(ops: seq<Op>, i: nat)
    requires Clocked(ops) && Prompt(ops) && i < |ops| && ops[i].Ingest? && !EffectivelyTagged(ops[i].report)
    ensures !PodViewsIsolated(ops[..i + 1])
  {
    ClockedPrefix(ops, i + 1);
    RunPrefix(ops, i);
    UntaggedStays(Run(ops[..i]), ops[i]);
    PodViewsIsolatedIff(ops[..i + 1]);
  }

  lemma RunPrefix(ops: seq<Op>, i: nat)
    requires i < |ops|
    ensures Run(ops[..i + 1]) == Apply(Run(ops[..i]), ops[i])
  {
    assert ops[..i + 1][..i] == ops[..i];
  }

  lemma {:induction false} ClockedPrefix(ops: seq<Op>, n: nat)
    requires Clocked(ops) && n <= |ops|
    ensures Clocked(ops[..n])
  {
    if n < |ops| {
      ClockedPrefix(ops[..|ops| - 1], n);
      assert ops[..|ops| - 1][..n] == ops[..n];
    } else {
      assert ops[..n] == ops;
    }
  }

  lemma UntaggedStays(s: State, op: Op)
    requires op.Ingest? && op.later < op.now + STALENESS && !EffectivelyTagged(op.report)
    ensures !PodsAligned(Apply(s, op))
  {
    var r, meter := op.report, MethodName(op.report.node.meteringMethod);
    var u :| u in Uids(r.pods) && Reported(r.pods, u).value.meteringMethod !in {"", meter};
    UntaggedAccepted(s, r, op.now, u);
    EvictAt(Accept(s, r, op.now), op.later, PodKey(u, meter));
    AlignedPointwise(Apply(s, op));
    assert !AlignedAt(Apply(s, op), PodKey(u, meter));
  }

  lemma SliceShowsTheSame(s: State, filter: Option<string>)
    requires PodsAligned(s)
    ensures PodsOf(s, filter) == PodsOf(Only(s, filter.UnwrapOr("keck")), filter)
  {
  }

  lemma ShownMeansSliced(s: State, filter: Option<string>, k: PodKey)
    requires k in s.pods && Matches(s.pods[k].report.meteringMethod, filter)
    requires PodsOf(s, filter) == PodsOf(Only(s, filter.UnwrapOr("keck")), filter)
    ensures k.meter == filter.UnwrapOr("keck")
  {
    assert k in PodsOf(s, filter);
  }

  lemma OnlyReport(ops: seq<Op>, pod: PodReport)
    requires |ops| == 1 && ops[0].Ingest? && ops[0].now == ops[0].later && ops[0].report.pods == [pod]
    requires ops[0].report.node.meteringMethod == "keck" && pod.meteringMethod == "kepler"
    ensures PodAt(Run(ops), PodKey(pod.podUid, "keck")) == Some(PodState(pod, ops[0].now))
  {
    var op := ops[0];
    var r, k := op.report, PodKey(pod.podUid, "keck");
    assert ops[..0] == [];
    assert r.pods[0] == pod;
    assert Reported(r.pods, pod.podUid) == Some(pod);
    AcceptAt(EMPTY, r, op.now, k);
    EvictAt(Accept(EMPTY, r, op.now), op.later, k);
    assert Run(ops) == Apply(EMPTY, op) by { assert Run([]) == EMPTY; }
  }

  /** Without the tags a report of one method shows up in the views of another: a keck report whose
      pod says kepler is counted for kepler, which never reported anything. */
  lemma UntaggedReportLeaks(ops: seq<Op>, pod: PodReport)
    requires |ops| == 1 && ops[0].Ingest? && ops[0].now == ops[0].later && ops[0].report.pods == [pod]
    requires ops[0].report.node.meteringMethod == "keck" && pod.meteringMethod == "kepler"
    ensures Clocked(ops) && |PodsOf(Run(ops), Some("kepler"))| != |PodsOf(Alone(ops, "kepler"), Some("kepler"))|
  {
    var k := PodKey(pod.podUid, "keck");
    OnlyReport(ops, pod);
    assert Clocked(ops) by { assert ops[..0] == []; }
    assert OnlyOps(ops, "kepler") == [] by { assert ops[..0] == []; }
    assert k in PodsOf(Run(ops), Some("kepler"));
    assert PodsOf(Alone(ops, "kepler"), Some("kepler")) == map[];
  }
}
