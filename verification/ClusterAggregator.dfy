/** The aggregator object: operations that change the store in place and the views that read it.
    The ghost history ties every state to the runs that Aggregator, PodOwnership and ClusterViews
    reason about. */
module AggregatorObject {
  import opened Options
  import opened Sums
  import opened Entries
  import opened Aggregator
  import opened Tallies
  import opened ClusterViews

  lemma UpsertAt(pods: map<PodKey, PodState>, reported: seq<PodReport>, meter: string, now: int, k: PodKey)
    ensures var after := Upsert(pods, reported, meter, now);
            if k.meter == meter && k.uid in Uids(reported)
            then k in after && after[k] == PodState(Stamp(Reported(reported, k.uid).value, meter), now)
            else (k in after <==> k in pods) && (k in pods ==> after[k] == pods[k])
  {
  }

  lemma UpsertOneMore(pods: map<PodKey, PodState>, reported: seq<PodReport>, p: PodReport, meter: string, now: int)
    ensures Upsert(pods, reported + [p], meter, now) ==
            Upsert(pods, reported, meter, now)[PodKey(p.podUid, meter) := PodState(Stamp(p, meter), now)]
  {
    var left := Upsert(pods, reported + [p], meter, now);
    var right := Upsert(pods, reported, meter, now)[PodKey(p.podUid, meter) := PodState(Stamp(p, meter), now)];
    forall k ensures (k in left <==> k in right) && (k in left ==> left[k] == right[k]) {
      UpsertOneMoreAt(pods, reported, p, meter, now, k);
    }
  }

  lemma UpsertOneMoreAt(pods: map<PodKey, PodState>, reported: seq<PodReport>, p: PodReport, meter: string, now: int,
                        k: PodKey)
    ensures
      var left := Upsert(pods, reported + [p], meter, now);
      var right := Upsert(pods, reported, meter, now)[PodKey(p.podUid, meter) := PodState(Stamp(p, meter), now)];
      (k in left <==> k in right) && (k in left ==> left[k] == right[k])
  {
    KeysOneMore(reported, p, UidOf);
    UpsertAt(pods, reported + [p], meter, now, k);
    UpsertAt(pods, reported, meter, now, k);
    assert (reported + [p])[..|reported|] == reported;
  }

  /** The accumulators of `cluster_power`. */
  datatype NodeSums = NodeSums(cpu: int, memory: int, gpu: int, platform: int, psuOutput: int, idle: int,
                               errors: real, count: nat)

  function AddNode(a: NodeSums, n: NodeReport): NodeSums
  {
    NodeSums(a.cpu + n.cpuUw, a.memory + n.memoryUw, a.gpu + n.gpuUw, a.platform + n.platformUw.UnwrapOr(0),
             a.psuOutput + n.psuOutputUw.UnwrapOr(0), a.idle + n.idleUw, a.errors + n.errorRatio, a.count + 1)
  }

  ghost function NodeSumsOf(done: set<NodeKey>, nodes: map<NodeKey, NodeState>): NodeSums
  {
    NodeSums(Field(done, nodes, CPU), Field(done, nodes, MEMORY), Field(done, nodes, GPU), Field(done, nodes, PLATFORM),
             Field(done, nodes, PSU_OUTPUT), Field(done, nodes, IDLE), Errors(done, nodes), |done|)
  }

  lemma OneMoreNode(done: set<NodeKey>, nodes: map<NodeKey, NodeState>, k: NodeKey)
    requires k !in done && k in nodes
    ensures NodeSumsOf(done + {k}, nodes) == AddNode(NodeSumsOf(done, nodes), nodes[k].report)
  {
    SumIAdd(done, k => FieldOf(nodes, k, CPU), k);
    SumIAdd(done, k => FieldOf(nodes, k, MEMORY), k);
    SumIAdd(done, k => FieldOf(nodes, k, GPU), k);
    SumIAdd(done, k => FieldOf(nodes, k, PLATFORM), k);
    SumIAdd(done, k => FieldOf(nodes, k, PSU_OUTPUT), k);
    SumIAdd(done, k => FieldOf(nodes, k, IDLE), k);
    SumRAdd(done, k => ErrorOf(nodes, k), k);
  }

  class ClusterAggregator {
    var pods: map<PodKey, PodState>
    var nodes: map<NodeKey, NodeState>
    ghost var ops: seq<Op>

    ghost predicate Valid()
      reads this
    {
      State(pods, nodes) == Run(ops)
    }

    constructor ()
      ensures Valid() && ops == []
    {
      pods, nodes, ops := map[], map[], [];
    }

    /** `ingest`: store the node, drop its pods that are no longer reported, store the reported pods,
        evict what is stale. */
    method Ingest(report: AgentReport, now: int, later: int)
      requires Valid()
      modifies this
      ensures Valid() && ops == old(ops) + [Op.Ingest(report, now, later)]
      ensures State(pods, nodes) == Apply(old(State(pods, nodes)), Op.Ingest(report, now, later))
    {
      var name := report.node.nodeName;
      var meter := if report.node.meteringMethod == "" then "keck" else report.node.meteringMethod;
      nodes := nodes[NodeKey(name, meter) := NodeState(report.node, now)];
      var reportedUids := Uids(report.pods);
      pods := map k | k in pods && !(k.meter == meter && pods[k].report.nodeName == name && k.uid !in reportedUids) ::
        pods[k];
      StorePods(report.pods, meter, now);
      EvictStale(later);
      ops := ops + [Op.Ingest(report, now, later)];
      assert ops[..|ops| - 1] == old(ops);
    }

    /** The loop of `ingest` over the reported pods. */
    method StorePods(reported: seq<PodReport>, meter: string, now: int)
      modifies this`pods
      ensures pods == Upsert(old(pods), reported, meter, now)
    {
      for i := 0 to |reported|
        invariant pods == Upsert(old(pods), reported[..i], meter, now)
      {
        assert reported[..i + 1] == reported[..i] + [reported[i]];
        UpsertOneMore(old(pods), reported[..i], reported[i], meter, now);
        var pod := reported[i];
        if pod.meteringMethod == "" {
          pod := pod.(meteringMethod := meter);
        }
        pods := pods[PodKey(pod.podUid, meter) := PodState(pod, now)];
      }
      assert reported[..|reported|] == reported;
    }

    /** `evict_stale`. */
    method EvictStale(now: int)
      modifies this`pods, this`nodes
      ensures State(pods, nodes) == Aggregator.EvictStale(old(State(pods, nodes)), now)
    {
      var threshold := now - STALENESS;
      pods := map k | k in pods && pods[k].receivedAt > threshold :: pods[k];
      nodes := map k | k in nodes && nodes[k].receivedAt > threshold :: nodes[k];
    }

    /** `evict_removed_nodes`. */
    method EvictRemovedNodes(live: seq<string>)
      requires Valid()
      modifies this
      ensures Valid() && ops == old(ops) + [RemoveNodes(live)]
      ensures State(pods, nodes) == KeepNodes(old(State(pods, nodes)), live)
      ensures forall k :: k in nodes <==> k in old(nodes) && k.name in live
      ensures forall k :: k in nodes ==> nodes[k] == old(nodes)[k]
      ensures forall k :: k in pods <==> k in old(pods) && old(pods)[k].report.nodeName in live
      ensures forall k :: k in pods ==> pods[k] == old(pods)[k]
    {
      nodes := map k | k in nodes && k.name in live :: nodes[k];
      pods := map k | k in pods && pods[k].report.nodeName in live :: pods[k];
      ops := ops + [RemoveNodes(live)];
      assert ops[..|ops| - 1] == old(ops);
    }

    /** `cluster_power`. */
    method ClusterPowerView(filter: Option<string>) returns (r: ClusterPower)
      ensures r == ClusterPowerOf(NodesOf(State(pods, nodes), filter), |PodsOf(State(pods, nodes), filter)|)
      ensures IsClusterPower(r, NodesOf(State(pods, nodes), filter), |PodsOf(State(pods, nodes), filter)|)
    {
      var sums := AddUpNodes(State(pods, nodes), filter);
      var counted := set k | k in pods && Matches(pods[k].report.meteringMethod, filter);
      assert counted == PodsOf(State(pods, nodes), filter).Keys;
      r := Summary(sums.cpu, sums.memory, sums.gpu, sums.platform, sums.psuOutput, sums.idle, sums.errors,
                   sums.count, |counted|);
      ClusterPowerIs(NodesOf(State(pods, nodes), filter), |counted|);
    }

    /** `namespace_power`. */
    method NamespacePowerView(filter: Option<string>) returns (r: seq<NamespacePower>)
      ensures IsNamespaceView(r, PodsOf(State(pods, nodes), filter))
    {
      var entries := GroupByNamespace(State(pods, nodes), filter);
      r := Listed(entries, NAME, TOTAL);
      GroupedIsView(r, entries, PodsOf(State(pods, nodes), filter));
    }

    /** `pods_in_namespace`: each matching report of the namespace once, and together they add up to
        its entry in `namespace_power`. */
    method PodsInNamespace(namespace: string, filter: Option<string>)
      returns (r: seq<PodReport>, ghost from: seq<PodKey>)
      ensures SumSeq(r) == NamespaceTally(PodsOf(State(pods, nodes), filter), namespace)
      ensures |from| == |r| && Enumerates(from, InNamespace(PodsOf(State(pods, nodes), filter), namespace))
      ensures forall i :: 0 <= i < |r| ==> from[i] in pods && r[i] == pods[from[i]].report
    {
      var mine := PodsOf(State(pods, nodes), filter);
      r, from := Collect(mine, InNamespace(mine, namespace));
    }

    /** `node_summaries`: each matching node once. */
    method NodeSummaries(filter: Option<string>) returns (r: seq<NodeSummary>, ghost from: seq<NodeKey>)
      ensures |r| == |NodesOf(State(pods, nodes), filter).Keys|
      ensures |from| == |r| && Enumerates(from, NodesOf(State(pods, nodes), filter).Keys)
      ensures forall i :: 0 <= i < |r| ==> from[i] in nodes && r[i] == Summarise(nodes[from[i]])
    {
      r, from := SummariseAll(NodesOf(State(pods, nodes), filter));
    }
  }

  /** The summaries of some nodes, in any order. */
  method SummariseAll(mine: map<NodeKey, NodeState>) returns (r: seq<NodeSummary>, ghost from: seq<NodeKey>)
    ensures |r| == |mine.Keys|
    ensures |from| == |r| && Enumerates(from, mine.Keys)
    ensures forall i :: 0 <= i < |r| ==> from[i] in mine && r[i] == Summarise(mine[from[i]])
  {
    var todo := mine.Keys;
    ghost var done: set<NodeKey> := {};
    r, from := [], [];
    while todo != {}
      invariant todo !! done && mine.Keys == todo + done
      invariant Summarised(mine, done, r, from)
    {
      var k :| k in todo;
      OneVisited(mine.Keys, todo, done, k);
      SummarisedOneMore(mine, done, r, from, k);
      todo, done := todo - {k}, done + {k};
      r, from := r + [Summarise(mine[k])], from + [k];
    }
    assert done == mine.Keys;
  }

  /** The summaries of the nodes in `done`, each once. */
  ghost predicate Summarised(mine: map<NodeKey, NodeState>, done: set<NodeKey>, r: seq<NodeSummary>, from: seq<NodeKey>)
  {
    && |from| == |r| == |done| && Enumerates(from, done)
    && forall i :: 0 <= i < |r| ==> from[i] in mine && r[i] == Summarise(mine[from[i]])
  }

  lemma SummarisedOneMore(mine: map<NodeKey, NodeState>, done: set<NodeKey>, r: seq<NodeSummary>, from: seq<NodeKey>,
                          k: NodeKey)
    requires Summarised(mine, done, r, from) && k in mine && k !in done
    ensures Summarised(mine, done + {k}, r + [Summarise(mine[k])], from + [k])
  {
    EnumeratesOneMore(from, done, k);
  }

  lemma EnumeratesOneMore<T(!new)>(from: seq<T>, keys: set<T>, k: T)
    requires Enumerates(from, keys) && k !in keys
    ensures Enumerates(from + [k], keys + {k})
  {
  }

  /** One pass over the nodes, in any order. */
  method AddUpNodes(s: State, filter: Option<string>) returns (sums: NodeSums)
    ensures sums == NodeSumsOf(NodesOf(s, filter).Keys, NodesOf(s, filter))
  {
    sums := NodeSums(0, 0, 0, 0, 0, 0, 0.0, 0);
    ghost var mine := NodesOf(s, filter);
    var todo := s.nodes.Keys;
    ghost var done: set<NodeKey> := {};
    while todo != {}
      invariant todo <= s.nodes.Keys && done == mine.Keys - todo
      invariant sums == NodeSumsOf(done, mine)
    {
      var k :| k in todo;
      OneDone(mine.Keys, todo, k);
      todo := todo - {k};
      if Matches(s.nodes[k].report.meteringMethod, filter) {
        OneMoreNode(done, mine, k);
        done := done + {k};
        sums := AddNode(sums, s.nodes[k].report);
      }
    }
    assert done == mine.Keys;
  }

  /** One pass over the pods, in any order. */
  method GroupByNamespace(s: State, filter: Option<string>) returns (entries: map<string, NamespacePower>)
    ensures Grouped(entries, PodsOf(s, filter), PodsOf(s, filter).Keys)
  {
    entries := map[];
    ghost var mine := PodsOf(s, filter);
    var todo := s.pods.Keys;
    ghost var done: set<PodKey> := {};
    while todo != {}
      invariant todo <= s.pods.Keys && done == mine.Keys - todo
      invariant Grouped(entries, mine, done)
    {
      var k :| k in todo;
      todo := todo - {k};
      if Matches(s.pods[k].report.meteringMethod, filter) {
        var ns := s.pods[k].report.namespace;
        GroupOneMore(entries, mine, done, k);
        done := done + {k};
        entries := entries[ns := Added(entries, ns, s.pods[k].report)];
      }
    }
    assert done == mine.Keys;
  }

  ghost predicate Enumerates<T(!new)>(from: seq<T>, keys: set<T>)
  {
    && (forall i, j :: 0 <= i < j < |from| ==> from[i] != from[j])
    && (forall k :: k in from <==> k in keys)
  }

  /** The reports stored under a set of keys, each once, in any order. */
  method Collect(pods: map<PodKey, PodState>, keys: set<PodKey>) returns (r: seq<PodReport>, ghost from: seq<PodKey>)
    requires keys <= pods.Keys
    ensures SumSeq(r) == Sum(keys, pods)
    ensures |from| == |r| && Enumerates(from, keys)
    ensures forall i :: 0 <= i < |r| ==> from[i] in pods && r[i] == pods[from[i]].report
  {
    r, from := [], [];
    var todo := keys;
    ghost var done: set<PodKey> := {};
    SumNone(pods);
    while todo != {}
      invariant todo !! done && keys == todo + done
      invariant SumSeq(r) == Sum(done, pods)
      invariant |from| == |r| && Enumerates(from, done)
      invariant forall i :: 0 <= i < |r| ==> from[i] in pods && r[i] == pods[from[i]].report
    {
      var k :| k in todo;
      SumAdd(done, pods, k);
      SumSeqOneMore(r, pods[k].report);
      todo, done := todo - {k}, done + {k};
      r, from := r + [pods[k].report], from + [k];
    }
  }

  lemma SumSeqOneMore(r: seq<PodReport>, p: PodReport)
    ensures SumSeq(r + [p]) == Plus(SumSeq(r), Of(p))
  {
    assert (r + [p])[..|r|] == r;
  }

  // The accumulator of namespace_power.

  /** The entry of ns after one more pod, starting from zero if there is none. */
  function Added(entries: map<string, NamespacePower>, ns: string, p: PodReport): NamespacePower
  {
    NamespacePower(ns, Plus(if ns in entries then entries[ns].tally else ZERO, Of(p)))
  }

  ghost predicate Grouped(entries: map<string, NamespacePower>, pods: map<PodKey, PodState>, done: set<PodKey>)
  {
    && done <= pods.Keys
    && (forall ns :: ns in entries <==> SoFar(pods, done, ns) != {})
    && (forall ns :: ns in entries ==> entries[ns] == NamespacePower(ns, Sum(SoFar(pods, done, ns), pods)))
  }

  ghost function SoFar(pods: map<PodKey, PodState>, done: set<PodKey>, ns: string): set<PodKey>
  {
    set k | k in done && k in pods && pods[k].report.namespace == ns
  }

  lemma GroupOneMore(entries: map<string, NamespacePower>, pods: map<PodKey, PodState>, done: set<PodKey>, k: PodKey)
    requires Grouped(entries, pods, done) && k in pods && k !in done
    ensures var ns := pods[k].report.namespace;
            Grouped(entries[ns := Added(entries, ns, pods[k].report)], pods, done + {k})
  {
    var ns := pods[k].report.namespace;
    forall n ensures SoFar(pods, done + {k}, n) == if n == ns then SoFar(pods, done, n) + {k}
      else SoFar(pods, done, n) { }
    SumAdd(SoFar(pods, done, ns), pods, k);
    if ns !in entries { SumNone(pods); }
  }

  lemma GroupedIsView(r: seq<NamespacePower>, entries: map<string, NamespacePower>, pods: map<PodKey, PodState>)
    requires Grouped(entries, pods, pods.Keys)
    requires Descending(r, TOTAL) && UniqueBy(r, NAME)
    requires forall e :: e in r <==> NAME(e) in entries && entries[NAME(e)] == e
    ensures IsNamespaceView(r, pods)
  {
    forall ns ensures SoFar(pods, pods.Keys, ns) == InNamespace(pods, ns) { }
    forall i | 0 <= i < |r|
      ensures InNamespace(pods, r[i].namespace) != {} && r[i].tally == NamespaceTally(pods, r[i].namespace)
    {
      assert r[i] in r;
    }
    forall k | k in pods ensures exists i :: 0 <= i < |r| && r[i].namespace == pods[k].report.namespace {
      var ns := pods[k].report.namespace;
      assert k in SoFar(pods, pods.Keys, ns);
      assert NAME(entries[ns]) == ns;
      assert entries[ns] in r;
    }
  }
}
