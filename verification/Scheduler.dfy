/** The scheduler extender: which nodes may take a pod and how they score, over every state of the
    aggregator. */
module Scheduler {
  import opened Options
  import opened Sums
  import opened Aggregator
  import opened Tallies
  import opened ClusterViews
  import opened AggregatorObject
  import opened Scores

  /** Budgets in watts, by namespace. */
  datatype Config = Config(weights: Weights, strategy: Strategy, budgets: map<string, real>)

  const KECK: Option<string> := Some("keck")

  /** The power data of a node, if it has reported. */
  function DataOf(s: State, name: string): Option<NodeSummary>
  {
    var k := NodeKey(name, "keck");
    if k in s.nodes then Some(Summarise(s.nodes[k])) else None
  }

  /** The namespace's power in watts. */
  ghost function NamespaceWatts(s: State, namespace: string): real
  {
    NamespaceTally(PodsOf(s, KECK), namespace).total as real / 1_000_000.0
  }

  datatype Reason = Unreliable(errorRatio: real) | BudgetExceeded(watts: real, budget: real)

  /** Why a node is refused. A node without data is not. */
  function Verdict(data: Option<NodeSummary>, budgets: map<string, real>, namespace: string,
                   watts: real): Option<Reason>
  {
    if data.None? then None
    else if data.value.report.errorRatio > 0.5 then Some(Unreliable(data.value.report.errorRatio))
    else if namespace in budgets && watts >= budgets[namespace] then Some(BudgetExceeded(watts, budgets[namespace]))
    else None
  }

  /** A node may take the pod. */
  ghost predicate Passes(s: State, c: Config, namespace: string, name: string)
  {
    DataOf(s, name).None? ||
    (DataOf(s, name).value.report.errorRatio <= 0.5 &&
      (namespace in c.budgets ==> NamespaceWatts(s, namespace) < c.budgets[namespace]))
  }

  /** The candidates that pass, in order. */
  ghost function Passing(s: State, c: Config, namespace: string, candidates: seq<string>): seq<string>
  {
    if candidates == [] then []
    else
      var rest, name := Passing(s, c, namespace, candidates[..|candidates| - 1]), candidates[|candidates| - 1];
      if Passes(s, c, namespace, name) then rest + [name] else rest
  }

  /** The candidates that do not. */
  ghost predicate Refused(s: State, c: Config, namespace: string, candidates: seq<string>, failed: map<string, Reason>)
  {
    && (forall name :: name in failed <==> name in candidates && !Passes(s, c, namespace, name))
    && (forall name :: name in failed ==>
          Some(failed[name]) == Verdict(DataOf(s, name), c.budgets, namespace, NamespaceWatts(s, namespace)))
  }

  lemma {:induction false} PassingOnly(s: State, c: Config, namespace: string, candidates: seq<string>, name: string)
    ensures name in Passing(s, c, namespace, candidates) <==> name in candidates && Passes(s, c, namespace, name)
  {
    if candidates != [] {
      var n := |candidates| - 1;
      PassingOnly(s, c, namespace, candidates[..n], name);
      assert candidates == candidates[..n] + [candidates[n]];
    }
  }

  /** Every candidate is passed or refused, and none is both. */
  lemma FilterSplits(s: State, c: Config, namespace: string, candidates: seq<string>, failed: map<string, Reason>,
                     name: string)
    requires Refused(s, c, namespace, candidates, failed)
    ensures name in candidates <==> name in Passing(s, c, namespace, candidates) || name in failed
    ensures !(name in Passing(s, c, namespace, candidates) && name in failed)
  {
    PassingOnly(s, c, namespace, candidates, name);
  }

  /** The passing candidates keep their order and number. */
  lemma {:induction false} PassingInOrder(s: State, c: Config, namespace: string, a: seq<string>, b: seq<string>)
    ensures Passing(s, c, namespace, a + b) == Passing(s, c, namespace, a) + Passing(s, c, namespace, b)
    decreases |b|
  {
    if b == [] {
      assert a + b == a;
    } else {
      var n := |b| - 1;
      assert a + b == (a + b[..n]) + [b[n]] && (a + b)[..|a + b| - 1] == a + b[..n];
      PassingInOrder(s, c, namespace, a, b[..n]);
    }
  }

  /** The keck pods of a namespace; a pod without a method is one. */
  ghost function KeckPods(s: State, namespace: string): set<PodKey>
  {
    set k | k in s.pods && s.pods[k].report.namespace == namespace &&
            (s.pods[k].report.meteringMethod == "" || s.pods[k].report.meteringMethod == "keck")
  }

  ghost function MicrowattsOf(s: State, namespace: string): int
  {
    SumI(KeckPods(s, namespace), ReadingAt(s.pods, OfTotal))
  }

  lemma WattsAre(s: State, namespace: string)
    ensures NamespaceWatts(s, namespace) * 1_000_000.0 == MicrowattsOf(s, namespace) as real
  {
    var pods := PodsOf(s, KECK);
    assert InNamespace(pods, namespace) == KeckPods(s, namespace);
    SumIs(KeckPods(s, namespace), pods, OfTotal);
    SumISame(KeckPods(s, namespace), ReadingAt(pods, OfTotal), ReadingAt(s.pods, OfTotal));
  }

  /** A node is refused if and only if it has reported and either its metering is off by more than half, or
      the namespace has used up its budget. */
  ghost predicate MustRefuse(s: State, c: Config, namespace: string, name: string)
  {
    var k := NodeKey(name, "keck");
    && k in s.nodes
    && (s.nodes[k].report.errorRatio > 0.5 ||
        (namespace in c.budgets && MicrowattsOf(s, namespace) as real >= c.budgets[namespace] * 1_000_000.0))
  }

  /** The reason tells which, unreliable metering first. */
  ghost predicate IsReason(r: Reason, s: State, c: Config, namespace: string, report: NodeReport)
  {
    match r
    case Unreliable(errorRatio) => errorRatio == report.errorRatio > 0.5
    case BudgetExceeded(watts, budget) =>
      && report.errorRatio <= 0.5 && namespace in c.budgets && budget == c.budgets[namespace]
      && watts * 1_000_000.0 == MicrowattsOf(s, namespace) as real
  }

  lemma RefusedIff(s: State, c: Config, namespace: string, candidates: seq<string>, failed: map<string, Reason>,
                   name: string)
    requires Refused(s, c, namespace, candidates, failed)
    ensures name in failed <==> name in candidates && MustRefuse(s, c, namespace, name)
    ensures name in failed ==>
      IsReason(failed[name], s, c, namespace, s.nodes[NodeKey(name, "keck")].report)
  {
    WattsAre(s, namespace);
  }

  class PowerScheduler {
    const aggregator: ClusterAggregator
    const config: Config

    constructor (aggregator: ClusterAggregator, config: Config)
      ensures this.aggregator == aggregator && this.config == config
    {
      this.aggregator, this.config := aggregator, config;
    }

    ghost function Value(): State
      reads aggregator
    {
      State(aggregator.pods, aggregator.nodes)
    }

    /** The name to summary map that both operations build. */
    method NodeMap() returns (m: map<string, NodeSummary>)
      requires aggregator.Valid()
      ensures IsNodeMap(m, Value())
    {
      RunKeepsAlignment(aggregator.ops);
      var nodes, from := aggregator.NodeSummaries(KECK);
      KeckNodes(Value());
      m := map[];
      for i := 0 to |nodes|
        invariant MapsUpTo(m, from, i, Value())
      {
        MapsOneMore(m, from, i, Value());
        m := m[nodes[i].report.nodeName := nodes[i]];
      }
      MapsAll(m, from, Value());
    }

    /** The namespace's entry in `namespace_power`, in watts; zero without one. */
    method CurrentPower(namespace: string) returns (watts: real)
      ensures watts == NamespaceWatts(Value(), namespace)
    {
      var entries := aggregator.NamespacePowerView(KECK);
      for i := 0 to |entries|
        invariant forall j :: 0 <= j < i ==> entries[j].namespace != namespace
      {
        if entries[i].namespace == namespace {
          return entries[i].tally.total as real / 1_000_000.0;
        }
      }
      NoPodsNoPower(entries, PodsOf(Value(), KECK), namespace);
      return 0.0;
    }

    /** `filter`. */
    method Filter(candidates: seq<string>, namespace: string) returns (passed: seq<string>, failed: map<string, Reason>)
      requires aggregator.Valid()
      ensures passed == Passing(Value(), config, namespace, candidates)
      ensures Refused(Value(), config, namespace, candidates, failed)
    {
      var m := NodeMap();
      var watts := CurrentPower(namespace);
      passed, failed := [], map[];
      for i := 0 to |candidates|
        invariant passed == Passing(Value(), config, namespace, candidates[..i])
        invariant Refused(Value(), config, namespace, candidates[..i], failed)
      {
        var name := candidates[i];
        assert candidates[..i + 1][..i] == candidates[..i];
        FilterOne(Value(), config, namespace, candidates, i, failed);
        if name !in m {
          passed := passed + [name];
          continue;
        }
        if m[name].report.errorRatio > 0.5 {
          failed := failed[name := Unreliable(m[name].report.errorRatio)];
          continue;
        }
        if namespace in config.budgets && watts >= config.budgets[namespace] {
          failed := failed[name := BudgetExceeded(watts, config.budgets[namespace])];
          continue;
        }
        passed := passed + [name];
      }
      assert candidates[..|candidates|] == candidates;
    }

    /** `prioritize`: one score per candidate, in order. */
    method Prioritize(candidates: seq<string>) returns (scores: seq<nat>)
      requires aggregator.Valid()
      ensures |scores| == |candidates|
      ensures forall i :: 0 <= i < |scores| ==> scores[i] == ScoreOf(Value(), config, candidates[i]) <= 100
      ensures forall i :: 0 <= i < |scores| && NodeKey(candidates[i], "keck") !in aggregator.nodes ==> scores[i] == 50
    {
      var m := NodeMap();
      scores := seq(|candidates|, i requires 0 <= i < |candidates| =>
        if candidates[i] in m then Score(config.strategy, config.weights, m[candidates[i]]) else 50);
    }
  }

  /** A node without data gets a neutral score. */
  function ScoreOf(s: State, c: Config, name: string): nat
  {
    if DataOf(s, name).Some? then Score(c.strategy, c.weights, DataOf(s, name).value) else 50
  }

  /** m holds the data of exactly the nodes that have some. */
  ghost predicate IsNodeMap(m: map<string, NodeSummary>, s: State)
  {
    forall name :: DataOf(s, name) == if name in m then Some(m[name]) else None
  }

  lemma KeckNodes(s: State)
    requires NodesAligned(s)
    ensures forall k :: k in NodesOf(s, KECK).Keys <==> k in s.nodes && k.meter == "keck"
  {
  }

  ghost predicate MapsUpTo(m: map<string, NodeSummary>, from: seq<NodeKey>, i: nat, s: State)
  {
    && i <= |from|
    && (forall name :: name in m <==> NodeKey(name, "keck") in from[..i])
    && (forall name :: name in m ==> Some(m[name]) == DataOf(s, name))
  }

  lemma MapsOneMore(m: map<string, NodeSummary>, from: seq<NodeKey>, i: nat, s: State)
    requires i < |from| && MapsUpTo(m, from, i, s) && NodesAligned(s) && from[i] in s.nodes && from[i].meter == "keck"
    ensures MapsUpTo(m[s.nodes[from[i]].report.nodeName := Summarise(s.nodes[from[i]])], from, i + 1, s)
  {
    assert from[..i + 1] == from[..i] + [from[i]];
    assert from[i] == NodeKey(s.nodes[from[i]].report.nodeName, "keck");
  }

  lemma MapsAll(m: map<string, NodeSummary>, from: seq<NodeKey>, s: State)
    requires MapsUpTo(m, from, |from|, s) && forall k :: k in s.nodes && k.meter == "keck" ==> k in from
    ensures IsNodeMap(m, s)
  {
    assert from[..|from|] == from;
    forall name ensures DataOf(s, name) == if name in m then Some(m[name]) else None {
      if NodeKey(name, "keck") in s.nodes { assert NodeKey(name, "keck").meter == "keck"; }
    }
  }

  lemma NoPodsNoPower(entries: seq<NamespacePower>, pods: map<PodKey, PodState>, namespace: string)
    requires IsNamespaceView(entries, pods) && forall j :: 0 <= j < |entries| ==> entries[j].namespace != namespace
    ensures NamespaceTally(pods, namespace) == ZERO
  {
    assert InNamespace(pods, namespace) == {};
  }

  /** One candidate more. */
  lemma FilterOne(s: State, c: Config, namespace: string, candidates: seq<string>, i: nat, failed: map<string, Reason>)
    requires i < |candidates| && Refused(s, c, namespace, candidates[..i], failed)
    ensures var name := candidates[i];
      var reason := Verdict(DataOf(s, name), c.budgets, namespace, NamespaceWatts(s, namespace));
      && (reason.None? <==> Passes(s, c, namespace, name))
      && Refused(s, c, namespace, candidates[..i + 1], if reason.Some? then failed[name := reason.value] else failed)
  {
    assert candidates[..i + 1] == candidates[..i] + [candidates[i]];
  }
}
