/** Which nodes and pods the controller holds after any run, said of the reports and removals alone. */
module NodePresence {
  import opened Options
  import opened Entries
  import opened Aggregator
  import opened PodOwnership

  /** The operation is a report of node n under its method; no method means keck. */
  predicate ReportsFor(op: Op, n: NodeKey)
  {
    op.Ingest? && op.report.node.nodeName == n.name && UnderMethod(op, n.meter)
  }

  predicate UnderMethod(op: Op, meter: string)
  {
    op.Ingest? &&
    if op.report.node.meteringMethod == "" then meter == "keck" else meter == op.report.node.meteringMethod
  }

  /** The last report of node n is the operation at i. */
  ghost predicate IsLatest(ops: seq<Op>, n: NodeKey, i: nat)
  {
    i < |ops| && ReportsFor(ops[i], n) && forall j :: i < j < |ops| ==> !ReportsFor(ops[j], n)
  }

  /** At every eviction since, its own included, the report was less than sixty seconds old, and every
      removal since lists the node as live. */
  ghost predicate Survives(ops: seq<Op>, n: NodeKey, i: nat)
    requires i < |ops| && ops[i].Ingest?
  {
    && (forall j :: i <= j < |ops| && ops[j].Ingest? ==> ops[j].later - ops[i].now < 60_000_000_000)
    && (forall j :: i < j < |ops| && ops[j].RemoveNodes? ==> n.name in ops[j].live)
  }

  function NodeAt(s: State, n: NodeKey): Option<NodeState>
  {
    if n in s.nodes then Some(s.nodes[n]) else None
  }

  lemma OwnReport(s: State, op: Op, n: NodeKey)
    requires ReportsFor(op, n)
    ensures NodeAt(Apply(s, op), n) ==
      if op.later - op.now < 60_000_000_000 then Some(NodeState(op.report.node, op.now)) else None
  {
  }

  lemma OtherStep(s: State, op: Op, n: NodeKey)
    requires !ReportsFor(op, n)
    ensures NodeAt(Apply(s, op), n) ==
      if n in s.nodes && (op.Ingest? ==> op.later - s.nodes[n].receivedAt < 60_000_000_000)
                      && (op.RemoveNodes? ==> n.name in op.live)
      then Some(s.nodes[n]) else None
  {
  }

  /** A node is in the state if and only if its latest report is fresh at every later eviction and every
      removal since lists the node; the entry is that report, with the time it came. */
  lemma {:induction false} NodeIsHeldIff(ops: seq<Op>, n: NodeKey, i: nat)
    requires IsLatest(ops, n, i)
    ensures n in Run(ops).nodes <==> Survives(ops, n, i)
    ensures n in Run(ops).nodes ==> Run(ops).nodes[n] == NodeState(ops[i].report.node, ops[i].now)
  {
    var m := |ops| - 1;
    var prefix, op := ops[..m], ops[m];
    if i == m {
      OwnReport(Run(prefix), op, n);
    } else {
      assert IsLatest(prefix, n, i);
      NodeIsHeldIff(prefix, n, i);
      OtherStep(Run(prefix), op, n);
      SurvivesOneMore(ops, n, i);
    }
  }

  lemma SurvivesOneMore(ops: seq<Op>, n: NodeKey, i: nat)
    requires i < |ops| - 1 && ops[i].Ingest?
    ensures var op := ops[|ops| - 1];
      Survives(ops, n, i) <==>
        && Survives(ops[..|ops| - 1], n, i)
        && (op.Ingest? ==> op.later - ops[i].now < 60_000_000_000) && (op.RemoveNodes? ==> n.name in op.live)
  {
    var prefix := ops[..|ops| - 1];
    assert forall j :: 0 <= j < |prefix| ==> prefix[j] == ops[j];
    if Survives(ops, n, i) {
      assert forall j :: i <= j < |prefix| && prefix[j].Ingest? ==> ops[j].Ingest?;
      assert forall j :: i < j < |prefix| && prefix[j].RemoveNodes? ==> ops[j].RemoveNodes?;
    }
  }

  /** A node that never reported is not in the state. */
  lemma {:induction false} NeverReported(ops: seq<Op>, n: NodeKey)
    requires forall j :: 0 <= j < |ops| ==> !ReportsFor(ops[j], n)
    ensures n !in Run(ops).nodes
  {
    if ops != [] {
      NeverReported(ops[..|ops| - 1], n);
      OtherStep(Run(ops[..|ops| - 1]), ops[|ops| - 1], n);
    }
  }

  // The pods.

  function IsPod(u: string): PodReport -> bool
  {
    (p: PodReport) => p.podUid == u
  }

  /** Another node reported the pod later, under the same method. */
  ghost predicate Taken(ops: seq<Op>, n: NodeKey, i: nat, u: string)
  {
    exists j :: i < j < |ops| && UnderMethod(ops[j], n.meter) && Has(ops[j].report.pods, IsPod(u))
  }

  lemma UidsAre(pods: seq<PodReport>, u: string)
    ensures u in Uids(pods) <==> Has(pods, IsPod(u))
  {
    if i :| 0 <= i < |pods| && pods[i].podUid == u { assert UidOf(pods[i]) == u; }
  }

  lemma {:induction false} ReportedIsTheLast(pods: seq<PodReport>, u: string, k: nat)
    requires IsLast(pods, k, IsPod(u))
    ensures Reported(pods, u) == Some(pods[k])
  {
    LastEntry(pods, IsPod(u));
    if k < |pods| - 1 { ReportedIsTheLast(pods[..|pods| - 1], u, k); }
  }

  lemma {:induction false} LatestAndReclaimed(ops: seq<Op>, n: NodeKey, i: nat, u: string)
    requires IsLatest(ops, n, i)
    ensures Latest(ops, n) == Some(ops[i].report)
    ensures u in Reclaimed(ops, n) <==> Taken(ops, n, i, u)
  {
    var m := |ops| - 1;
    var prefix, op := ops[..m], ops[m];
    if i < m {
      assert IsLatest(prefix, n, i);
      LatestAndReclaimed(prefix, n, i, u);
      if op.Ingest? { UidsAre(op.report.pods, u); }
      TakenOneMore(ops, n, i, u);
    }
  }

  lemma TakenOneMore(ops: seq<Op>, n: NodeKey, i: nat, u: string)
    requires i < |ops| - 1
    ensures var op := ops[|ops| - 1];
      Taken(ops, n, i, u) <==>
        Taken(ops[..|ops| - 1], n, i, u) || (UnderMethod(op, n.meter) && Has(op.report.pods, IsPod(u)))
  {
    var m := |ops| - 1;
    var prefix := ops[..m];
    if j :| i < j < |prefix| && UnderMethod(prefix[j], n.meter) && Has(prefix[j].report.pods, IsPod(u)) {
      assert UnderMethod(ops[j], n.meter) && Has(ops[j].report.pods, IsPod(u));
    }
    if j :| i < j < |ops| && UnderMethod(ops[j], n.meter) && Has(ops[j].report.pods, IsPod(u)) {
      assert j == m || (UnderMethod(prefix[j], n.meter) && Has(prefix[j].report.pods, IsPod(u)));
    }
  }

  /** A pod is held for a node if and only if the node is, its latest report lists the pod, and no other
      node has reported the pod since under the same method. It is held as last listed there, under the
      method of the report if it names none. */
  lemma PodIsHeldIff(ops: seq<Op>, n: NodeKey, i: nat, u: string)
    requires AllHomed(ops) && IsLatest(ops, n, i)
    ensures Held(Run(ops), n, u).Some? <==>
      Survives(ops, n, i) && Has(ops[i].report.pods, IsPod(u)) && !Taken(ops, n, i, u)
    ensures forall k: nat :: IsLast(ops[i].report.pods, k, IsPod(u)) && Held(Run(ops), n, u).Some? ==>
      var p := ops[i].report.pods[k];
      Held(Run(ops), n, u).value == if p.meteringMethod == "" then p.(meteringMethod := n.meter) else p
  {
    NodeIsHeldIff(ops, n, i);
    LatestAndReclaimed(ops, n, i, u);
    UidsAre(ops[i].report.pods, u);
    HeldNeedsNode(ops, n, u);
    NodeHoldsItsLatestReport(ops, n);
    if n in Run(ops).nodes {
      assert Held(Run(ops), n, u) == Expected(Latest(ops, n).value, Reclaimed(ops, n), n, u);
    }
    var pods := ops[i].report.pods;
    forall k: nat | IsLast(pods, k, IsPod(u)) ensures Reported(pods, u) == Some(pods[k]) {
      ReportedIsTheLast(pods, u, k);
    }
  }

  lemma HeldNeedsNode(ops: seq<Op>, n: NodeKey, u: string)
    requires AllHomed(ops)
    ensures Held(Run(ops), n, u).Some? ==> n in Run(ops).nodes
  {
    RunLeavesNoOrphans(ops);
    NoOrphansPointwise(Run(ops));
    assert Sheltered(Run(ops), PodKey(u, n.meter));
  }
}
