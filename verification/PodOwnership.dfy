/** Which pods the controller holds: no pod outlives the node entry it came with, and a node's pods
    are exactly those of its latest report that no other node has reported since. */
module PodOwnership {
  import opened Options
  import opened Aggregator

  /** A well-formed report: every pod names the reporting node. */
  predicate Homed(r: AgentReport)
  {
    forall i :: 0 <= i < |r.pods| ==> r.pods[i].nodeName == r.node.nodeName
  }

  predicate AllHomed(ops: seq<Op>)
  {
    forall i :: 0 <= i < |ops| && ops[i].Ingest? ==> Homed(ops[i].report)
  }

  function Home(k: PodKey, p: PodState): NodeKey
  {
    NodeKey(p.report.nodeName, k.meter)
  }

  /** Every pod has the entry of its node, under its own method, received in the same report. */
  ghost predicate NoOrphans(s: State)
  {
    forall k :: k in s.pods ==>
      Home(k, s.pods[k]) in s.nodes && s.nodes[Home(k, s.pods[k])].receivedAt == s.pods[k].receivedAt
  }

  ghost predicate Sheltered(s: State, k: PodKey)
  {
    PodAt(s, k).Some? ==>
      var p := PodAt(s, k).value;
      Home(k, p) in s.nodes && s.nodes[Home(k, p)].receivedAt == p.receivedAt
  }

  lemma NoOrphansPointwise(s: State)
    ensures NoOrphans(s) <==> forall k :: Sheltered(s, k)
  {
    forall k | NoOrphans(s) ensures Sheltered(s, k) { }
    forall k | k in s.pods && (forall k :: Sheltered(s, k))
      ensures Home(k, s.pods[k]) in s.nodes && s.nodes[Home(k, s.pods[k])].receivedAt == s.pods[k].receivedAt
    {
      assert Sheltered(s, k);
    }
  }

  /** Every pod that a report is stored with names the reporting node. */
  predicate EffectivelyHomed(r: AgentReport)
  {
    forall u :: u in Uids(r.pods) ==> Reported(r.pods, u).value.nodeName == r.node.nodeName
  }

  lemma AcceptShelters(s: State, r: AgentReport, now: int, k: PodKey)
    requires Sheltered(s, k) && EffectivelyHomed(r)
    ensures Sheltered(Accept(s, r, now), k)
  {
    AcceptAt(s, r, now, k);
  }

  lemma AcceptKeepsShelter(s: State, r: AgentReport, now: int)
    requires NoOrphans(s) && EffectivelyHomed(r)
    ensures NoOrphans(Accept(s, r, now))
  {
    NoOrphansPointwise(s);
    forall k ensures Sheltered(Accept(s, r, now), k) {
      AcceptShelters(s, r, now, k);
    }
    NoOrphansPointwise(Accept(s, r, now));
  }

  /** When every stored node is older than the report, accepting it leaves no orphan exactly if each
      pod it lists (the last one per uid) names the reporting node. */
  lemma AcceptLeavesNoOrphansIff(s: State, r: AgentReport, now: int)
    requires NoOrphans(s) && forall n :: n in s.nodes ==> s.nodes[n].receivedAt < now
    ensures NoOrphans(Accept(s, r, now)) <==> EffectivelyHomed(r)
  {
    if EffectivelyHomed(r) {
      AcceptKeepsShelter(s, r, now);
    } else {
      var u :| u in Uids(r.pods) && Reported(r.pods, u).value.nodeName != r.node.nodeName;
      NotSheltered(s, r, now, u);
      NoOrphansPointwise(Accept(s, r, now));
    }
  }

  lemma NotSheltered(s: State, r: AgentReport, now: int, u: string)
    requires forall n :: n in s.nodes ==> s.nodes[n].receivedAt < now
    requires u in Uids(r.pods) && Reported(r.pods, u).value.nodeName != r.node.nodeName
    ensures !Sheltered(Accept(s, r, now), PodKey(u, MethodName(r.node.meteringMethod)))
  {
    AcceptAt(s, r, now, PodKey(u, MethodName(r.node.meteringMethod)));
  }

  lemma EvictionsKeepShelter(s: State, t: int, live: seq<string>)
    requires NoOrphans(s)
    ensures NoOrphans(EvictStale(s, t)) && NoOrphans(KeepNodes(s, live))
  {
  }

  /** No orphan pods in any reachable state. */
  lemma {:induction false} RunLeavesNoOrphans(ops: seq<Op>)
    requires AllHomed(ops)
    ensures NoOrphans(Run(ops))
  {
    if ops != [] {
      var prefix, op := ops[..|ops| - 1], ops[|ops| - 1];
      RunLeavesNoOrphans(prefix);
      match op
      case Ingest(r, now, later) =>
        assert Homed(ops[|ops| - 1].report);
        AcceptKeepsShelter(Run(prefix), r, now);
        EvictionsKeepShelter(Accept(Run(prefix), r, now), later, []);
      case RemoveNodes(live) =>
        EvictionsKeepShelter(Run(prefix), 0, live);
    }
  }

  // Exactly the latest report.

  function Source(r: AgentReport): NodeKey
  {
    NodeKey(r.node.nodeName, MethodName(r.node.meteringMethod))
  }

  /** The last report received for a node and method. */
  function Latest(ops: seq<Op>, n: NodeKey): Option<AgentReport>
  {
    if ops == [] then None
    else
      var op := ops[|ops| - 1];
      if op.Ingest? && Source(op.report) == n then Some(op.report) else Latest(ops[..|ops| - 1], n)
  }

  /** The uids that other nodes reported under the same method since then. */
  function Reclaimed(ops: seq<Op>, n: NodeKey): set<string>
  {
    if ops == [] then {}
    else
      var op, rest := ops[|ops| - 1], Reclaimed(ops[..|ops| - 1], n);
      if !op.Ingest? || Source(op.report).meter != n.meter then rest
      else if Source(op.report) == n then {}
      else rest + Uids(op.report.pods)
  }

  /** The pod stored under uid u, if it belongs to node n. */
  function Held(s: State, n: NodeKey, u: string): Option<PodReport>
  {
    var p := PodAt(s, PodKey(u, n.meter));
    if p.Some? && p.value.report.nodeName == n.name then Some(p.value.report) else None
  }

  function Expected(r: AgentReport, reclaimed: set<string>, n: NodeKey, u: string): Option<PodReport>
  {
    if u in Uids(r.pods) && u !in reclaimed then Some(Stamp(Reported(r.pods, u).value, n.meter)) else None
  }

  ghost predicate Owns(s: State, ops: seq<Op>, n: NodeKey)
  {
    n in s.nodes ==>
      && Latest(ops, n).Some? && s.nodes[n].report == Latest(ops, n).value.node
      && forall u :: Held(s, n, u) == Expected(Latest(ops, n).value, Reclaimed(ops, n), n, u)
  }

  lemma AcceptOwns(s: State, ops: seq<Op>, op: Op, n: NodeKey)
    requires op.Ingest? && Homed(op.report) && Owns(s, ops, n)
    ensures Owns(Accept(s, op.report, op.now), ops + [op], n)
  {
    var all := ops + [op];
    assert all[..|ops|] == ops && all[|ops|] == op;
    if n in Accept(s, op.report, op.now).nodes {
      forall u ensures Held(Accept(s, op.report, op.now), n, u) ==
        Expected(Latest(all, n).value, Reclaimed(all, n), n, u) {
        AcceptHolds(s, ops, op, n, u);
      }
    }
  }

  lemma AcceptHolds(s: State, ops: seq<Op>, op: Op, n: NodeKey, u: string)
    requires op.Ingest? && Homed(op.report) && Owns(s, ops, n) && n in Accept(s, op.report, op.now).nodes
    ensures Latest(ops + [op], n).Some?
    ensures Held(Accept(s, op.report, op.now), n, u) ==
      Expected(Latest(ops + [op], n).value, Reclaimed(ops + [op], n), n, u)
  {
    var r, all := op.report, ops + [op];
    assert all[..|ops|] == ops && all[|ops|] == op;
    if n == Source(r) {
      SourceHolds(s, op, n, u);
    } else {
      assert Held(s, n, u) == Expected(Latest(ops, n).value, Reclaimed(ops, n), n, u);
      OthersHold(s, op, n, u);
    }
  }

  /** The reporting node holds what it reports, and nothing else. */
  lemma SourceHolds(s: State, op: Op, n: NodeKey, u: string)
    requires op.Ingest? && Homed(op.report) && n == Source(op.report)
    ensures Held(Accept(s, op.report, op.now), n, u) == Expected(op.report, {}, n, u)
  {
    AcceptAt(s, op.report, op.now, PodKey(u, n.meter));
  }

  /** Another node keeps what it holds, unless it is reported away under the same method. */
  lemma OthersHold(s: State, op: Op, n: NodeKey, u: string)
    requires op.Ingest? && Homed(op.report) && n != Source(op.report)
    ensures Held(Accept(s, op.report, op.now), n, u) ==
            if Source(op.report).meter == n.meter && u in Uids(op.report.pods) then None else Held(s, n, u)
  {
    AcceptAt(s, op.report, op.now, PodKey(u, n.meter));
  }

  /** A staleness eviction takes a node together with its pods, or neither. */
  lemma EvictOwns(s: State, t: int, ops: seq<Op>, n: NodeKey)
    requires NoOrphans(s) && Owns(s, ops, n)
    ensures Owns(EvictStale(s, t), ops, n)
  {
    var s' := EvictStale(s, t);
    if n in s'.nodes {
      forall u ensures Held(s', n, u) == Held(s, n, u) {
        EvictAt(s, t, PodKey(u, n.meter));
        NoOrphansPointwise(s);
        assert Sheltered(s, PodKey(u, n.meter));
      }
    }
  }

  lemma KeepNodesOwns(s: State, live: seq<string>, ops: seq<Op>, op: Op, n: NodeKey)
    requires Owns(s, ops, n) && op == RemoveNodes(live)
    ensures Owns(KeepNodes(s, live), ops + [op], n)
  {
    assert (ops + [op])[..|ops|] == ops;
    var s' := KeepNodes(s, live);
    if n in s'.nodes {
      forall u ensures Held(s', n, u) == Held(s, n, u) { }
    }
  }

  /** In every reachable state, the pods held for a node and method are exactly those of its latest
      report, minus the uids reported later under the same method by another node. */
  lemma {:induction false} NodeHoldsItsLatestReport(ops: seq<Op>, n: NodeKey)
    requires AllHomed(ops)
    ensures Owns(Run(ops), ops, n)
  {
    if ops != [] {
      var prefix, op := ops[..|ops| - 1], ops[|ops| - 1];
      assert ops == prefix + [op];
      NodeHoldsItsLatestReport(prefix, n);
      match op
      case Ingest(r, now, later) =>
        assert Homed(ops[|ops| - 1].report);
        AcceptOwns(Run(prefix), prefix, op, n);
        RunLeavesNoOrphans(prefix);
        AcceptKeepsShelter(Run(prefix), r, now);
        EvictOwns(Accept(Run(prefix), r, now), later, ops, n);
      case RemoveNodes(live) =>
        KeepNodesOwns(Run(prefix), live, prefix, op, n);
    }
  }
}
