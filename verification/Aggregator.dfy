/** The controller's cluster state: a keyed store of pods and nodes that two metering methods share,
    changed by reports, by staleness and by the removal of nodes. */
module Aggregator {
  import opened Options
  import opened Entries

  datatype PodReport = PodReport(
    nodeName: string, podUid: string, podName: string, namespace: string,
    cpuUw: nat, memoryUw: nat, gpuUw: nat, storageUw: nat, ioUw: nat, totalUw: nat,
    workloadUid: string, workloadName: string, workloadKind: string,
    labels: map<string, string>, meteringMethod: string)

  datatype NodeReport = NodeReport(
    nodeName: string, cpuUw: nat, memoryUw: nat, gpuUw: nat,
    platformUw: Option<nat>, psuOutputUw: Option<nat>, idleUw: nat, errorRatio: real,
    podCount: nat, cpuSource: string, cpuReadingType: string, meteringMethod: string)

  datatype AgentReport = AgentReport(node: NodeReport, pods: seq<PodReport>)

  datatype PodState = PodState(report: PodReport, receivedAt: int)
  datatype NodeState = NodeState(report: NodeReport, receivedAt: int)

  datatype PodKey = PodKey(uid: string, meter: string)
  datatype NodeKey = NodeKey(name: string, meter: string)

  datatype State = State(pods: map<PodKey, PodState>, nodes: map<NodeKey, NodeState>)

  const EMPTY := State(map[], map[])

  /** `staleness_threshold`: sixty seconds, in nanoseconds. */
  const STALENESS: int := 60_000_000_000

  /** An empty method name means keck. */
  function MethodName(m: string): string
  {
    if m == "" then "keck" else m
  }

  function Stamp(pod: PodReport, meter: string): PodReport
  {
    if pod.meteringMethod == "" then pod.(meteringMethod := meter) else pod
  }

  function UidOf(p: PodReport): string { p.podUid }

  function Uids(pods: seq<PodReport>): set<string>
  {
    Keys(pods, UidOf)
  }

  /** The pod that a report holds for uid: the last one, if it lists the uid more than once. */
  function Reported(pods: seq<PodReport>, uid: string): (p: Option<PodReport>)
    ensures p.Some? <==> uid in Uids(pods)
    ensures p.Some? ==> p.value in pods && p.value.podUid == uid
  {
    if pods == [] then None
    else if pods[|pods| - 1].podUid == uid then Some(pods[|pods| - 1])
    else
      assert pods == pods[..|pods| - 1] + [pods[|pods| - 1]];
      Reported(pods[..|pods| - 1], uid)
  }

  /** The insertions of `ingest`: every reported pod is stored under its uid and the node's method. */
  function Upsert(pods: map<PodKey, PodState>, reported: seq<PodReport>, meter: string, now: int): map<PodKey, PodState>
  {
    pods + map u | u in Uids(reported) :: PodKey(u, meter) := PodState(Stamp(Reported(reported, u).value, meter), now)
  }

  /** The eviction of `ingest`: pods of the same method on the same node that are no longer reported. */
  function Retained(pods: map<PodKey, PodState>, name: string, meter: string, uids: set<string>): map<PodKey, PodState>
  {
    map k | k in pods && !(k.meter == meter && pods[k].report.nodeName == name && k.uid !in uids) :: pods[k]
  }

  /** `ingest` up to its call of `evict_stale`. */
  function Accept(s: State, r: AgentReport, now: int): State
  {
    var meter := MethodName(r.node.meteringMethod);
    State(Upsert(Retained(s.pods, r.node.nodeName, meter, Uids(r.pods)), r.pods, meter, now),
          s.nodes[NodeKey(r.node.nodeName, meter) := NodeState(r.node, now)])
  }

  /** `evict_stale` at time t. */
  function EvictStale(s: State, t: int): State
  {
    State(map k | k in s.pods && s.pods[k].receivedAt > t - STALENESS :: s.pods[k],
          map k | k in s.nodes && s.nodes[k].receivedAt > t - STALENESS :: s.nodes[k])
  }

  /** `evict_removed_nodes`. */
  function KeepNodes(s: State, live: seq<string>): State
  {
    State(map k | k in s.pods && s.pods[k].report.nodeName in live :: s.pods[k],
          map k | k in s.nodes && k.name in live :: s.nodes[k])
  }

  /** `ingest` reads the clock twice: once for the entries it stores and once for the eviction. */
  datatype Op = Ingest(report: AgentReport, now: int, later: int) | RemoveNodes(live: seq<string>)

  function Apply(s: State, op: Op): State
  {
    match op
    case Ingest(r, now, later) => EvictStale(Accept(s, r, now), later)
    case RemoveNodes(live) => KeepNodes(s, live)
  }

  function Run(ops: seq<Op>): State
  {
    if ops == [] then EMPTY else Apply(Run(ops[..|ops| - 1]), ops[|ops| - 1])
  }

  /** The time of the last staleness eviction, if there was one. */
  function LastEviction(ops: seq<Op>): Option<int>
  {
    if ops == [] then None
    else
      var op := ops[|ops| - 1];
      if op.Ingest? then Some(op.later) else LastEviction(ops[..|ops| - 1])
  }

  /** The clock never runs backwards. */
  predicate Clocked(ops: seq<Op>)
  {
    ops == [] ||
    var prefix, op := ops[..|ops| - 1], ops[|ops| - 1];
    && Clocked(prefix)
    && (op.Ingest? ==> op.now <= op.later && (LastEviction(prefix).Some? ==> LastEviction(prefix).value <= op.now))
  }

  // Method isolation.

  /** The operations that concern one method: its own reports and all node removals. */
  function OnlyOps(ops: seq<Op>, meter: string): seq<Op>
  {
    if ops == [] then []
    else
      var rest, op := OnlyOps(ops[..|ops| - 1], meter), ops[|ops| - 1];
      if op.Ingest? && MethodName(op.report.node.meteringMethod) != meter then rest else rest + [op]
  }

  /** The slice of the state that is stored under one method. */
  function Only(s: State, meter: string): State
  {
    State(map k | k in s.pods && k.meter == meter :: s.pods[k],
          map k | k in s.nodes && k.meter == meter :: s.nodes[k])
  }

  function PodAt(s: State, k: PodKey): Option<PodState>
  {
    if k in s.pods then Some(s.pods[k]) else None
  }

  /** What `ingest` makes of one entry: it is replaced, dropped or left alone. */
  function AcceptedPod(p: Option<PodState>, r: AgentReport, now: int, k: PodKey): Option<PodState>
  {
    var meter := MethodName(r.node.meteringMethod);
    if k.meter != meter then p
    else if k.uid in Uids(r.pods) then Some(PodState(Stamp(Reported(r.pods, k.uid).value, meter), now))
    else if p.Some? && p.value.report.nodeName == r.node.nodeName then None
    else p
  }

  lemma AcceptAt(s: State, r: AgentReport, now: int, k: PodKey)
    ensures PodAt(Accept(s, r, now), k) == AcceptedPod(PodAt(s, k), r, now, k)
  {
  }

  lemma SamePods(a: State, b: State)
    requires forall k :: PodAt(a, k) == PodAt(b, k)
    ensures a.pods == b.pods
  {
    assert forall k :: k in a.pods <==> PodAt(a, k).Some?;
    assert forall k :: k in b.pods <==> PodAt(b, k).Some?;
    assert forall k :: k in a.pods ==> PodAt(a, k) == Some(a.pods[k]);
    assert forall k :: k in b.pods ==> PodAt(b, k) == Some(b.pods[k]);
  }

  lemma OnlyAt(s: State, meter: string, k: PodKey)
    ensures PodAt(Only(s, meter), k) == if k.meter == meter then PodAt(s, k) else None
  {
  }

  lemma EvictAt(s: State, t: int, k: PodKey)
    ensures PodAt(EvictStale(s, t), k) ==
            if PodAt(s, k).Some? && PodAt(s, k).value.receivedAt > t - STALENESS then PodAt(s, k) else None
  {
  }

  lemma OnlyAccept(s: State, r: AgentReport, now: int, meter: string)
    ensures Only(Accept(s, r, now), meter) ==
            if MethodName(r.node.meteringMethod) == meter then Accept(Only(s, meter), r, now) else Only(s, meter)
  {
    var left := Only(Accept(s, r, now), meter);
    var right := if MethodName(r.node.meteringMethod) == meter then Accept(Only(s, meter), r, now) else Only(s, meter);
    forall k ensures PodAt(left, k) == PodAt(right, k) {
      OnlyAt(Accept(s, r, now), meter, k);
      AcceptAt(s, r, now, k);
      OnlyAt(s, meter, k);
      AcceptAt(Only(s, meter), r, now, k);
    }
    SamePods(left, right);
    OnlyAcceptNodes(s, r, now, meter);
  }

  lemma OnlyAcceptNodes(s: State, r: AgentReport, now: int, meter: string)
    ensures Only(Accept(s, r, now), meter).nodes ==
            if MethodName(r.node.meteringMethod) == meter then Accept(Only(s, meter), r, now).nodes
              else Only(s, meter).nodes
  {
  }

  lemma EvictTwice(s: State, t: int, u: int)
    requires t <= u
    ensures EvictStale(EvictStale(s, t), u) == EvictStale(s, u)
  {
  }

  /** A stale entry that was evicted early would have gone at the later eviction anyway. */
  lemma EvictEarlyOrLate(s: State, r: AgentReport, now: int, t: int, u: int)
    requires t <= u
    ensures EvictStale(Accept(EvictStale(s, t), r, now), u) == EvictStale(Accept(s, r, now), u)
  {
    var left, right := EvictStale(Accept(EvictStale(s, t), r, now), u), EvictStale(Accept(s, r, now), u);
    forall k ensures PodAt(left, k) == PodAt(right, k) {
      EvictAt(Accept(EvictStale(s, t), r, now), u, k);
      EvictAt(Accept(s, r, now), u, k);
      AcceptAt(EvictStale(s, t), r, now, k);
      AcceptAt(s, r, now, k);
      EvictAt(s, t, k);
    }
    SamePods(left, right);
    EvictEarlyOrLateNodes(s, r, now, t, u);
  }

  lemma EvictEarlyOrLateNodes(s: State, r: AgentReport, now: int, t: int, u: int)
    requires t <= u
    ensures EvictStale(Accept(EvictStale(s, t), r, now), u).nodes == EvictStale(Accept(s, r, now), u).nodes
  {
  }

  lemma KeepNodesOnly(s: State, live: seq<string>, meter: string)
    ensures Only(KeepNodes(s, live), meter) == KeepNodes(Only(s, meter), live)
  {
  }

  lemma KeepNodesEvict(s: State, live: seq<string>, t: int)
    ensures KeepNodes(EvictStale(s, t), live) == EvictStale(KeepNodes(s, live), t)
  {
    var left, right := KeepNodes(EvictStale(s, t), live), EvictStale(KeepNodes(s, live), t);
    assert left.pods == right.pods;
    assert left.nodes == right.nodes;
  }

  /** Each method sees the state it would have alone: for any interleaving of reports of any methods
      with node removals, the slice of a method is what replaying only its own reports and the node
      removals gives, after one more staleness eviction at the time of the last eviction. */
  lemma {:induction false} MethodsAreIsolated(ops: seq<Op>, meter: string)
    requires Clocked(ops)
    ensures Only(Run(ops), meter) ==
            match LastEviction(ops)
            case None => Run(OnlyOps(ops, meter))
            case Some(t) => EvictStale(Run(OnlyOps(ops, meter)), t)
  {
    if ops != [] {
      var prefix, op := ops[..|ops| - 1], ops[|ops| - 1];
      MethodsAreIsolated(prefix, meter);
      var before, alone := Run(prefix), Run(OnlyOps(prefix, meter));
      match op
      case Ingest(r, now, later) =>
        OnlyEvict(Accept(before, r, now), meter, later);
        OnlyAccept(before, r, now, meter);
        if MethodName(r.node.meteringMethod) == meter {
          assert (OnlyOps(prefix, meter) + [op])[..|OnlyOps(prefix, meter)|] == OnlyOps(prefix, meter);
          if LastEviction(prefix).Some? { EvictEarlyOrLate(alone, r, now, LastEviction(prefix).value, later); }
          EvictTwice(Accept(alone, r, now), later, later);
        } else if LastEviction(prefix).Some? {
          EvictTwice(alone, LastEviction(prefix).value, later);
        } else {
          NoReportsNoState(prefix, meter);
        }
      case RemoveNodes(live) =>
        assert (OnlyOps(prefix, meter) + [op])[..|OnlyOps(prefix, meter)|] == OnlyOps(prefix, meter);
        KeepNodesOnly(before, live, meter);
        if LastEviction(prefix).Some? { KeepNodesEvict(alone, live, LastEviction(prefix).value); }
    }
  }

  lemma OnlyEvict(s: State, meter: string, t: int)
    ensures Only(EvictStale(s, t), meter) == EvictStale(Only(s, meter), t)
  {
  }

  lemma {:induction false} NoReportsNoState(ops: seq<Op>, meter: string)
    requires LastEviction(ops) == None
    ensures Run(OnlyOps(ops, meter)) == EMPTY
  {
    if ops != [] {
      var prefix, op := ops[..|ops| - 1], ops[|ops| - 1];
      NoReportsNoState(prefix, meter);
      assert (OnlyOps(prefix, meter) + [op])[..|OnlyOps(prefix, meter)|] == OnlyOps(prefix, meter);
    }
  }
}
