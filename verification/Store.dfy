/** The agent's local store: two bounded rings, the outbox, and the queries over the rings. */
module Store {
  import Outbox
  import opened Enrich

  /** How attribution compared with the platform's measurement. */
  datatype Reconciliation = Reconciliation(measuredUw: nat, attributedUw: nat, unaccountedUw: int)

  datatype Snapshot = Snapshot(timestamp: nat, pods: seq<Pod>, reconciliation: Reconciliation)

  datatype PodSummary = PodSummary(timestamp: nat, podUid: string, name: string, namespace: string,
                                   cpuUw: nat, memoryUw: nat, gpuUw: nat, totalUw: nat)

  function TotalUw(p: Power): nat
  {
    p.cpuUw + p.memoryUw + p.gpuUw + p.nicUw + p.storageUw
  }

  function Summary(p: Pod, now: nat): PodSummary
  {
    PodSummary(now, p.uid, p.name, p.namespace, p.power.cpuUw, p.power.memoryUw, p.power.gpuUw, TotalUw(p.power))
  }

  /** The summaries of a snapshot; clock[i] is the time at which the i-th is made. */
  function Summaries(pods: seq<Pod>, clock: seq<nat>): (r: seq<PodSummary>)
    requires |clock| == |pods|
    ensures |r| == |pods| && forall i :: 0 <= i < |r| ==> r[i] == Summary(pods[i], clock[i])
  {
    seq(|pods|, i requires 0 <= i < |pods| => Summary(pods[i], clock[i]))
  }

  /** What a summary says of a pod: who it is, its CPU, memory and GPU power, and all of its power. */
  predicate Summarises(s: PodSummary, p: Pod, now: nat)
  {
    && s.timestamp == now && s.podUid == p.uid && s.name == p.name && s.namespace == p.namespace
    && s.cpuUw == p.power.cpuUw && s.memoryUw == p.power.memoryUw && s.gpuUw == p.power.gpuUw
    && s.totalUw == p.power.cpuUw + p.power.memoryUw + p.power.gpuUw + p.power.nicUw + p.power.storageUw
  }

  // Rings.

  /** The last n elements, or all if there are fewer. */
  function LastOf<T>(s: seq<T>, n: nat): seq<T>
  {
    if |s| <= n then s else s[|s| - n..]
  }

  /** A ring keeps its capacity, but always the newest element. */
  function Kept(capacity: nat): nat
  {
    if capacity == 0 then 1 else capacity
  }

  /** Evict the oldest element if full, then append. */
  function Pushed<T>(ring: seq<T>, x: T, capacity: nat): seq<T>
  {
    (if |ring| >= capacity && ring != [] then ring[1..] else ring) + [x]
  }

  lemma RingRefines<T>(history: seq<T>, x: T, capacity: nat)
    ensures Pushed(LastOf(history, Kept(capacity)), x, capacity) == LastOf(history + [x], Kept(capacity))
  {
    var n, k := |history|, Kept(capacity);
    if n >= k {
      Suffix(history, n - k);
      SuffixAppend(history, n - k + 1, x);
    }
  }

  lemma Suffix<T>(s: seq<T>, i: nat)
    requires i < |s|
    ensures s[i..][1..] == s[i + 1..]
  {
  }

  lemma SuffixAppend<T>(s: seq<T>, i: nat, x: T)
    requires i <= |s|
    ensures (s + [x])[i..] == s[i..] + [x]
  {
  }

  // Queries: from the newest element back, stopping early.

  function Reversed<T>(s: seq<T>): seq<T>
  {
    if s == [] then [] else [s[|s| - 1]] + Reversed(s[..|s| - 1])
  }

  function TakeWhile<T>(s: seq<T>, p: T -> bool): seq<T>
  {
    if s == [] || !p(s[0]) then [] else [s[0]] + TakeWhile(s[1..], p)
  }

  function FlatMap<T, U>(s: seq<T>, f: T -> seq<U>): seq<U>
  {
    if s == [] then [] else f(s[0]) + FlatMap(s[1..], f)
  }

  /** f on the elements with p only. */
  function Where<T, U>(p: T -> bool, f: T -> seq<U>): T -> seq<U>
  {
    (x: T) => if p(x) then f(x) else []
  }

  /** Behind the first element that stops the query there is nothing it would have returned. */
  predicate NothingBehind<T, U(==)>(s: seq<T>, p: T -> bool, f: T -> seq<U>)
  {
    forall i, j :: 0 <= i < j < |s| && !p(s[i]) && p(s[j]) ==> f(s[j]) == []
  }

  lemma {:induction false} FlatMapEmpty<T, U>(s: seq<T>, f: T -> seq<U>)
    ensures FlatMap(s, f) == [] <==> forall i :: 0 <= i < |s| ==> f(s[i]) == []
  {
    if s != [] { FlatMapEmpty(s[1..], f); }
  }

  /** Stopping at the first element without p gives the same as filtering the whole ring by p,
      exactly if nothing is behind it. */
  lemma {:induction false} EarlyStopIsExactIff<T, U>(s: seq<T>, p: T -> bool, f: T -> seq<U>)
    ensures FlatMap(TakeWhile(s, p), f) == FlatMap(s, Where(p, f)) <==> NothingBehind(s, p, f)
  {
    if s != [] {
      var rest := s[1..];
      EarlyStopIsExactIff(rest, p, f);
      if p(s[0]) {
        KeepsNothingBehind(s, p, f);
        assert TakeWhile(s, p)[1..] == TakeWhile(rest, p);
        var taken, kept := FlatMap(TakeWhile(rest, p), f), FlatMap(rest, Where(p, f));
        Outbox.Cancels(f(s[0]), taken, kept, []);
        assert f(s[0]) + taken + [] == f(s[0]) + taken && f(s[0]) + kept + [] == f(s[0]) + kept;
      } else {
        FlatMapEmpty(rest, Where(p, f));
        StopsHere(s, p, f);
      }
    }
  }

  lemma KeepsNothingBehind<T, U>(s: seq<T>, p: T -> bool, f: T -> seq<U>)
    requires s != [] && p(s[0])
    ensures NothingBehind(s, p, f) <==> NothingBehind(s[1..], p, f)
  {
    var rest := s[1..];
    if NothingBehind(s, p, f) {
      forall i, j | 0 <= i < j < |rest| && !p(rest[i]) && p(rest[j]) ensures f(rest[j]) == [] {
        assert s[i + 1] == rest[i] && s[j + 1] == rest[j];
      }
    }
    if NothingBehind(rest, p, f) {
      forall i, j | 0 <= i < j < |s| && !p(s[i]) && p(s[j]) ensures f(s[j]) == [] {
        assert s[i] == rest[i - 1] && s[j] == rest[j - 1];
      }
    }
  }

  lemma StopsHere<T, U>(s: seq<T>, p: T -> bool, f: T -> seq<U>)
    requires s != [] && !p(s[0])
    ensures NothingBehind(s, p, f) <==> forall j :: 0 <= j < |s[1..]| ==> Where(p, f)(s[1..][j]) == []
  {
    var rest := s[1..];
    if NothingBehind(s, p, f) {
      forall j | 0 <= j < |rest| ensures Where(p, f)(rest[j]) == [] { assert s[j + 1] == rest[j]; }
    }
    if forall j :: 0 <= j < |rest| ==> Where(p, f)(rest[j]) == [] {
      forall i, j | 0 <= i < j < |s| && !p(s[i]) && p(s[j]) ensures f(s[j]) == [] {
        assert s[j] == rest[j - 1] && Where(p, f)(rest[j - 1]) == [];
      }
    }
  }

  predicate Ordered<T>(s: seq<T>, time: T -> nat)
  {
    forall i, j :: 0 <= i < j < |s| ==> time(s[i]) <= time(s[j])
  }

  function Since<T>(time: T -> nat, since: nat): T -> bool
  {
    (x: T) => time(x) >= since
  }

  lemma {:induction false} ReversedAt<T>(s: seq<T>)
    ensures |Reversed(s)| == |s| && forall k :: 0 <= k < |s| ==> Reversed(s)[k] == s[|s| - 1 - k]
  {
    if s != [] { ReversedAt(s[..|s| - 1]); }
  }

  /** In a ring with nondecreasing timestamps, stopping early loses nothing. */
  lemma OrderedRingsStopExactly<T, U>(ring: seq<T>, time: T -> nat, since: nat, f: T -> seq<U>)
    requires Ordered(ring, time)
    ensures FlatMap(TakeWhile(Reversed(ring), Since(time, since)), f) ==
      FlatMap(Reversed(ring), Where(Since(time, since), f))
  {
    var r := Reversed(ring);
    ReversedAt(ring);
    forall i, j | 0 <= i < j < |r| && !Since(time, since)(r[i]) ensures !Since(time, since)(r[j]) {
      assert r[i] == ring[|ring| - 1 - i] && r[j] == ring[|ring| - 1 - j];
    }
    EarlyStopIsExactIff(r, Since(time, since), f);
  }

  lemma OrderedLast<T>(s: seq<T>, n: nat, time: T -> nat)
    requires Ordered(s, time)
    ensures Ordered(LastOf(s, n), time)
  {
  }

  function SummaryTime(s: PodSummary): nat { s.timestamp }
  function SnapshotTime(s: Snapshot): nat { s.timestamp }

  function InNamespace(namespace: string): PodSummary -> seq<PodSummary>
  {
    (s: PodSummary) => if s.namespace == namespace then [s] else []
  }

  function PodsWithUid(pods: seq<Pod>, uid: string): seq<Pod>
  {
    if pods == [] then [] else (if pods[0].uid == uid then [pods[0]] else []) + PodsWithUid(pods[1..], uid)
  }

  /** The processes of a pod in a snapshot. */
  function ProcessesOfPod(uid: string): Snapshot -> seq<Process>
  {
    (s: Snapshot) => AllProcesses(PodsWithUid(s.pods, uid))
  }

  function Reconciliations(s: seq<Snapshot>): (r: seq<Reconciliation>)
    ensures |r| == |s| && forall i :: 0 <= i < |r| ==> r[i] == s[i].reconciliation
  {
    seq(|s|, i requires 0 <= i < |s| => s[i].reconciliation)
  }

  function Take<T>(s: seq<T>, n: nat): seq<T>
  {
    if |s| <= n then s else s[..n]
  }

  class LocalStore {
    const detailCapacity: nat
    const summaryCapacity: nat
    var detailRing: seq<Snapshot>
    var summaryRing: seq<PodSummary>
    var outbox: seq<PodSummary>
    ghost var snapshots: seq<Snapshot>    // everything ever pushed
    ghost var produced: seq<PodSummary>   // every summary ever made

    /** The rings are the newest part of the full history. */
    ghost predicate Valid()
      reads this
    {
      detailRing == LastOf(snapshots, Kept(detailCapacity)) && summaryRing == LastOf(produced, Kept(summaryCapacity))
    }

    constructor (detailCapacity: nat, summaryCapacity: nat)
      ensures Valid() && snapshots == [] && produced == [] && outbox == []
      ensures this.detailCapacity == detailCapacity && this.summaryCapacity == summaryCapacity
    {
      this.detailCapacity, this.summaryCapacity := detailCapacity, summaryCapacity;
      detailRing, summaryRing, outbox, snapshots, produced := [], [], [], [], [];
    }

    /** `push`. */
    method Push(snapshot: Snapshot, clock: seq<nat>)
      requires Valid() && |clock| == |snapshot.pods|
      modifies this
      ensures Valid() && snapshots == old(snapshots) + [snapshot]
      ensures produced == old(produced) + Summaries(snapshot.pods, clock)
      ensures outbox == old(outbox) + Summaries(snapshot.pods, clock)
      ensures forall i :: 0 <= i < |clock| ==> Summarises(outbox[|old(outbox)| + i], snapshot.pods[i], clock[i])
    {
      var summaries := Summaries(snapshot.pods, clock);
      RingRefines(snapshots, snapshot, detailCapacity);
      if |detailRing| >= detailCapacity && detailRing != [] {
        detailRing := detailRing[1..];
      }
      detailRing := detailRing + [snapshot];
      snapshots := snapshots + [snapshot];
      PushSummaries(summaries);
      forall i | 0 <= i < |clock| ensures Summarises(outbox[|old(outbox)| + i], snapshot.pods[i], clock[i]) {
        assert outbox[|old(outbox)| + i] == summaries[i];
      }
    }

    /** The loop over summaries. */
    method PushSummaries(summaries: seq<PodSummary>)
      requires Valid()
      modifies this`summaryRing, this`outbox, this`produced
      ensures Valid() && produced == old(produced) + summaries && outbox == old(outbox) + summaries
    {
      for i := 0 to |summaries|
        invariant Valid() && produced == old(produced) + summaries[..i] && outbox == old(outbox) + summaries[..i]
      {
        PushSummary(summaries[i]);
        assert summaries[..i + 1] == summaries[..i] + [summaries[i]];
      }
      assert summaries[..|summaries|] == summaries;
    }

    /** The body of the loop over summaries. */
    method PushSummary(summary: PodSummary)
      requires Valid()
      modifies this`summaryRing, this`outbox, this`produced
      ensures Valid() && produced == old(produced) + [summary] && outbox == old(outbox) + [summary]
    {
      RingRefines(produced, summary, summaryCapacity);
      if |summaryRing| >= summaryCapacity && summaryRing != [] {
        summaryRing := summaryRing[1..];
      }
      outbox := outbox + [summary];
      summaryRing := summaryRing + [summary];
      produced := produced + [summary];
    }

    /** `drain_outbox`, the Drain step of the protocol. */
    method DrainOutbox() returns (batch: seq<PodSummary>)
      modifies this`outbox
      ensures forall s: Outbox.State<PodSummary> :: s.outbox == old(outbox) ==>
        Outbox.Apply(s, Outbox.Drain) == s.(outbox := outbox, inFlight := s.inFlight + [batch])
    {
      batch := outbox;
      outbox := [];
    }

    /** `requeue`, the Requeue step for any batch in flight: one by one, last first, to the front. */
    method Requeue(batch: seq<PodSummary>)
      modifies this`outbox
      ensures outbox == batch + old(outbox)
      ensures forall s: Outbox.State<PodSummary>, i: nat ::
        s.outbox == old(outbox) && i < |s.inFlight| && s.inFlight[i] == batch ==>
        Outbox.Apply(s, Outbox.Requeue(i)).outbox == outbox
    {
      for i := |batch| downto 0
        invariant outbox == batch[i..] + old(outbox)
      {
        outbox := [batch[i]] + outbox;
      }
      assert batch[0..] == batch;
    }

    /** `query_namespace_pods`. */
    function QueryNamespacePods(namespace: string, since: nat): seq<PodSummary>
      reads this
    {
      FlatMap(TakeWhile(Reversed(summaryRing), Since(SummaryTime, since)), InNamespace(namespace))
    }

    /** `query_pod_processes`. */
    function QueryPodProcesses(uid: string, since: nat): seq<Process>
      reads this
    {
      FlatMap(TakeWhile(Reversed(detailRing), Since(SnapshotTime, since)), ProcessesOfPod(uid))
    }

    /** `reconciliation_history`. */
    function ReconciliationHistory(count: nat): seq<Reconciliation>
      reads this
    {
      Reconciliations(Take(Reversed(detailRing), count))
    }
  }

  /** When pushes have nondecreasing timestamps, both queries return what a full filter of the newest
      part of the history would. */
  lemma QueriesAreExact(store: LocalStore, key: string, since: nat)
    requires store.Valid()
    ensures
      var newest := Reversed(LastOf(store.produced, Kept(store.summaryCapacity)));
      var matches := Where(Since(SummaryTime, since), InNamespace(key));
      Ordered(store.produced, SummaryTime) ==> store.QueryNamespacePods(key, since) == FlatMap(newest, matches)
    ensures
      var newest := Reversed(LastOf(store.snapshots, Kept(store.detailCapacity)));
      var matches := Where(Since(SnapshotTime, since), ProcessesOfPod(key));
      Ordered(store.snapshots, SnapshotTime) ==> store.QueryPodProcesses(key, since) == FlatMap(newest, matches)
  {
    if Ordered(store.produced, SummaryTime) {
      OrderedLast(store.produced, Kept(store.summaryCapacity), SummaryTime);
      OrderedRingsStopExactly(store.summaryRing, SummaryTime, since, InNamespace(key));
    }
    if Ordered(store.snapshots, SnapshotTime) {
      OrderedLast(store.snapshots, Kept(store.detailCapacity), SnapshotTime);
      OrderedRingsStopExactly(store.detailRing, SnapshotTime, since, ProcessesOfPod(key));
    }
  }

  // What the queries find, said of the history.

  lemma {:induction false} FlatMapHas<T, U>(s: seq<T>, f: T -> seq<U>, x: U)
    ensures x in FlatMap(s, f) <==> exists i :: 0 <= i < |s| && x in f(s[i])
  {
    if s != [] {
      FlatMapHas(s[1..], f, x);
      if i :| 0 <= i < |s| - 1 && x in f(s[1..][i]) { assert x in f(s[i + 1]); }
      if i :| 0 <= i < |s| && x in f(s[i]) { assert i == 0 || x in f(s[1..][i - 1]); }
    }
  }

  /** Reversing what is kept of a history and filtering it finds exactly what it has among its last n. */
  lemma NewestHas<T, U>(history: seq<T>, n: nat, f: T -> seq<U>, x: U)
    ensures x in FlatMap(Reversed(LastOf(history, n)), f) <==>
      exists i :: 0 <= i < |history| && i + n >= |history| && x in f(history[i])
  {
    var newest := Reversed(LastOf(history, n));
    FlatMapHas(newest, f, x);
    NewestAt(history, n);
    if i :| 0 <= i < |newest| && x in f(newest[i]) { assert newest[i] == history[|history| - 1 - i]; }
    if i :| 0 <= i < |history| && i + n >= |history| && x in f(history[i]) {
      assert history[i] == newest[|history| - 1 - i];
    }
  }

  lemma NewestAt<T>(history: seq<T>, n: nat)
    ensures var newest := Reversed(LastOf(history, n));
      && |newest| == (if |history| <= n then |history| else n)
      && forall i :: 0 <= i < |newest| ==> newest[i] == history[|history| - 1 - i]
  {
    ReversedAt(LastOf(history, n));
  }

  /** In an ordered history, the namespace query finds a summary exactly if it is among the newest that the
      ring keeps, is of that namespace and is recent enough. */
  lemma NamespaceQueryFinds(store: LocalStore, namespace: string, since: nat, x: PodSummary)
    requires store.Valid() && Ordered(store.produced, SummaryTime)
    ensures x in store.QueryNamespacePods(namespace, since) <==>
      exists i :: 0 <= i < |store.produced| &&
        (i + store.summaryCapacity >= |store.produced| || i + 1 == |store.produced|) &&
        store.produced[i] == x && x.namespace == namespace && x.timestamp >= since
  {
    QueriesAreExact(store, namespace, since);
    var f := Where(Since(SummaryTime, since), InNamespace(namespace));
    NewestHas(store.produced, Kept(store.summaryCapacity), f, x);
    forall y: PodSummary ensures x in f(y) <==> y == x && x.namespace == namespace && x.timestamp >= since {
      assert f(y) == if SummaryTime(y) >= since then InNamespace(namespace)(y) else [];
    }
  }

  /** The process is in a container of the pod. */
  ghost predicate RunsIn(x: Process, p: Pod)
  {
    exists c :: c in p.containers && x in c.processes
  }

  lemma {:induction false} ProcessesAre(containers: seq<Container>, x: Process)
    ensures x in ProcessesOf(containers) <==> exists c :: c in containers && x in c.processes
  {
    if containers != [] {
      var n := |containers| - 1;
      ProcessesAre(containers[..n], x);
      assert containers == containers[..n] + [containers[n]];
    }
  }

  lemma {:induction false} AllProcessesAre(pods: seq<Pod>, x: Process)
    ensures x in AllProcesses(pods) <==> exists p :: p in pods && RunsIn(x, p)
  {
    if pods != [] {
      var n := |pods| - 1;
      AllProcessesAre(pods[..n], x);
      ProcessesAre(pods[n].containers, x);
      assert RunsIn(x, pods[n]) <==> x in ProcessesOf(pods[n].containers);
      assert pods == pods[..n] + [pods[n]] && pods[n] in pods;
      assert forall p :: p in pods <==> p in pods[..n] || p == pods[n];
    }
  }

  lemma PodProcessesAre(s: Snapshot, uid: string, x: Process)
    ensures x in ProcessesOfPod(uid)(s) <==> exists p :: p in s.pods && p.uid == uid && RunsIn(x, p)
  {
    AllProcessesAre(PodsWithUid(s.pods, uid), x);
    forall p: Pod ensures p in PodsWithUid(s.pods, uid) <==> p in s.pods && p.uid == uid {
      PodsWithUidAre(s.pods, uid, p);
    }
  }

  /** In an ordered history, the pod query finds a process exactly if it is in a container of a pod of that uid
      in one of the newest snapshots that the ring keeps, and that snapshot is recent enough. */
  lemma PodQueryFinds(store: LocalStore, uid: string, since: nat, x: Process)
    requires store.Valid() && Ordered(store.snapshots, SnapshotTime)
    ensures x in store.QueryPodProcesses(uid, since) <==>
      exists i, p :: 0 <= i < |store.snapshots| && p in store.snapshots[i].pods && p.uid == uid && RunsIn(x, p) &&
        (i + store.detailCapacity >= |store.snapshots| || i + 1 == |store.snapshots|) &&
        store.snapshots[i].timestamp >= since
  {
    QueriesAreExact(store, uid, since);
    var f := Where(Since(SnapshotTime, since), ProcessesOfPod(uid));
    NewestHas(store.snapshots, Kept(store.detailCapacity), f, x);
    forall s: Snapshot
      ensures x in f(s) <==> s.timestamp >= since && exists p :: p in s.pods && p.uid == uid && RunsIn(x, p)
    {
      assert f(s) == if SnapshotTime(s) >= since then ProcessesOfPod(uid)(s) else [];
      PodProcessesAre(s, uid, x);
    }
  }

  lemma {:induction false} PodsWithUidAre(pods: seq<Pod>, uid: string, p: Pod)
    ensures p in PodsWithUid(pods, uid) <==> p in pods && p.uid == uid
  {
    if pods != [] { PodsWithUidAre(pods[1..], uid, p); }
  }

  /** The reconciliation history is the newest part of the full history, newest first. */
  lemma HistoryIsNewestFirst(store: LocalStore, count: nat)
    requires store.Valid()
    ensures var kept := if count < Kept(store.detailCapacity) then count else Kept(store.detailCapacity);
      store.ReconciliationHistory(count) == Reconciliations(Reversed(LastOf(store.snapshots, kept)))
  {
    var kept := if count < Kept(store.detailCapacity) then count else Kept(store.detailCapacity);
    TakeNewest(store.snapshots, Kept(store.detailCapacity), count);
  }

  /** The first elements of the reversed end of a list are the reversed shorter end. */
  lemma TakeNewest<T>(s: seq<T>, n: nat, count: nat)
    ensures Take(Reversed(LastOf(s, n)), count) == Reversed(LastOf(s, if count < n then count else n))
  {
    var k := if count < n then count else n;
    var a, b := Take(Reversed(LastOf(s, n)), count), Reversed(LastOf(s, k));
    ReversedAt(LastOf(s, n));
    ReversedAt(LastOf(s, k));
    assert |a| == |b|;
    forall i | 0 <= i < |a| ensures a[i] == b[i] {
      assert a[i] == s[|s| - 1 - i] && b[i] == s[|s| - 1 - i];
    }
  }

  /** Out of order, a query can miss a summary that is recent enough: here the newest one is too old. */
  lemma OutOfOrderMisses(x: PodSummary, y: PodSummary, namespace: string)
    requires x.timestamp > y.timestamp && x.namespace == namespace
    ensures FlatMap(TakeWhile(Reversed([x, y]), Since(SummaryTime, x.timestamp)), InNamespace(namespace)) == []
    ensures x in FlatMap(Reversed([x, y]), Where(Since(SummaryTime, x.timestamp), InNamespace(namespace)))
  {
    var ring, f := [x, y], Where(Since(SummaryTime, x.timestamp), InNamespace(namespace));
    ReversedAt(ring);
    var r := Reversed(ring);
    assert r[0] == y && r[1] == x && r[1..][0] == x;
    var recent := Since(SummaryTime, x.timestamp);
    assert recent(x) && !recent(y) && InNamespace(namespace)(x) == [x];
    assert f(x) == [x];
    assert FlatMap(r[1..], f) == f(r[1..][0]) + FlatMap(r[1..][1..], f);
  }
}
