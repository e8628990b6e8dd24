/** Exactly when the eBPF override keeps a component within the node, whatever the amounts. */
module MergeExact {
  import opened Sums
  import opened SeqSums
  import opened PodReports
  import opened PodMerge

  /** A component the override replaces. */
  datatype Component = CpuPower | MemoryPower

  function Value(c: Component): Report -> int
  {
    match c case CpuPower => Cpu case MemoryPower => Memory
  }

  function ValueIn(c: Component, m: map<string, Powers>): string -> int
  {
    match c case CpuPower => CpuIn(m) case MemoryPower => MemoryIn(m)
  }

  /** Any lists of these uids whose component fits the total on each side. */
  ghost predicate Inputs(proc: set<string>, seen: set<string>, total: nat, c: Component, pods: seq<Report>,
                         ebpf: seq<Report>)
  {
    && Lists(pods, proc) && Lists(ebpf, seen)
    && SeqSum(pods, Value(c)) <= total && SeqSum(ebpf, Value(c)) <= total
  }

  /** Whatever the amounts, the merged reports fit the total too. */
  ghost predicate AlwaysFits(proc: set<string>, seen: set<string>, total: nat, c: Component)
  {
    forall pods: seq<Report>, ebpf: seq<Report>, r: seq<Report> ::
      Inputs(proc, seen, total, c, pods, ebpf) && IsMerged(r, pods, ebpf) ==> SeqSum(r, Value(c)) <= total
  }

  lemma Exact(pods: seq<Report>, ebpf: seq<Report>, r: seq<Report>, c: Component)
    requires Unique(pods) && Unique(ebpf) && IsMerged(r, pods, ebpf)
    ensures var m := PowersOf(ebpf);
      SeqSum(r, Value(c)) == SumI(Uids(pods), ValueIn(c, m)) + SeqSum(pods, Outside(m, Value(c)))
    ensures SeqSum(pods, Outside(PowersOf(ebpf), Value(c))) <= SeqSum(pods, Value(c))
    ensures PowersOf(ebpf).Keys == Uids(ebpf)
  {
    MergedUids(r, pods, ebpf);
    CpuAndMemoryReplaced(r, pods, ebpf);
    MergedComponent(r, pods, ebpf, Value(c), ValueIn(c, PowersOf(ebpf)));
    SeqSumSplits(pods, PowersOf(ebpf), Value(c));
    PowersListed(ebpf);
  }

  lemma DisjointFits(pods: seq<Report>, ebpf: seq<Report>, r: seq<Report>, total: nat, c: Component)
    requires Inputs(Uids(pods), Uids(ebpf), total, c, pods, ebpf) && IsMerged(r, pods, ebpf) && Uids(pods) !! Uids(ebpf)
    ensures SeqSum(r, Value(c)) <= total
  {
    Exact(pods, ebpf, r, c);
    SumIZero(Uids(pods), ValueIn(c, PowersOf(ebpf)));
  }

  lemma CoveredFits(pods: seq<Report>, ebpf: seq<Report>, r: seq<Report>, total: nat, c: Component)
    requires Inputs(Uids(pods), Uids(ebpf), total, c, pods, ebpf) && IsMerged(r, pods, ebpf) && Covers(ebpf, pods)
    ensures SeqSum(r, Value(c)) <= total
  {
    MergedUids(r, pods, ebpf);
    CpuAndMemoryReplaced(r, pods, ebpf);
    ComponentBounds(r, pods, ebpf, Value(c), ValueIn(c, PowersOf(ebpf)), total);
  }

  // The witness.

  /** The whole total for the uid x, nothing for any other. */
  function Amount(x: string, total: nat, uid: string): nat
  {
    if uid == x then total else 0
  }

  function Amounts(x: string, total: nat): string -> int
  {
    (uid: string) => Amount(x, total, uid)
  }

  function AllTo(x: string, total: nat, uid: string): Report
  {
    var n := Amount(x, total, uid);
    Report(uid, uid, "unknown", n, n, 0, 0, 0, n + n)
  }

  ghost predicate GivesAllTo(r: seq<Report>, x: string, total: nat)
  {
    forall i :: 0 <= i < |r| ==> r[i] == AllTo(x, total, r[i].uid)
  }

  lemma {:induction false} ListFor(s: set<string>, x: string, total: nat) returns (r: seq<Report>)
    ensures Lists(r, s) && GivesAllTo(r, x, total)
    decreases |s|
  {
    if s == {} {
      r := [];
    } else {
      var uid :| uid in s;
      r := ListFor(s - {uid}, x, total);
      ListsOneMore(r, s - {uid}, AllTo(x, total, uid));
      r := r + [AllTo(x, total, uid)];
      assert s - {uid} + {uid} == s;
    }
  }

  lemma AmountsAddUp(s: set<string>, f: string -> int, x: string, total: nat)
    requires x in s && forall uid :: uid in s ==> f(uid) == Amount(x, total, uid)
    ensures SumI(s, f) == total
  {
    SumITake(s, f, x);
    SumIZero(s - {x}, f);
  }

  function Merged(pods: seq<Report>, ebpf: seq<Report>): (r: seq<Report>)
    ensures |r| == |pods| && forall i :: 0 <= i < |r| ==> r[i] == Overridden(pods[i], PowersOf(ebpf))
  {
    seq(|pods|, i requires 0 <= i < |pods| => Overridden(pods[i], PowersOf(ebpf)))
  }

  /** A pod a that only /proc sees and a pod b that both see: each side gives all to its own. */
  lemma ReachesTwice(pods: seq<Report>, ebpf: seq<Report>, r: seq<Report>, a: string, b: string, total: nat,
                     c: Component)
    requires Unique(pods) && Unique(ebpf) && IsMerged(r, pods, ebpf)
    requires a in Uids(pods) && a !in Uids(ebpf) && b in Uids(pods) && b in Uids(ebpf)
    requires GivesAllTo(pods, a, total) && GivesAllTo(ebpf, b, total)
    ensures SeqSum(pods, Value(c)) == total && SeqSum(ebpf, Value(c)) == total && SeqSum(r, Value(c)) == 2 * total
  {
    var m := PowersOf(ebpf);
    Exact(pods, ebpf, r, c);
    PowersListed(ebpf);
    ListedSum(pods, Value(c), Amounts(a, total));
    AmountsAddUp(Uids(pods), Amounts(a, total), a, total);
    ListedSum(ebpf, Value(c), Amounts(b, total));
    AmountsAddUp(Uids(ebpf), Amounts(b, total), b, total);
    ListedSum(pods, Outside(m, Value(c)), Amounts(a, total));
    forall uid | uid in Uids(pods) ensures ValueIn(c, m)(uid) == Amount(b, total, uid) {
      SeenAmount(ebpf, b, total, c, uid);
    }
    AmountsAddUp(Uids(pods), ValueIn(c, m), b, total);
  }

  lemma SeenAmount(ebpf: seq<Report>, b: string, total: nat, c: Component, uid: string)
    requires Unique(ebpf) && GivesAllTo(ebpf, b, total) && b in Uids(ebpf)
    ensures ValueIn(c, PowersOf(ebpf))(uid) == Amount(b, total, uid)
  {
    PowersListed(ebpf);
    if uid in Uids(ebpf) {
      var j :| 0 <= j < |ebpf| && ebpf[j].uid == uid;
      assert ebpf[j] == AllTo(b, total, uid);
    }
  }

  /** Whatever the amounts are, merging keeps CPU and memory within the node exactly if the eBPF path
      saw all of the pods /proc knows, or none of them. */
  lemma MergeFitsIff(proc: set<string>, seen: set<string>, total: nat, c: Component)
    requires total > 0
    ensures AlwaysFits(proc, seen, total, c) <==> proc <= seen || proc !! seen
  {
    if proc <= seen || proc !! seen {
      forall pods: seq<Report>, ebpf: seq<Report>, r: seq<Report> | Inputs(proc, seen, total, c, pods, ebpf) &&
        IsMerged(r, pods, ebpf)
        ensures SeqSum(r, Value(c)) <= total
      {
        if proc <= seen { CoveredFits(pods, ebpf, r, total, c); } else { DisjointFits(pods, ebpf, r, total, c); }
      }
    } else {
      var a :| a in proc && a !in seen;
      var b :| b in proc && b in seen;
      var pods := ListFor(proc, a, total);
      var ebpf := ListFor(seen, b, total);
      ReachesTwice(pods, ebpf, Merged(pods, ebpf), a, b, total, c);
      assert Inputs(proc, seen, total, c, pods, ebpf) && IsMerged(Merged(pods, ebpf), pods, ebpf);
    }
  }
}
