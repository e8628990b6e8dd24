/** The per-pod power reports an agent emits, and sums over lists of them. */
module PodReports {
  import opened Sums
  import opened SeqSums
  import opened Entries

  datatype Identity = Identity(name: string, ns: string)

  datatype Report = Report(uid: string, name: string, ns: string,
                           cpuUw: nat, memoryUw: nat, gpuUw: nat, storageUw: nat, ioUw: nat, totalUw: nat)

  /** `recalculate_total`. */
  function Recalculated(p: Report): Report
  {
    p.(totalUw := p.cpuUw + p.memoryUw + p.gpuUw + p.storageUw + p.ioUw)
  }

  /** The report's total is the sum of its components. */
  predicate Totalled(p: Report)
  {
    p.totalUw == p.cpuUw + p.memoryUw + p.gpuUw + p.storageUw + p.ioUw
  }

  /** The name and namespace of a pod: from the cache, or its uid and "unknown". */
  function NameOf(cache: map<string, Identity>, uid: string): Identity
  {
    if uid in cache then cache[uid] else Identity(uid, "unknown")
  }

  predicate Named(p: Report, cache: map<string, Identity>)
  {
    Identity(p.name, p.ns) == NameOf(cache, p.uid)
  }

  ghost predicate WellFormed(r: seq<Report>, cache: map<string, Identity>)
  {
    forall i :: 0 <= i < |r| ==> Totalled(r[i]) && Named(r[i], cache)
  }

  function Cpu(p: Report): int { p.cpuUw }
  function Memory(p: Report): int { p.memoryUw }
  function Gpu(p: Report): int { p.gpuUw }
  function Storage(p: Report): int { p.storageUw }
  function Io(p: Report): int { p.ioUw }

  predicate Unique(r: seq<Report>)
  {
    forall i, j :: 0 <= i < j < |r| ==> r[i].uid != r[j].uid
  }

  function UidOf(r: Report): string { r.uid }

  function Uids(r: seq<Report>): set<string>
  {
    Keys(r, UidOf)
  }

  /** Each uid of s once. */
  ghost predicate Lists(r: seq<Report>, s: set<string>)
  {
    Unique(r) && Uids(r) == s
  }

  lemma ListsOneMore(r: seq<Report>, s: set<string>, p: Report)
    requires Lists(r, s) && p.uid !in s
    ensures Lists(r + [p], s + {p.uid})
  {
    KeysOneMore(r, p, UidOf);
    assert forall i :: 0 <= i < |r| ==> r[i].uid in Uids(r);
  }

  /** The sum of a component over a list is the sum over its uids. */
  lemma {:induction false} ListedSum(r: seq<Report>, f: Report -> int, g: string -> int)
    requires Unique(r) && forall i :: 0 <= i < |r| ==> f(r[i]) == g(r[i].uid)
    ensures SeqSum(r, f) == SumI(Uids(r), g)
  {
    if r != [] {
      var rest, p := r[..|r| - 1], r[|r| - 1];
      ListedSum(rest, f, g);
      assert r == rest + [p];
      KeysOneMore(rest, p, UidOf);
      SumIAdd(Uids(rest), g, p.uid);
    }
  }
}
