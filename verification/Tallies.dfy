/** Per-pod power added up field by field, and descending order by total. */
module Tallies {
  import opened Sums
  import opened Aggregator

  datatype Tally = Tally(cpu: int, memory: int, gpu: int, storage: int, io: int, total: int, count: int)

  const ZERO := Tally(0, 0, 0, 0, 0, 0, 0)

  function Plus(a: Tally, b: Tally): Tally
  {
    Tally(a.cpu + b.cpu, a.memory + b.memory, a.gpu + b.gpu, a.storage + b.storage, a.io + b.io,
          a.total + b.total, a.count + b.count)
  }

  /** What one pod adds to an entry. */
  function Of(p: PodReport): Tally
  {
    Tally(p.cpuUw, p.memoryUw, p.gpuUw, p.storageUw, p.ioUw, p.totalUw, 1)
  }

  function OfKey(pods: map<PodKey, PodState>, k: PodKey): Tally
  {
    if k in pods then Of(pods[k].report) else ZERO
  }

  /** The sum over a set of stored pods. */
  ghost function Sum(keys: set<PodKey>, pods: map<PodKey, PodState>): Tally
  {
    if keys == {} then ZERO else var k :| k in keys; Plus(OfKey(pods, k), Sum(keys - {k}, pods))
  }

  lemma PlusSwaps(a: Tally, b: Tally, c: Tally)
    ensures Plus(a, Plus(b, c)) == Plus(b, Plus(a, c))
    ensures Plus(a, Plus(b, c)) == Plus(Plus(a, b), c)
  {
  }

  lemma {:induction false} SumTake(keys: set<PodKey>, pods: map<PodKey, PodState>, k: PodKey)
    requires k in keys
    ensures Sum(keys, pods) == Plus(OfKey(pods, k), Sum(keys - {k}, pods))
    decreases |keys|
  {
    var j :| j in keys && Sum(keys, pods) == Plus(OfKey(pods, j), Sum(keys - {j}, pods));
    if j != k {
      var rest := keys - {j} - {k};
      assert rest == keys - {k} - {j};
      SumTake(keys - {j}, pods, k);
      SumTake(keys - {k}, pods, j);
      PlusSwaps(OfKey(pods, j), OfKey(pods, k), Sum(rest, pods));
    }
  }

  lemma SumAdd(keys: set<PodKey>, pods: map<PodKey, PodState>, k: PodKey)
    requires k !in keys
    ensures Sum(keys + {k}, pods) == Plus(Sum(keys, pods), OfKey(pods, k))
  {
    SumTake(keys + {k}, pods, k);
    assert keys + {k} - {k} == keys;
  }

  lemma {:induction false} SumUnion(a: set<PodKey>, b: set<PodKey>, pods: map<PodKey, PodState>)
    requires a !! b
    ensures Sum(a + b, pods) == Plus(Sum(a, pods), Sum(b, pods))
    decreases |b|
  {
    if b == {} {
      assert a + b == a;
    } else {
      var k :| k in b;
      var rest := b - {k};
      SumUnion(a, rest, pods);
      SumTake(b, pods, k);
      PutBack(a, b, k);
      SumAdd(a + rest, pods, k);
      UnionStep(Sum(a, pods), Sum(rest, pods), OfKey(pods, k));
    }
  }

  lemma PutBack<T>(a: set<T>, b: set<T>, k: T)
    requires k in b
    ensures a + b == a + (b - {k}) + {k}
  {
  }

  lemma UnionStep(a: Tally, rest: Tally, k: Tally)
    ensures Plus(Plus(a, rest), k) == Plus(a, Plus(k, rest))
  {
  }

  // The fields of a sum, one by one.

  datatype Measure = OfCpu | OfMemory | OfGpu | OfStorage | OfIo | OfTotal

  function Reading(t: Tally, m: Measure): int
  {
    match m
    case OfCpu => t.cpu
    case OfMemory => t.memory
    case OfGpu => t.gpu
    case OfStorage => t.storage
    case OfIo => t.io
    case OfTotal => t.total
  }

  function PodReading(p: PodReport, m: Measure): int
  {
    match m
    case OfCpu => p.cpuUw
    case OfMemory => p.memoryUw
    case OfGpu => p.gpuUw
    case OfStorage => p.storageUw
    case OfIo => p.ioUw
    case OfTotal => p.totalUw
  }

  function ReadingAt(pods: map<PodKey, PodState>, m: Measure): PodKey -> int
  {
    (k: PodKey) => if k in pods then PodReading(pods[k].report, m) else 0
  }

  lemma ReadingOfKey(pods: map<PodKey, PodState>, k: PodKey, rest: Tally, m: Measure)
    ensures Reading(Plus(OfKey(pods, k), rest), m) == ReadingAt(pods, m)(k) + Reading(rest, m)
  {
  }

  /** Every field of the sum is the sum of that field over the pods. */
  lemma {:induction false} SumIs(keys: set<PodKey>, pods: map<PodKey, PodState>, m: Measure)
    ensures Reading(Sum(keys, pods), m) == SumI(keys, ReadingAt(pods, m))
    decreases |keys|
  {
    if keys != {} {
      var k :| k in keys;
      var rest, f := keys - {k}, ReadingAt(pods, m);
      SumIs(rest, pods, m);
      assert Reading(Sum(keys, pods), m) == f(k) + Reading(Sum(rest, pods), m) by {
        SumTake(keys, pods, k);
        ReadingOfKey(pods, k, Sum(rest, pods), m);
      }
      SumITake(keys, f, k);
    }
  }

  /** Each pod counts once. */
  lemma {:induction false} SumCounts(keys: set<PodKey>, pods: map<PodKey, PodState>)
    requires keys <= pods.Keys
    ensures Sum(keys, pods).count == |keys|
    decreases |keys|
  {
    if keys != {} {
      var k :| k in keys;
      SumTake(keys, pods, k);
      SumCounts(keys - {k}, pods);
    }
  }

  /** Only the entries of the keys matter. */
  lemma {:induction false} SumSame(keys: set<PodKey>, pods: map<PodKey, PodState>, others: map<PodKey, PodState>)
    requires forall k :: k in keys ==> k in pods && k in others && pods[k] == others[k]
    ensures Sum(keys, pods) == Sum(keys, others)
    decreases |keys|
  {
    if keys != {} {
      var k :| k in keys;
      SumTake(keys, pods, k);
      SumTake(keys, others, k);
      SumSame(keys - {k}, pods, others);
    }
  }

  /** A part of some pods has the same sum only if it is all of them. */
  lemma PartIsWholeIff(part: set<PodKey>, whole: set<PodKey>, pods: map<PodKey, PodState>)
    requires part <= whole <= pods.Keys
    ensures Sum(part, pods) == Sum(whole, pods) <==> part == whole
  {
    SumCounts(part, pods);
    SumCounts(whole, pods);
    SubsetSize(part, whole);
  }

  lemma SubsetSize<T>(part: set<T>, whole: set<T>)
    requires part <= whole
    ensures |part| == |whole| <==> part == whole
  {
    assert whole == part + (whole - part);
    assert |whole| == |part| + |whole - part|;
  }

  lemma SumNone(pods: map<PodKey, PodState>)
    ensures Sum({}, pods) == ZERO
  {
  }

  /** The sum over a list of reports. */
  function SumSeq(reports: seq<PodReport>): Tally
  {
    if reports == [] then ZERO else Plus(SumSeq(reports[..|reports| - 1]), Of(reports[|reports| - 1]))
  }

  // Descending order.

  ghost predicate Descending<T>(s: seq<T>, key: T -> int)
  {
    forall i, j :: 0 <= i < j < |s| ==> key(s[i]) >= key(s[j])
  }

  function InsertDescending<T>(x: T, s: seq<T>, key: T -> int): (r: seq<T>)
    requires Descending(s, key)
    ensures multiset(r) == multiset(s) + multiset{x}
    ensures Descending(r, key)
  {
    if s == [] then [x]
    else if key(x) >= key(s[0]) then
      assert [x] + s == [x] + s;
      [x] + s
    else
      assert s == [s[0]] + s[1..];
      var t := InsertDescending(x, s[1..], key);
      InsertedBelow(x, s, t, key);
      [s[0]] + t
  }

  lemma InsertedBelow<T>(x: T, s: seq<T>, t: seq<T>, key: T -> int)
    requires s != [] && Descending(s, key) && key(x) < key(s[0])
    requires Descending(t, key) && multiset(t) == multiset(s[1..]) + multiset{x}
    ensures Descending([s[0]] + t, key)
  {
    forall j | 0 <= j < |t| ensures key(s[0]) >= key(t[j]) {
      assert t[j] in multiset(t);
      if t[j] != x { assert t[j] in s[1..]; }
    }
  }

  /** `sort_by(|a, b| b.total.cmp(&a.total))`. */
  function SortDescending<T>(s: seq<T>, key: T -> int): (r: seq<T>)
    ensures multiset(r) == multiset(s)
    ensures Descending(r, key)
  {
    if s == [] then []
    else
      assert s == [s[0]] + s[1..];
      InsertDescending(s[0], SortDescending(s[1..], key), key)
  }

  ghost predicate UniqueBy<T>(s: seq<T>, name: T -> string)
  {
    forall i, j :: 0 <= i < j < |s| ==> name(s[i]) != name(s[j])
  }

  lemma UniqueUnderSorting<T>(a: seq<T>, b: seq<T>, name: T -> string)
    requires multiset(a) == multiset(b) && UniqueBy(a, name)
    ensures UniqueBy(b, name)
  {
    forall i, j | 0 <= i < j < |b| ensures name(b[i]) != name(b[j]) {
      if name(b[i]) == name(b[j]) {
        assert b[i] in multiset(b) && b[j] in multiset(b);
        assert b[i] in a && b[j] in a;
        var p :| 0 <= p < |a| && a[p] == b[i];
        var q :| 0 <= q < |a| && a[q] == b[j];
        assert p == q;
        TwiceInSeq(b, i, j);
        OnceInSeq(a, p, name);
      }
    }
  }

  lemma TwiceInSeq<T>(s: seq<T>, i: nat, j: nat)
    requires i < j < |s| && s[i] == s[j]
    ensures multiset(s)[s[i]] >= 2
  {
    assert s == s[..j] + [s[j]] + s[j + 1..];
    assert s[i] in s[..j];
  }

  lemma OnceInSeq<T>(s: seq<T>, i: nat, name: T -> string)
    requires i < |s| && UniqueBy(s, name)
    ensures multiset(s)[s[i]] == 1
  {
    assert s == s[..i] + [s[i]] + s[i + 1..];
    assert s[i] !in s[..i] && s[i] !in s[i + 1..];
  }

  /** The values of a hash map, in any order, sorted by descending key: each value once. */
  method Listed<T(==, !new)>(entries: map<string, T>, name: T -> string, key: T -> int) returns (r: seq<T>)
    requires forall n :: n in entries ==> name(entries[n]) == n
    ensures Descending(r, key) && UniqueBy(r, name)
    ensures forall e :: e in r <==> name(e) in entries && entries[name(e)] == e
  {
    var todo := entries.Keys;
    var all: seq<T> := [];
    while todo != {}
      invariant todo <= entries.Keys
      invariant forall e :: e in all <==> name(e) in entries && name(e) !in todo && entries[name(e)] == e
      invariant UniqueBy(all, name)
    {
      var n :| n in todo;
      todo := todo - {n};
      all := all + [entries[n]];
    }
    r := SortDescending(all, key);
    UniqueUnderSorting(all, r, name);
    assert forall e :: e in r <==> e in multiset(r);
    assert forall e :: e in all <==> e in multiset(all);
  }
}
