/** Sums over lists, and over hash maps whose values are lists. */
module SeqSums {
  import opened Sums

  function SeqSum<T>(r: seq<T>, f: T -> int): int
  {
    if r == [] then 0 else SeqSum(r[..|r| - 1], f) + f(r[|r| - 1])
  }

  function SeqSumR<T>(r: seq<T>, f: T -> real): real
  {
    if r == [] then 0.0 else SeqSumR(r[..|r| - 1], f) + f(r[|r| - 1])
  }

  /** The sum of the list itself. */
  function SumSeq(s: seq<nat>): nat
  {
    if s == [] then 0 else SumSeq(s[..|s| - 1]) + s[|s| - 1]
  }

  lemma SeqSumAppend<T>(r: seq<T>, x: T, f: T -> int)
    ensures SeqSum(r + [x], f) == SeqSum(r, f) + f(x)
  {
    assert (r + [x])[..|r|] == r;
  }

  lemma {:induction false} SeqSumConcat<T>(r: seq<T>, t: seq<T>, f: T -> int)
    ensures SeqSum(r + t, f) == SeqSum(r, f) + SeqSum(t, f)
  {
    if t == [] {
      assert r + t == r;
    } else {
      var n := |t| - 1;
      SeqSumConcat(r, t[..n], f);
      assert (r + t)[..|r| + n] == r + t[..n];
    }
  }

  lemma {:induction false} SeqSumSame<T>(a: seq<T>, b: seq<T>, f: T -> int, g: T -> int)
    requires |a| == |b| && forall i :: 0 <= i < |a| ==> f(a[i]) == g(b[i])
    ensures SeqSum(a, f) == SeqSum(b, g)
  {
    if a != [] { SeqSumSame(a[..|a| - 1], b[..|b| - 1], f, g); }
  }

  /** Two elements of a list of nonnegative values are part of its sum. */
  lemma {:induction false} SeqSumHasTwo<T>(r: seq<T>, f: T -> int, i: nat, j: nat)
    requires i < j < |r| && forall k :: 0 <= k < |r| ==> f(r[k]) >= 0
    ensures f(r[i]) + f(r[j]) <= SeqSum(r, f)
  {
    var n := |r| - 1;
    if j < n { SeqSumHasTwo(r[..n], f, i, j); } else { SeqSumHasOne(r[..n], f, i); }
  }

  lemma {:induction false} SeqSumHasOne<T>(r: seq<T>, f: T -> int, i: nat)
    requires i < |r| && forall k :: 0 <= k < |r| ==> f(r[k]) >= 0
    ensures f(r[i]) <= SeqSum(r, f)
  {
    var n := |r| - 1;
    if i < n { SeqSumHasOne(r[..n], f, i); } else { SeqSumNonneg(r[..n], f); }
  }

  lemma {:induction false} SeqSumNonneg<T>(r: seq<T>, f: T -> int)
    requires forall k :: 0 <= k < |r| ==> f(r[k]) >= 0
    ensures SeqSum(r, f) >= 0
  {
    if r != [] { SeqSumNonneg(r[..|r| - 1], f); }
  }

  /** Replacing one element changes the sum by its own change. */
  lemma {:induction false} SeqSumUpdate<T>(r: seq<T>, i: nat, x: T, f: T -> int)
    requires i < |r|
    ensures SeqSum(r[i := x], f) == SeqSum(r, f) - f(r[i]) + f(x)
  {
    var n := |r| - 1;
    if i == n {
      assert r[i := x][..n] == r[..n];
    } else {
      assert r[i := x][..n] == r[..n][i := x];
      SeqSumUpdate(r[..n], i, x, f);
    }
  }

  // Lists grouped by key.

  function ListAt<K, T>(m: map<K, seq<T>>, k: K): seq<T>
  {
    if k in m then m[k] else []
  }

  /** `m.entry(k).or_default().push(x)`. */
  function Push<K, T>(m: map<K, seq<T>>, k: K, x: T): map<K, seq<T>>
  {
    m[k := ListAt(m, k) + [x]]
  }

  ghost function ListSums<K, T>(m: map<K, seq<T>>, f: T -> int): K -> int
  {
    (k: K) => SeqSum(ListAt(m, k), f)
  }

  ghost function GroupSum<K(!new), T>(m: map<K, seq<T>>, f: T -> int): int
  {
    SumI(m.Keys, ListSums(m, f))
  }

  lemma {:induction false} PushSum<K(!new), T>(m: map<K, seq<T>>, k: K, x: T, f: T -> int)
    ensures GroupSum(Push(m, k, x), f) == GroupSum(m, f) + f(x)
  {
    var m' := Push(m, k, x);
    SeqSumAppend(ListAt(m, k), x, f);
    SumISame(m.Keys - {k}, ListSums(m, f), ListSums(m', f));
    SumITake(m'.Keys, ListSums(m', f), k);
    assert m'.Keys - {k} == m.Keys - {k};
    if k in m { SumITake(m.Keys, ListSums(m, f), k); } else { assert m.Keys - {k} == m.Keys; }
  }
}
