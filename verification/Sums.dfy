/** Finite sums over sets of keys, independent of the order in which the keys are visited.
    They specify the loops that walk a hash map in an unspecified order. */
module Sums {

  /** The sum of f over s. */
  ghost function SumR<K(!new)>(s: set<K>, f: K -> real): real
  {
    if s == {} then 0.0 else var k :| k in s; f(k) + SumR(s - {k}, f)
  }

  /** The sum of f over s, for integers. */
  ghost function SumI<K(!new)>(s: set<K>, f: K -> int): int
  {
    if s == {} then 0 else var k :| k in s; f(k) + SumI(s - {k}, f)
  }

  /** Any key may be taken out first: the sum does not depend on the order of iteration. */
  lemma {:induction false} SumRTake<K(!new)>(s: set<K>, f: K -> real, k: K)
    requires k in s
    ensures SumR(s, f) == f(k) + SumR(s - {k}, f)
    decreases |s|
  {
    var j :| j in s && SumR(s, f) == f(j) + SumR(s - {j}, f);
    if j != k {
      SumRTake(s - {j}, f, k);
      SumRTake(s - {k}, f, j);
      assert s - {j} - {k} == s - {k} - {j};
    }
  }

  lemma {:induction false} SumITake<K(!new)>(s: set<K>, f: K -> int, k: K)
    requires k in s
    ensures SumI(s, f) == f(k) + SumI(s - {k}, f)
    decreases |s|
  {
    var j :| j in s && SumI(s, f) == f(j) + SumI(s - {j}, f);
    if j != k {
      SumITake(s - {j}, f, k);
      SumITake(s - {k}, f, j);
      assert s - {j} - {k} == s - {k} - {j};
    }
  }

  lemma {:induction false} SumRAdd<K(!new)>(s: set<K>, f: K -> real, k: K)
    requires k !in s
    ensures SumR(s + {k}, f) == SumR(s, f) + f(k)
  {
    SumRTake(s + {k}, f, k);
    assert s + {k} - {k} == s;
  }

  lemma {:induction false} SumIAdd<K(!new)>(s: set<K>, f: K -> int, k: K)
    requires k !in s
    ensures SumI(s + {k}, f) == SumI(s, f) + f(k)
  {
    SumITake(s + {k}, f, k);
    assert s + {k} - {k} == s;
  }

  /** Only the values on s matter. */
  lemma {:induction false} SumRSame<K(!new)>(s: set<K>, f: K -> real, g: K -> real)
    requires forall k :: k in s ==> f(k) == g(k)
    ensures SumR(s, f) == SumR(s, g)
    decreases |s|
  {
    if s != {} {
      var k :| k in s;
      SumRTake(s, f, k);
      SumRTake(s, g, k);
      SumRSame(s - {k}, f, g);
    }
  }

  lemma {:induction false} SumISame<K(!new)>(s: set<K>, f: K -> int, g: K -> int)
    requires forall k :: k in s ==> f(k) == g(k)
    ensures SumI(s, f) == SumI(s, g)
    decreases |s|
  {
    if s != {} {
      var k :| k in s;
      SumITake(s, f, k);
      SumITake(s, g, k);
      SumISame(s - {k}, f, g);
    }
  }

  lemma {:induction false} SumRMono<K(!new)>(s: set<K>, f: K -> real, g: K -> real)
    requires forall k :: k in s ==> f(k) <= g(k)
    ensures SumR(s, f) <= SumR(s, g)
    decreases |s|
  {
    if s != {} {
      var k :| k in s;
      SumRTake(s, f, k);
      SumRTake(s, g, k);
      SumRMono(s - {k}, f, g);
    }
  }

  lemma {:induction false} SumRNonneg<K(!new)>(s: set<K>, f: K -> real)
    requires forall k :: k in s ==> 0.0 <= f(k)
    ensures 0.0 <= SumR(s, f)
    ensures forall k :: k in s ==> f(k) <= SumR(s, f)
    decreases |s|
  {
    if s != {} {
      var k :| k in s;
      SumRTake(s, f, k);
      SumRNonneg(s - {k}, f);
      assert forall j :: j in s ==> j == k || j in s - {k};
    }
  }

  lemma {:induction false} SumINonneg<K(!new)>(s: set<K>, f: K -> int)
    requires forall k :: k in s ==> 0 <= f(k)
    ensures 0 <= SumI(s, f)
    ensures forall k :: k in s ==> f(k) <= SumI(s, f)
    decreases |s|
  {
    if s != {} {
      var k :| k in s;
      SumITake(s, f, k);
      SumINonneg(s - {k}, f);
      assert forall j :: j in s ==> j == k || j in s - {k};
    }
  }

  /** The product, as a function so that it is expanded only where a proof needs it. */
  function Times(c: real, x: real): real { c * x }

  lemma TimesDistributes(c: real, a: real, b: real)
    ensures Times(c, a + b) == Times(c, a) + Times(c, b)
  {
  }

  lemma {:induction false} SumRScale<K(!new)>(s: set<K>, f: K -> real, g: K -> real, c: real)
    requires forall k :: k in s ==> g(k) == Times(c, f(k))
    ensures SumR(s, g) == Times(c, SumR(s, f))
    decreases |s|
  {
    if s == {} {
      assert Times(c, 0.0) == 0.0;
    } else {
      var k :| k in s;
      SumRTake(s, f, k);
      SumRTake(s, g, k);
      SumRScale(s - {k}, f, g, c);
      TimesDistributes(c, f(k), SumR(s - {k}, f));
    }
  }

  lemma {:induction false} SumRPlus<K(!new)>(s: set<K>, f: K -> real, g: K -> real, h: K -> real)
    requires forall k :: k in s ==> h(k) == f(k) + g(k)
    ensures SumR(s, h) == SumR(s, f) + SumR(s, g)
    decreases |s|
  {
    if s != {} {
      var k :| k in s;
      SumRTake(s, f, k);
      SumRTake(s, g, k);
      SumRTake(s, h, k);
      SumRPlus(s - {k}, f, g, h);
    }
  }

  lemma {:induction false} SumIPlus<K(!new)>(s: set<K>, f: K -> int, g: K -> int, h: K -> int)
    requires forall k :: k in s ==> h(k) == f(k) + g(k)
    ensures SumI(s, h) == SumI(s, f) + SumI(s, g)
    decreases |s|
  {
    if s != {} {
      var k :| k in s;
      SumITake(s, f, k);
      SumITake(s, g, k);
      SumITake(s, h, k);
      SumIPlus(s - {k}, f, g, h);
    }
  }

  /** A sum splits over disjoint sets. */
  lemma {:induction false} SumRUnion<K(!new)>(s: set<K>, t: set<K>, f: K -> real)
    requires s !! t
    ensures SumR(s + t, f) == SumR(s, f) + SumR(t, f)
    decreases |t|
  {
    if t == {} {
      assert s + t == s;
    } else {
      var k :| k in t;
      SumRUnion(s, t - {k}, f);
      SumRTake(t, f, k);
      SumRTake(s + t, f, k);
      assert s + t - {k} == s + (t - {k});
    }
  }

  lemma {:induction false} SumIUnion<K(!new)>(s: set<K>, t: set<K>, f: K -> int)
    requires s !! t
    ensures SumI(s + t, f) == SumI(s, f) + SumI(t, f)
    decreases |t|
  {
    if t == {} {
      assert s + t == s;
    } else {
      var k :| k in t;
      SumIUnion(s, t - {k}, f);
      SumITake(t, f, k);
      SumITake(s + t, f, k);
      assert s + t - {k} == s + (t - {k});
    }
  }

  lemma {:induction false} SumIZero<K(!new)>(s: set<K>, f: K -> int)
    requires forall k :: k in s ==> f(k) == 0
    ensures SumI(s, f) == 0
    decreases |s|
  {
    if s != {} {
      var k :| k in s;
      SumITake(s, f, k);
      SumIZero(s - {k}, f);
    }
  }

  /** A sum of nonnegative numbers is positive exactly if one of them is. */
  lemma SumRPositiveIff<K(!new)>(s: set<K>, f: K -> real)
    requires forall k :: k in s ==> f(k) >= 0.0
    ensures SumR(s, f) > 0.0 <==> exists k :: k in s && f(k) > 0.0
  {
    SumRNonneg(s, f);
    if forall k :: k in s ==> f(k) <= 0.0 { SumRZero(s, f); }
  }

  lemma {:induction false} SumRZero<K(!new)>(s: set<K>, f: K -> real)
    requires forall k :: k in s ==> f(k) == 0.0
    ensures SumR(s, f) == 0.0
    decreases |s|
  {
    if s != {} {
      var k :| k in s;
      SumRTake(s, f, k);
      SumRZero(s - {k}, f);
    }
  }

  /** One key more is done: the step of a loop that visits a set in any order. */
  lemma OneVisited<K>(all: set<K>, todo: set<K>, done: set<K>, k: K)
    requires todo !! done && all == todo + done && k in todo
    ensures todo - {k} !! done + {k} && all == (todo - {k}) + (done + {k})
  {
  }

  /** The same when only the keys in `all` count. */
  lemma OneDone<K>(all: set<K>, todo: set<K>, k: K)
    requires k in todo
    ensures all - (todo - {k}) == if k in all then all - todo + {k} else all - todo
  {
  }

  /** A hash-map lookup that defaults to zero, as `entry(..).or_default()` does. */
  function Get<K>(m: map<K, int>, k: K): int
  {
    if k in m then m[k] else 0
  }

  function GetR<K>(m: map<K, real>, k: K): real
  {
    if k in m then m[k] else 0.0
  }

  ghost predicate NonnegValues<K>(m: map<K, real>)
  {
    forall k :: k in m ==> m[k] >= 0.0
  }

  function Values<K>(m: map<K, int>): K -> int
  {
    (k: K) => Get(m, k)
  }

  function ValuesR<K>(m: map<K, real>): K -> real
  {
    (k: K) => GetR(m, k)
  }

  /** The sum of all values of m. */
  ghost function Total<K(!new)>(m: map<K, int>): int
  {
    SumI(m.Keys, Values(m))
  }

  ghost function TotalR<K(!new)>(m: map<K, real>): real
  {
    SumR(m.Keys, ValuesR(m))
  }

  /** `*m.entry(k).or_default() += d` adds exactly d to the total. */
  lemma {:induction false} TotalBump<K(!new)>(m: map<K, int>, k: K, d: int)
    ensures Total(m[k := Get(m, k) + d]) == Total(m) + d
  {
    var m' := m[k := Get(m, k) + d];
    var f, g := Values(m), Values(m');
    SumISame(m.Keys - {k}, f, g);
    SumITake(m'.Keys, g, k);
    assert m'.Keys - {k} == m.Keys - {k};
    if k in m { SumITake(m.Keys, f, k); } else { assert m.Keys - {k} == m.Keys; }
  }
}
