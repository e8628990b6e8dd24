/** Which entries of a list decide a key: whether there is one, and the last one. */
module Entries {
  ghost predicate Has<T>(s: seq<T>, p: T -> bool)
  {
    exists i :: 0 <= i < |s| && p(s[i])
  }

  ghost predicate IsLast<T>(s: seq<T>, i: nat, p: T -> bool)
  {
    i < |s| && p(s[i]) && forall j :: i < j < |s| ==> !p(s[j])
  }

  /** The keys of the entries. */
  function Keys<T, K>(s: seq<T>, key: T -> K): set<K>
  {
    set i | 0 <= i < |s| :: key(s[i])
  }

  lemma KeysOneMore<T, K>(s: seq<T>, x: T, key: T -> K)
    ensures Keys(s + [x], key) == Keys(s, key) + {key(x)}
  {
    var more := s + [x];
    assert more[|s|] == x;
    forall k | k in Keys(s, key) ensures k in Keys(more, key) {
      var i :| 0 <= i < |s| && key(s[i]) == k;
      assert more[i] == s[i];
    }
  }

  /** One entry more, seen from the end. */
  lemma LastEntry<T>(s: seq<T>, p: T -> bool)
    requires s != []
    ensures var n := |s| - 1;
      && (Has(s, p) <==> p(s[n]) || Has(s[..n], p))
      && forall i: nat :: IsLast(s, i, p) ==> if p(s[n]) then i == n else IsLast(s[..n], i, p)
  {
    var n := |s| - 1;
    if i :| 0 <= i < n && p(s[..n][i]) { assert p(s[i]); }
    if i :| 0 <= i < |s| && p(s[i]) { assert i == n || p(s[..n][i]); }
  }
}
