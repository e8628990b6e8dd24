/** `group_power` has no filter on the metering method: when a group agrees with the view of one method. */
module GroupMethods {
  import opened Options
  import opened Aggregator
  import opened Tallies
  import opened ClusterViews
  import Grouping

  function ByNamespace(cls: Grouping.Classification): Grouping.Query
  {
    Grouping.Query(Grouping.Namespace, None, cls)
  }

  lemma MembersAreTheNamespace(pods: map<PodKey, PodState>, cls: Grouping.Classification, ns: string)
    ensures Grouping.Members(pods, Grouping.Assignments(ByNamespace(cls)), ns) == InNamespace(pods, ns)
  {
    var f := Grouping.Assignments(ByNamespace(cls));
    forall k | k in pods ensures Grouping.Belongs(f, pods[k].report, ns) <==> pods[k].report.namespace == ns {
      assert f(pods[k].report) == Grouping.Assigned(ByNamespace(cls), pods[k].report);
    }
  }

  /** A namespace's group is the sum over all stored pods of the namespace, whatever their method. */
  lemma GroupIsTheNamespace(r: seq<Grouping.Group>, i: nat, pods: map<PodKey, PodState>, cls: Grouping.Classification)
    requires Grouping.IsView(r, pods, ByNamespace(cls)) && i < |r|
    ensures r[i].tally == Sum(InNamespace(pods, r[i].id.key), pods)
  {
    Grouping.ViewIsTallied(r, pods, Grouping.Assignments(ByNamespace(cls)), Grouping.Categories(cls));
    MembersAreTheNamespace(pods, cls, r[i].id.key);
  }

  /** A namespace's group is the method's entry in `namespace_power` exactly if every stored pod of the
      namespace is of that method. */
  lemma GroupMatchesMethodIff(r: seq<Grouping.Group>, i: nat, s: State, cls: Grouping.Classification,
                              filter: Option<string>)
    requires Grouping.IsView(r, s.pods, ByNamespace(cls)) && i < |r|
    ensures r[i].tally == NamespaceTally(PodsOf(s, filter), r[i].id.key) <==>
            forall k :: k in s.pods && s.pods[k].report.namespace == r[i].id.key ==>
              Matches(s.pods[k].report.meteringMethod, filter)
  {
    var ns, mine := r[i].id.key, PodsOf(s, filter);
    GroupIsTheNamespace(r, i, s.pods, cls);
    PartOfNamespace(s, filter, ns);
    SumSame(InNamespace(mine, ns), mine, s.pods);
    PartIsWholeIff(InNamespace(mine, ns), InNamespace(s.pods, ns), s.pods);
  }

  lemma PartOfNamespace(s: State, filter: Option<string>, ns: string)
    ensures InNamespace(PodsOf(s, filter), ns) <= InNamespace(s.pods, ns)
    ensures InNamespace(PodsOf(s, filter), ns) == InNamespace(s.pods, ns) <==>
            forall k :: k in s.pods && s.pods[k].report.namespace == ns ==>
              Matches(s.pods[k].report.meteringMethod, filter)
  {
    var part, whole := InNamespace(PodsOf(s, filter), ns), InNamespace(s.pods, ns);
    forall k | k in whole ensures k in part <==> Matches(s.pods[k].report.meteringMethod, filter) {
      assert k in PodsOf(s, filter) <==> Matches(s.pods[k].report.meteringMethod, filter);
    }
    if part == whole {
      forall k | k in s.pods && s.pods[k].report.namespace == ns
        ensures Matches(s.pods[k].report.meteringMethod, filter) {
        assert k in whole;
      }
    }
  }

  /** The same pod reported by both methods. */
  ghost predicate ReportedTwice(ops: seq<Op>, pod: PodReport)
  {
    && |ops| == 2 && ops[0].Ingest? && ops[1].Ingest? && ops[0].now == ops[0].later == ops[1].now == ops[1].later
    && ops[0].report.pods == [pod] && ops[1].report.pods == [pod] && pod.meteringMethod == ""
    && ops[0].report.node.meteringMethod == "keck" && ops[1].report.node.meteringMethod == "kepler"
  }

  lemma FirstReport(ops: seq<Op>, pod: PodReport, k: PodKey)
    requires ReportedTwice(ops, pod)
    ensures PodAt(Run(ops[..1]), k) == if k == PodKey(pod.podUid, "keck")
      then Some(PodState(Stamp(pod, "keck"), ops[0].now)) else None
  {
    var op := ops[0];
    assert ops[..1][..0] == [] && ops[..1][0] == op && op.report.pods[0] == pod;
    assert Run(ops[..1]) == Apply(EMPTY, op);
    AcceptAt(EMPTY, op.report, op.now, k);
    EvictAt(Accept(EMPTY, op.report, op.now), op.later, k);
  }

  /** Both entries are stored, and nothing else. */
  lemma BothAreStored(ops: seq<Op>, pod: PodReport, k: PodKey)
    requires ReportedTwice(ops, pod)
    ensures PodAt(Run(ops), k) ==
            if k.uid == pod.podUid && (k.meter == "keck" || k.meter == "kepler")
              then Some(PodState(Stamp(pod, k.meter), ops[0].now)) else None
  {
    var op := ops[1];
    FirstReport(ops, pod, k);
    assert op.report.pods[0] == pod;
    assert Run(ops) == Apply(Run(ops[..1]), op);
    AcceptAt(Run(ops[..1]), op.report, op.now, k);
    EvictAt(Accept(Run(ops[..1]), op.report, op.now), op.later, k);
  }

  ghost predicate TwoEntries(pods: map<PodKey, PodState>, pod: PodReport)
  {
    && (forall k :: k in pods <==> k == PodKey(pod.podUid, "keck") || k == PodKey(pod.podUid, "kepler"))
    && (forall k :: k in pods ==> Of(pods[k].report) == Of(pod) && pods[k].report.namespace == pod.namespace)
  }

  lemma TwoKeys(ops: seq<Op>, pod: PodReport)
    requires ReportedTwice(ops, pod)
    ensures TwoEntries(Run(ops).pods, pod)
  {
    forall k
      ensures k in Run(ops).pods <==> k == PodKey(pod.podUid, "keck") || k == PodKey(pod.podUid, "kepler")
      ensures k in Run(ops).pods ==>
        Of(Run(ops).pods[k].report) == Of(pod) && Run(ops).pods[k].report.namespace == pod.namespace
    {
      BothAreStored(ops, pod, k);
    }
  }

  lemma TwoEntriesAddUp(pods: map<PodKey, PodState>, pod: PodReport)
    requires TwoEntries(pods, pod)
    ensures Sum(InNamespace(pods, pod.namespace), pods) == Plus(Of(pod), Of(pod))
  {
    var a, b := PodKey(pod.podUid, "keck"), PodKey(pod.podUid, "kepler");
    assert |"keck"| != |"kepler"|;
    assert InNamespace(pods, pod.namespace) == {a, b};
    SumTake({a, b}, pods, a);
    SumOfOne({a, b} - {a}, pods, b);
  }

  lemma SumOfOne(keys: set<PodKey>, pods: map<PodKey, PodState>, k: PodKey)
    requires keys == {k}
    ensures Sum(keys, pods) == OfKey(pods, k)
  {
    SumTake(keys, pods, k);
    assert keys - {k} == {};
    SumNone(pods);
  }

  /** A pod that both methods report is counted twice in its namespace's group. */
  lemma PodCountsTwice(ops: seq<Op>, pod: PodReport, r: seq<Grouping.Group>, cls: Grouping.Classification)
    requires ReportedTwice(ops, pod) && Grouping.IsView(r, Run(ops).pods, ByNamespace(cls))
    ensures Clocked(ops)
    ensures |r| == 1 && r[0].id.key == pod.namespace && r[0].tally == Plus(Of(pod), Of(pod))
  {
    ClockedTwice(ops, pod);
    TwoKeys(ops, pod);
    OneGroup(r, Run(ops).pods, cls, pod.namespace, PodKey(pod.podUid, "keck"));
    GroupIsTheNamespace(r, 0, Run(ops).pods, cls);
    TwoEntriesAddUp(Run(ops).pods, pod);
  }

  lemma ClockedTwice(ops: seq<Op>, pod: PodReport)
    requires ReportedTwice(ops, pod)
    ensures Clocked(ops)
  {
    assert ops[..1][..0] == [];
  }

  lemma OneGroup(r: seq<Grouping.Group>, pods: map<PodKey, PodState>, cls: Grouping.Classification, ns: string,
                 k: PodKey)
    requires Grouping.IsView(r, pods, ByNamespace(cls)) && k in pods
    requires forall j :: j in pods ==> pods[j].report.namespace == ns
    ensures |r| == 1 && r[0].id.key == ns
  {
    assert |r| > 1 ==> Grouping.GROUP_KEY(r[0]) != Grouping.GROUP_KEY(r[1]);
    SomeGroup(r, pods, cls, k);
    forall i | 0 <= i < |r| ensures r[i].id.key == ns { KeyIsTheNamespace(r, pods, cls, ns, i); }
  }

  lemma SomeGroup(r: seq<Grouping.Group>, pods: map<PodKey, PodState>, cls: Grouping.Classification, k: PodKey)
    requires Grouping.IsView(r, pods, ByNamespace(cls)) && k in pods
    ensures |r| > 0
  {
    var f := Grouping.Assignments(ByNamespace(cls));
    assert f(pods[k].report) == Grouping.Assigned(ByNamespace(cls), pods[k].report);
  }

  lemma KeyIsTheNamespace(r: seq<Grouping.Group>, pods: map<PodKey, PodState>, cls: Grouping.Classification, ns: string,
                          i: nat)
    requires Grouping.IsView(r, pods, ByNamespace(cls)) && i < |r|
    requires forall j :: j in pods ==> pods[j].report.namespace == ns
    ensures r[i].id.key == ns
  {
    var f := Grouping.Assignments(ByNamespace(cls));
    MembersAreTheNamespace(pods, cls, r[i].id.key);
    assert Grouping.IsGroup(r[i], pods, f, Grouping.Categories(cls), Grouping.Members(pods, f, r[i].id.key));
  }
}
