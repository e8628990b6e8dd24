/** `group_power`: pods grouped by workload, label, namespace or application. */
module Grouping {
  import opened Options
  import opened Aggregator
  import opened Tallies
  import opened AggregatorObject

  datatype ApplicationDef = ApplicationDef(name: string, namespaces: seq<string>,
                                           labelSelectors: seq<map<string, string>>)

  datatype Classification = Classification(
    coNamespaces: map<string, string>, operatorNamespaces: set<string>, appDefs: seq<ApplicationDef>)

  /** `classify`: the category of a namespace, and its cluster operator if it has one. */
  function Classify(cls: Classification, namespace: string): (string, Option<string>)
  {
    if namespace in cls.coNamespaces then ("platform", Some(cls.coNamespaces[namespace]))
    else if namespace in cls.operatorNamespaces then ("operator", None)
    else ("application", None)
  }

  /** The operator namespaces are the subscription namespaces that no cluster operator owns. */
  method BuildClassification(coNamespaces: map<string, string>, subscriptions: seq<string>)
    returns (cls: Classification)
    ensures cls.coNamespaces == coNamespaces && cls.appDefs == []
    ensures cls.operatorNamespaces !! coNamespaces.Keys
    ensures forall ns :: Classify(cls, ns).0 == "operator" <==> ns in subscriptions && ns !in coNamespaces
    ensures forall ns :: Classify(cls, ns).0 == "platform" <==> ns in coNamespaces
  {
    var operators: set<string> := {};
    for i := 0 to |subscriptions|
      invariant operators == set ns | ns in subscriptions[..i] && ns !in coNamespaces
    {
      if subscriptions[i] !in coNamespaces {
        operators := operators + {subscriptions[i]};
      }
    }
    assert subscriptions[..|subscriptions|] == subscriptions;
    cls := Classification(coNamespaces, operators, []);
  }

  datatype GroupBy = Workload | Label(key: string) | Namespace | Application

  datatype GroupId = GroupId(key: string, name: string, kind: string)

  predicate Selects(selector: map<string, string>, labels: map<string, string>)
  {
    selector != map[] && forall k :: k in selector ==> k in labels && labels[k] == selector[k]
  }

  predicate AppMatches(app: ApplicationDef, r: PodReport)
  {
    r.namespace in app.namespaces ||
    exists i :: 0 <= i < |app.labelSelectors| && Selects(app.labelSelectors[i], r.labels)
  }

  /** The first application definition that claims the pod. */
  function MatchedApp(apps: seq<ApplicationDef>, r: PodReport): Option<string>
  {
    if apps == [] then None
    else if AppMatches(apps[0], r) then Some(apps[0].name)
    else MatchedApp(apps[1..], r)
  }

  function WorkloadId(r: PodReport): GroupId
  {
    if r.workloadUid == "" then GroupId(r.podUid, r.podName, "Pod")
    else GroupId(r.workloadUid, r.workloadName, r.workloadKind)
  }

  const PART_OF := "app.kubernetes.io/part-of"

  /** The group of a pod; None when the pod is skipped. */
  function IdOf(r: PodReport, grouping: GroupBy, cls: Classification): Option<GroupId>
  {
    match grouping
    case Workload => Some(WorkloadId(r))
    case Label(key) => if key in r.labels then Some(GroupId(r.labels[key], r.labels[key], key)) else None
    case Namespace => Some(GroupId(r.namespace, r.namespace, "Namespace"))
    case Application =>
      var co := Classify(cls, r.namespace).1;
      if co.Some? then Some(GroupId("co:" + co.value, co.value, "ClusterOperator"))
      else
        var app := if r.namespace in cls.coNamespaces then Some(cls.coNamespaces[r.namespace])
          else MatchedApp(cls.appDefs, r);
        if app.Some? then Some(GroupId("app:" + app.value, app.value, "KeckApplication"))
        else if PART_OF in r.labels then Some(GroupId("auto:" + r.labels[PART_OF], r.labels[PART_OF], "auto-detected"))
        else Some(WorkloadId(r))
  }

  // What the groups are, rule by rule.

  /** A namespace is the platform's if a cluster operator owns it, an operator's if a subscription does, and an
      application's otherwise. */
  lemma ClassifyIs(cls: Classification, ns: string)
    ensures var c := Classify(cls, ns);
      && (c.0 == "platform" <==> ns in cls.coNamespaces)
      && (c.0 == "operator" <==> ns !in cls.coNamespaces && ns in cls.operatorNamespaces)
      && (c.0 == "application" <==> ns !in cls.coNamespaces && ns !in cls.operatorNamespaces)
      && c.1 == if ns in cls.coNamespaces then Some(cls.coNamespaces[ns]) else None
  {
    assert "platform"[0] != "operator"[0] && "operator"[0] != "application"[0] && "platform"[0] != "application"[0];
  }

  /** An application claims the pods of its namespaces, and those that carry all labels of one of its selectors. */
  ghost predicate Claims(app: ApplicationDef, r: PodReport)
  {
    r.namespace in app.namespaces ||
    exists selector :: selector in app.labelSelectors && selector != map[] && selector.Items <= r.labels.Items
  }

  lemma ClaimsIff(app: ApplicationDef, r: PodReport)
    ensures AppMatches(app, r) <==> Claims(app, r)
  {
    forall selector: map<string, string>
      ensures Selects(selector, r.labels) <==> selector != map[] && selector.Items <= r.labels.Items
    {
      SelectsIff(selector, r.labels);
    }
  }

  lemma SelectsIff(selector: map<string, string>, labels: map<string, string>)
    ensures Selects(selector, labels) <==> selector != map[] && selector.Items <= labels.Items
  {
    if Selects(selector, labels) {
      forall x | x in selector.Items ensures x in labels.Items { assert x.0 in selector && selector[x.0] == x.1; }
    }
    if selector.Items <= labels.Items {
      forall k | k in selector ensures k in labels && labels[k] == selector[k] {
        assert (k, selector[k]) in selector.Items;
      }
    }
  }

  /** The first application in the list that claims the pod. */
  ghost predicate FirstClaim(apps: seq<ApplicationDef>, r: PodReport, i: nat)
  {
    i < |apps| && Claims(apps[i], r) && forall j :: 0 <= j < i ==> !Claims(apps[j], r)
  }

  lemma {:induction false} MatchedAppIs(apps: seq<ApplicationDef>, r: PodReport)
    ensures MatchedApp(apps, r).Some? <==> exists i :: 0 <= i < |apps| && Claims(apps[i], r)
    ensures forall i: nat :: FirstClaim(apps, r, i) ==> MatchedApp(apps, r) == Some(apps[i].name)
  {
    if apps != [] {
      ClaimsIff(apps[0], r);
      MatchedAppIs(apps[1..], r);
      if i :| 0 <= i < |apps| - 1 && Claims(apps[1..][i], r) { assert Claims(apps[i + 1], r); }
      if i :| 0 <= i < |apps| && Claims(apps[i], r) { assert i == 0 || Claims(apps[1..][i - 1], r); }
      forall i: nat | FirstClaim(apps, r, i) ensures MatchedApp(apps, r) == Some(apps[i].name) {
        if i > 0 { assert FirstClaim(apps[1..], r, i - 1); }
      }
    }
  }

  /** The workload of a pod, or the pod itself without one. */
  predicate IsWorkload(id: GroupId, r: PodReport)
  {
    if r.workloadUid != "" then id.key == r.workloadUid && id.name == r.workloadName && id.kind == r.workloadKind
    else id.key == r.podUid && id.name == r.podName && id.kind == "Pod"
  }

  /** The application of a pod: its cluster operator, else the first definition that claims it, else its
      part-of label, else its workload. */
  ghost predicate IsApplication(id: GroupId, r: PodReport, cls: Classification)
  {
    if r.namespace in cls.coNamespaces then
      var co := cls.coNamespaces[r.namespace]; id == GroupId("co:" + co, co, "ClusterOperator")
    else if exists i :: 0 <= i < |cls.appDefs| && Claims(cls.appDefs[i], r) then
      forall i: nat :: FirstClaim(cls.appDefs, r, i) ==>
        var app := cls.appDefs[i].name; id == GroupId("app:" + app, app, "KeckApplication")
    else if "app.kubernetes.io/part-of" in r.labels then
      var app := r.labels["app.kubernetes.io/part-of"]; id == GroupId("auto:" + app, app, "auto-detected")
    else IsWorkload(id, r)
  }

  /** The group a pod is put in, for every kind of grouping; only a missing label leaves it out. */
  lemma GroupIs(r: PodReport, grouping: GroupBy, cls: Classification)
    ensures IdOf(r, grouping, cls).None? <==> grouping.Label? && grouping.key !in r.labels
    ensures IdOf(r, grouping, cls).Some? ==>
      var id := IdOf(r, grouping, cls).value;
      match grouping
      case Workload => IsWorkload(id, r)
      case Label(key) => id.key == id.name == r.labels[key] && id.kind == key
      case Namespace => id.key == id.name == r.namespace && id.kind == "Namespace"
      case Application => IsApplication(id, r, cls)
  {
    if grouping.Application? {
      ClassifyIs(cls, r.namespace);
      MatchedAppIs(cls.appDefs, r);
    }
  }

  predicate InCategory(r: PodReport, category: Option<string>, cls: Classification)
  {
    category.Some? ==> Classify(cls, r.namespace).0 == category.value
  }

  datatype Query = Query(grouping: GroupBy, category: Option<string>, cls: Classification)

  /** The group of a pod under a query; None when the loop skips it. */
  function Assigned(q: Query, r: PodReport): Option<GroupId>
  {
    if !InCategory(r, q.category, q.cls) then None else IdOf(r, q.grouping, q.cls)
  }

  /** A query keeps a pod exactly if its namespace is of the category asked for and it has a group. */
  lemma AssignedIff(q: Query, r: PodReport)
    ensures Assigned(q, r).Some? <==>
      && (q.category.Some? ==> q.category.value == Classify(q.cls, r.namespace).0)
      && IdOf(r, q.grouping, q.cls).Some?
    ensures Assigned(q, r).Some? ==> Assigned(q, r) == IdOf(r, q.grouping, q.cls)
    ensures Categories(q.cls)(r) == Classify(q.cls, r.namespace).0
  {
  }

  type Assignment = PodReport -> Option<GroupId>

  function Assignments(q: Query): Assignment
  {
    (r: PodReport) => Assigned(q, r)
  }

  function Categories(cls: Classification): PodReport -> string
  {
    (r: PodReport) => Classify(cls, r.namespace).0
  }

  datatype PodSummary = PodSummary(podUid: string, podName: string, cpu: nat, memory: nat, gpu: nat, total: nat)

  function SummaryOf(r: PodReport): PodSummary
  {
    PodSummary(r.podUid, r.podName, r.cpuUw, r.memoryUw, r.gpuUw, r.totalUw)
  }

  /** What a group says of one of its pods. */
  predicate Shows(s: PodSummary, r: PodReport)
  {
    && s.podUid == r.podUid && s.podName == r.podName
    && s.cpu == r.cpuUw && s.memory == r.memoryUw && s.gpu == r.gpuUw && s.total == r.totalUw
  }

  datatype Group = Group(id: GroupId, namespace: string, category: string, tally: Tally, pods: seq<PodSummary>)

  const GROUP_TOTAL: Group -> int := (g: Group) => g.tally.total
  const GROUP_KEY: Group -> string := (g: Group) => g.id.key

  // What the groups must be, for any assignment of pods to groups.

  predicate Belongs(f: Assignment, r: PodReport, key: string)
  {
    f(r).Some? && f(r).value.key == key
  }

  ghost function Members(pods: map<PodKey, PodState>, f: Assignment, key: string): set<PodKey>
  {
    set k | k in pods && Belongs(f, pods[k].report, key)
  }

  /** The pods listed by a group are its members, each once. */
  ghost predicate Lists(summaries: seq<PodSummary>, pods: map<PodKey, PodState>, members: set<PodKey>)
  {
    exists from: seq<PodKey> ::
      && |from| == |summaries| && Enumerates(from, members)
      && forall i :: 0 <= i < |from| ==> from[i] in pods && Shows(summaries[i], pods[from[i]].report)
  }

  ghost predicate AllIn(pods: map<PodKey, PodState>, members: set<PodKey>, namespace: string)
  {
    members != {} && forall k :: k in members ==> k in pods && pods[k].report.namespace == namespace
  }

  /** A group's namespace is nonempty exactly when all its pods share that nonempty namespace. */
  ghost predicate SharesNamespace(namespace: string, pods: map<PodKey, PodState>, members: set<PodKey>)
  {
    forall ns :: ns != "" ==> (AllIn(pods, members, ns) <==> namespace == ns)
  }

  /** The group's key, name, kind and category are those of one of its pods. */
  ghost predicate IsLabelled(id: GroupId, category: string, pods: map<PodKey, PodState>, f: Assignment,
                             c: PodReport -> string, members: set<PodKey>)
    requires members <= pods.Keys
  {
    exists k :: k in members && f(pods[k].report) == Some(id) && category == c(pods[k].report)
  }

  /** One entry is right for the members seen so far. */
  ghost predicate IsGroup(g: Group, pods: map<PodKey, PodState>, f: Assignment, c: PodReport -> string,
                          members: set<PodKey>)
  {
    && members <= pods.Keys
    && IsLabelled(g.id, g.category, pods, f, c, members)
    && SharesNamespace(g.namespace, pods, members)
    && g.tally == Sum(members, pods)
    && Lists(g.pods, pods, members)
  }

  ghost function Seen(pods: map<PodKey, PodState>, f: Assignment, key: string, done: set<PodKey>): set<PodKey>
  {
    Members(pods, f, key) * done
  }

  /** The entry of one key is there exactly if a pod with that key was seen, and it is right. */
  ghost predicate EntryOk(groups: map<string, Group>, pods: map<PodKey, PodState>, f: Assignment,
                          c: PodReport -> string,
                          key: string, members: set<PodKey>)
  {
    && (key in groups <==> members != {})
    && (key in groups ==> groups[key].id.key == key && IsGroup(groups[key], pods, f, c, members))
  }

  ghost predicate Accumulated(groups: map<string, Group>, pods: map<PodKey, PodState>, f: Assignment,
                              c: PodReport -> string, done: set<PodKey>)
  {
    forall key :: EntryOk(groups, pods, f, c, key, Seen(pods, f, key, done))
  }

  /** `groups.entry(key).or_insert_with(..)`. */
  function EntryFor(groups: map<string, Group>, id: GroupId, category: string, r: PodReport): Group
  {
    if id.key in groups then groups[id.key] else Group(id, r.namespace, category, ZERO, [])
  }

  /** The rest of the loop body: add the pod to its entry. */
  function AddTo(g: Group, r: PodReport): Group
  {
    Group(g.id, if g.namespace != r.namespace then "" else g.namespace, g.category,
          Plus(g.tally, Of(r)), g.pods + [SummaryOf(r)])
  }

  lemma ListsOneMore(summaries: seq<PodSummary>, pods: map<PodKey, PodState>, members: set<PodKey>, k: PodKey)
    requires Lists(summaries, pods, members) && k in pods && k !in members
    ensures Lists(summaries + [SummaryOf(pods[k].report)], pods, members + {k})
  {
    var from: seq<PodKey> :|
      && |from| == |summaries| && Enumerates(from, members)
      && forall i :: 0 <= i < |from| ==> from[i] in pods && Shows(summaries[i], pods[from[i]].report);
    var more := from + [k];
    assert Enumerates(more, members + {k});
  }

  lemma ListsNone(pods: map<PodKey, PodState>)
    ensures Lists([], pods, {})
  {
    var from: seq<PodKey> := [];
    assert Enumerates(from, {});
  }

  lemma NamespaceOneMore(namespace: string, pods: map<PodKey, PodState>, members: set<PodKey>, k: PodKey)
    requires members <= pods.Keys && k in pods
    requires if members == {} then namespace == pods[k].report.namespace else SharesNamespace(namespace, pods, members)
    ensures SharesNamespace(if namespace != pods[k].report.namespace then "" else namespace, pods, members + {k})
  {
    var after := if namespace != pods[k].report.namespace then "" else namespace;
    forall ns | ns != "" ensures AllIn(pods, members + {k}, ns) <==> after == ns {
      assert k in members + {k};
      assert members != {} ==> (AllIn(pods, members, ns) <==> namespace == ns);
    }
  }

  lemma NewGroup(id: GroupId, pods: map<PodKey, PodState>, f: Assignment, c: PodReport -> string, k: PodKey)
    requires k in pods && f(pods[k].report) == Some(id)
    ensures var r := pods[k].report;
            IsGroup(AddTo(Group(id, r.namespace, c(r), ZERO, []), r), pods, f, c, {} + {k})
  {
    var none: set<PodKey> := {};
    SumAdd(none, pods, k);
    SumNone(pods);
    ListsNone(pods);
    ListsOneMore([], pods, none, k);
    NamespaceOneMore(pods[k].report.namespace, pods, none, k);
    assert k in none + {k};
  }

  lemma GroupOneMore(g: Group, pods: map<PodKey, PodState>, f: Assignment, c: PodReport -> string, members: set<PodKey>,
                     k: PodKey)
    requires k in pods && k !in members && members != {} && IsGroup(g, pods, f, c, members)
    ensures IsGroup(AddTo(g, pods[k].report), pods, f, c, members + {k})
  {
    SumAdd(members, pods, k);
    ListsOneMore(g.pods, pods, members, k);
    NamespaceOneMore(g.namespace, pods, members, k);
    LabelledOneMore(g.id, g.category, pods, f, c, members, k);
  }

  lemma LabelledOneMore(id: GroupId, category: string, pods: map<PodKey, PodState>, f: Assignment,
                        c: PodReport -> string, members: set<PodKey>, k: PodKey)
    requires members <= pods.Keys && k in pods && IsLabelled(id, category, pods, f, c, members)
    ensures IsLabelled(id, category, pods, f, c, members + {k})
  {
    var j :| j in members && f(pods[j].report) == Some(id) && category == c(pods[j].report);
    assert j in members + {k};
  }

  lemma SeenOneMore(pods: map<PodKey, PodState>, f: Assignment, done: set<PodKey>, k: PodKey, key: string)
    requires k in pods && k !in done
    ensures Seen(pods, f, key, done + {k}) ==
            if Belongs(f, pods[k].report, key) then Seen(pods, f, key, done) + {k} else Seen(pods, f, key, done)
  {
  }

  /** The loop body. */
  function Visit(groups: map<string, Group>, f: Assignment, c: PodReport -> string, r: PodReport): map<string, Group>
  {
    if f(r).None? then groups
    else groups[f(r).value.key := AddTo(EntryFor(groups, f(r).value, c(r), r), r)]
  }

  lemma VisitEntry(groups: map<string, Group>, pods: map<PodKey, PodState>, f: Assignment, c: PodReport -> string,
                   key: string, members: set<PodKey>, k: PodKey)
    requires k in pods && k !in members && EntryOk(groups, pods, f, c, key, members)
    ensures EntryOk(Visit(groups, f, c, pods[k].report), pods, f, c, key,
                    if Belongs(f, pods[k].report, key) then members + {k} else members)
  {
    var r := pods[k].report;
    if Belongs(f, r, key) {
      if key in groups {
        GroupOneMore(groups[key], pods, f, c, members, k);
      } else {
        NewGroup(f(r).value, pods, f, c, k);
        assert members + {k} == {} + {k};
      }
    }
  }

  lemma PodAccumulates(groups: map<string, Group>, pods: map<PodKey, PodState>, f: Assignment, c: PodReport -> string,
                       done: set<PodKey>, k: PodKey)
    requires Accumulated(groups, pods, f, c, done) && k in pods && k !in done
    ensures Accumulated(Visit(groups, f, c, pods[k].report), pods, f, c, done + {k})
  {
    var after := Visit(groups, f, c, pods[k].report);
    forall key ensures EntryOk(after, pods, f, c, key, Seen(pods, f, key, done + {k})) {
      assert EntryOk(groups, pods, f, c, key, Seen(pods, f, key, done));
      VisitEntry(groups, pods, f, c, key, Seen(pods, f, key, done), k);
      SeenOneMore(pods, f, done, k, key);
    }
  }

  /** What `group_power` returns, whatever the order in which the pods are visited: one group for each
      key that some pod has, holding exactly the pods with that key, sorted by descending total. */
  ghost predicate IsGroupView(r: seq<Group>, pods: map<PodKey, PodState>, f: Assignment, c: PodReport -> string)
  {
    && Descending(r, GROUP_TOTAL) && UniqueBy(r, GROUP_KEY)
    && (forall i :: 0 <= i < |r| ==> IsGroup(r[i], pods, f, c, Members(pods, f, r[i].id.key)))
    && (forall k :: k in pods && f(pods[k].report).Some? ==>
         exists i :: 0 <= i < |r| && r[i].id.key == f(pods[k].report).value.key)
  }

  /** `group_power`. There is no filter on the metering method. */
  method GroupPower(pods: map<PodKey, PodState>, q: Query) returns (r: seq<Group>)
    ensures IsGroupView(r, pods, Assignments(q), Categories(q.cls))
  {
    r := GroupWith(pods, Assignments(q), Categories(q.cls));
  }

  method GroupWith(pods: map<PodKey, PodState>, f: Assignment, c: PodReport -> string) returns (r: seq<Group>)
    ensures IsGroupView(r, pods, f, c)
  {
    var groups: map<string, Group> := map[];
    var todo := pods.Keys;
    ghost var done: set<PodKey> := {};
    while todo != {}
      invariant todo !! done && pods.Keys == todo + done
      invariant Accumulated(groups, pods, f, c, done)
    {
      var k :| k in todo;
      PodAccumulates(groups, pods, f, c, done, k);
      groups := Visit(groups, f, c, pods[k].report);
      todo, done := todo - {k}, done + {k};
    }
    assert done == pods.Keys;
    assert forall key :: key in groups ==> EntryOk(groups, pods, f, c, key, Seen(pods, f, key, done));
    r := Listed(groups, GROUP_KEY, GROUP_TOTAL);
    ListedIsView(r, groups, pods, f, c);
  }

  lemma ListedIsView(r: seq<Group>, groups: map<string, Group>, pods: map<PodKey, PodState>, f: Assignment,
                     c: PodReport -> string)
    requires Accumulated(groups, pods, f, c, pods.Keys)
    requires Descending(r, GROUP_TOTAL) && UniqueBy(r, GROUP_KEY)
    requires forall e :: e in r <==> GROUP_KEY(e) in groups && groups[GROUP_KEY(e)] == e
    ensures IsGroupView(r, pods, f, c)
  {
    forall key ensures EntryOk(groups, pods, f, c, key, Members(pods, f, key)) {
      assert EntryOk(groups, pods, f, c, key, Seen(pods, f, key, pods.Keys));
      assert Seen(pods, f, key, pods.Keys) == Members(pods, f, key);
    }
    forall i | 0 <= i < |r| ensures IsGroup(r[i], pods, f, c, Members(pods, f, r[i].id.key)) {
      assert r[i] in r;
      assert EntryOk(groups, pods, f, c, r[i].id.key, Members(pods, f, r[i].id.key));
    }
    forall k | k in pods && f(pods[k].report).Some?
      ensures exists i :: 0 <= i < |r| && r[i].id.key == f(pods[k].report).value.key
    {
      var key := f(pods[k].report).value.key;
      assert k in Members(pods, f, key);
      assert EntryOk(groups, pods, f, c, key, Members(pods, f, key));
      assert groups[key] in r;
    }
  }

  // How queries relate.

  /** The categories split every group: the platform, operator and application parts of a group add
      up to the uncategorised group. */
  lemma CategoriesAddUp(pods: map<PodKey, PodState>, grouping: GroupBy, cls: Classification, key: string)
    ensures var part := (c: string) => Sum(Members(pods, Assignments(Query(grouping, Some(c), cls)), key), pods);
            Sum(Members(pods, Assignments(Query(grouping, None, cls)), key), pods) ==
            Plus(Plus(part("platform"), part("operator")), part("application"))
  {
    var p := Members(pods, Assignments(Query(grouping, Some("platform"), cls)), key);
    var o := Members(pods, Assignments(Query(grouping, Some("operator"), cls)), key);
    var a := Members(pods, Assignments(Query(grouping, Some("application"), cls)), key);
    var whole := Members(pods, Assignments(Query(grouping, None, cls)), key);
    forall k | k in pods ensures CategoryOf(pods[k].report, grouping, cls, key, k in p, k in o, k in a, k in whole) {
      OneCategory(pods[k].report, grouping, cls, key);
    }
    assert whole == p + o + a && p !! o && (p + o) !! a by {
      forall k ensures (k in whole <==> k in p + o + a) && !(k in p && k in o) && !(k in p + o && k in a) {
        if k in pods {
          assert CategoryOf(pods[k].report, grouping, cls, key, k in p, k in o, k in a, k in whole);
        }
      }
    }
    SumUnion(p, o, pods);
    SumUnion(p + o, a, pods);
  }

  /** Whether a pod is in the platform, operator, application and uncategorised group of one key. */
  ghost predicate CategoryOf(r: PodReport, grouping: GroupBy, cls: Classification, key: string, p: bool, o: bool,
                             a: bool, whole: bool)
  {
    && whole == Belongs(Assignments(Query(grouping, None, cls)), r, key)
    && (whole ==> (p && !o && !a) || (!p && o && !a) || (!p && !o && a))
    && (!whole ==> !p && !o && !a)
  }

  lemma OneCategory(r: PodReport, grouping: GroupBy, cls: Classification, key: string)
    ensures CategoryOf(r, grouping, cls, key,
                       Belongs(Assignments(Query(grouping, Some("platform"), cls)), r, key),
                       Belongs(Assignments(Query(grouping, Some("operator"), cls)), r, key),
                       Belongs(Assignments(Query(grouping, Some("application"), cls)), r, key),
                       Belongs(Assignments(Query(grouping, None, cls)), r, key))
  {
    assert "platform"[0] != "operator"[0] && "operator"[0] != "application"[0] && "platform"[0] != "application"[0];
  }

  ghost function Kept(pods: map<PodKey, PodState>, f: Assignment): set<PodKey>
  {
    set k | k in pods && f(pods[k].report).Some?
  }

  ghost function KeptUpTo(r: seq<Group>, n: nat, pods: map<PodKey, PodState>, f: Assignment): set<PodKey>
    requires n <= |r|
  {
    set k | k in pods && exists i :: 0 <= i < n && Belongs(f, pods[k].report, r[i].id.key)
  }

  ghost function GroupSum(r: seq<Group>, n: nat): Tally
    requires n <= |r|
  {
    if n == 0 then ZERO else Plus(GroupSum(r, n - 1), r[n - 1].tally)
  }

  /** The numbers of a view, without the rest. */
  ghost predicate Tallied(r: seq<Group>, pods: map<PodKey, PodState>, f: Assignment)
  {
    forall i :: 0 <= i < |r| ==> r[i].tally == Sum(Members(pods, f, r[i].id.key), pods)
  }

  ghost predicate Covering(r: seq<Group>, pods: map<PodKey, PodState>, f: Assignment)
  {
    forall k :: k in pods && f(pods[k].report).Some? ==>
      exists i :: 0 <= i < |r| && r[i].id.key == f(pods[k].report).value.key
  }

  lemma ViewIsTallied(r: seq<Group>, pods: map<PodKey, PodState>, f: Assignment, c: PodReport -> string)
    requires IsGroupView(r, pods, f, c)
    ensures Tallied(r, pods, f) && Covering(r, pods, f)
  {
    forall i | 0 <= i < |r| ensures r[i].tally == Sum(Members(pods, f, r[i].id.key), pods) {
      assert IsGroup(r[i], pods, f, c, Members(pods, f, r[i].id.key));
    }
  }

  lemma KeptOneMore(r: seq<Group>, n: nat, pods: map<PodKey, PodState>, f: Assignment)
    requires 0 < n <= |r| && UniqueBy(r, GROUP_KEY)
    ensures KeptUpTo(r, n, pods, f) == KeptUpTo(r, n - 1, pods, f) + Members(pods, f, r[n - 1].id.key)
    ensures KeptUpTo(r, n - 1, pods, f) !! Members(pods, f, r[n - 1].id.key)
  {
    var last, before := n - 1, KeptUpTo(r, n - 1, pods, f);
    forall k | k in before ensures k !in Members(pods, f, r[last].id.key) {
      var i :| 0 <= i < last && Belongs(f, pods[k].report, r[i].id.key);
      assert GROUP_KEY(r[i]) != GROUP_KEY(r[last]);
    }
  }

  lemma GroupSumOneMore(r: seq<Group>, n: nat, pods: map<PodKey, PodState>, before: set<PodKey>, here: set<PodKey>)
    requires 0 < n <= |r| && before !! here && GroupSum(r, n - 1) == Sum(before, pods) &&
      r[n - 1].tally == Sum(here, pods)
    ensures GroupSum(r, n) == Sum(before + here, pods)
  {
    SumUnion(before, here, pods);
  }

  lemma GroupSumStep(r: seq<Group>, n: nat, pods: map<PodKey, PodState>, f: Assignment)
    requires 0 < n <= |r| && UniqueBy(r, GROUP_KEY) && Tallied(r, pods, f)
    requires GroupSum(r, n - 1) == Sum(KeptUpTo(r, n - 1, pods, f), pods)
    ensures GroupSum(r, n) == Sum(KeptUpTo(r, n, pods, f), pods)
  {
    KeptOneMore(r, n, pods, f);
    GroupSumOneMore(r, n, pods, KeptUpTo(r, n - 1, pods, f), Members(pods, f, r[n - 1].id.key));
  }

  lemma NoneKept(r: seq<Group>, pods: map<PodKey, PodState>, f: Assignment)
    ensures Sum(KeptUpTo(r, 0, pods, f), pods) == ZERO
  {
    assert KeptUpTo(r, 0, pods, f) == {};
    SumNone(pods);
  }

  lemma {:induction false} GroupSumIsSum(r: seq<Group>, n: nat, pods: map<PodKey, PodState>, f: Assignment)
    requires n <= |r| && UniqueBy(r, GROUP_KEY) && Tallied(r, pods, f)
    ensures GroupSum(r, n) == Sum(KeptUpTo(r, n, pods, f), pods)
  {
    if n == 0 {
      NoneKept(r, pods, f);
    } else {
      GroupSumIsSum(r, n - 1, pods, f);
      GroupSumStep(r, n, pods, f);
    }
  }

  lemma KeptInTheEnd(r: seq<Group>, pods: map<PodKey, PodState>, f: Assignment)
    requires Covering(r, pods, f)
    ensures KeptUpTo(r, |r|, pods, f) == Kept(pods, f)
  {
    forall k | k in Kept(pods, f) ensures k in KeptUpTo(r, |r|, pods, f) {
      var i :| 0 <= i < |r| && r[i].id.key == f(pods[k].report).value.key;
      assert Belongs(f, pods[k].report, r[i].id.key);
    }
  }

  /** The groups add up to the pods that were kept: no pod is counted twice and none is forgotten. */
  lemma GroupsCoverThePods(r: seq<Group>, pods: map<PodKey, PodState>, f: Assignment, c: PodReport -> string)
    requires IsGroupView(r, pods, f, c)
    ensures GroupSum(r, |r|) == Sum(Kept(pods, f), pods)
  {
    ViewIsTallied(r, pods, f, c);
    GroupSumIsSum(r, |r|, pods, f);
    KeptInTheEnd(r, pods, f);
  }

  /** What `group_power` returns for a query. */
  ghost predicate IsView(r: seq<Group>, pods: map<PodKey, PodState>, q: Query)
  {
    IsGroupView(r, pods, Assignments(q), Categories(q.cls))
  }

  predicate Dropped(q: Query, r: PodReport)
  {
    q.grouping.Label? && q.grouping.key !in r.labels
  }

  ghost function Undropped(pods: map<PodKey, PodState>, q: Query): set<PodKey>
  {
    set k | k in pods && !Dropped(q, pods[k].report)
  }

  lemma KeptUnlessDropped(pods: map<PodKey, PodState>, q: Query)
    requires q.category == None
    ensures Kept(pods, Assignments(q)) == Undropped(pods, q)
  {
    forall k | k in pods ensures Assignments(q)(pods[k].report).Some? <==> !Dropped(q, pods[k].report) {
      assert Assigned(q, pods[k].report) == IdOf(pods[k].report, q.grouping, q.cls);
    }
  }

  /** Without a category, the groups returned count every pod once, except those that lack the label of a
      grouping by label: no other grouping can drop a pod, and this one drops exactly those. */
  lemma OnlyLabelsDropPods(r: seq<Group>, pods: map<PodKey, PodState>, q: Query)
    requires IsView(r, pods, q) && q.category == None
    ensures GroupSum(r, |r|) == Sum(Undropped(pods, q), pods)
    ensures GroupSum(r, |r|).count == |pods.Keys| <==> forall k :: k in pods ==> !Dropped(q, pods[k].report)
  {
    var kept := Undropped(pods, q);
    KeptUnlessDropped(pods, q);
    GroupsCoverThePods(r, pods, Assignments(q), Categories(q.cls));
    SumCounts(kept, pods);
    SubsetSize(kept, pods.Keys);
  }
}
