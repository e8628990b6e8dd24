/** `enrich`: processes are grouped into containers, containers into pods and pods into namespaces,
    each level adding up the power of the one below. The kubelet's cgroup map and the command names
    read from /proc are inputs. */
module Enrich {
  import opened Sums
  import opened SeqSums

  datatype Power = Power(cpuUw: nat, memoryUw: nat, gpuUw: nat, nicUw: nat, storageUw: nat)

  datatype Process = Process(pid: nat, comm: string, cgroupId: nat, power: Power)

  datatype ContainerInfo = ContainerInfo(containerId: string, containerName: string, podUid: string, podName: string,
                                         namespace: string)

  datatype Container = Container(id: string, name: string, cgroupId: nat, power: Power, processes: seq<Process>)

  datatype Pod = Pod(uid: string, name: string, namespace: string, power: Power, containers: seq<Container>)

  datatype Namespace = Namespace(name: string, power: Power, podCount: nat)

  type Resolver = map<nat, ContainerInfo>

  const NO_POWER := Power(0, 0, 0, 0, 0)

  function Plus(a: Power, b: Power): Power
  {
    Power(a.cpuUw + b.cpuUw, a.memoryUw + b.memoryUw, a.gpuUw + b.gpuUw, a.nicUw + b.nicUw, a.storageUw + b.storageUw)
  }

  function PowerSum<T>(items: seq<T>, power: T -> Power): Power
  {
    if items == [] then NO_POWER else Plus(PowerSum(items[..|items| - 1], power), power(items[|items| - 1]))
  }

  /** `aggregate_power`. */
  method AggregatePower<T>(items: seq<T>, power: T -> Power) returns (total: Power)
    ensures total == PowerSum(items, power)
  {
    total := NO_POWER;
    for i := 0 to |items|
      invariant total == PowerSum(items[..i], power)
    {
      assert items[..i + 1][..i] == items[..i];
      total := Plus(total, power(items[i]));
    }
    assert items[..|items|] == items;
  }

  function ProcessPower(p: Process): Power { p.power }
  function ContainerPower(c: Container): Power { c.power }
  function PodPower(p: Pod): Power { p.power }
  function NamespacePower(n: Namespace): Power { n.power }

  /** One of the five components. */
  datatype Component = Cpu | Memory | Gpu | Nic | Storage

  function Value(c: Component, p: Power): int
  {
    match c
    case Cpu => p.cpuUw
    case Memory => p.memoryUw
    case Gpu => p.gpuUw
    case Nic => p.nicUw
    case Storage => p.storageUw
  }

  /** The five components are all there is to a power. */
  lemma ComponentsDecide(p: Power, q: Power)
    requires forall c: Component :: Value(c, p) == Value(c, q)
    ensures p == q
  {
    assert Value(Cpu, p) == Value(Cpu, q) && Value(Memory, p) == Value(Memory, q) && Value(Gpu, p) == Value(Gpu, q);
    assert Value(Nic, p) == Value(Nic, q) && Value(Storage, p) == Value(Storage, q);
  }

  function Part<T>(c: Component, power: T -> Power): T -> int
  {
    (x: T) => PartOf(c, power, x)
  }

  function PartOf<T>(c: Component, power: T -> Power, x: T): int
  {
    Value(c, power(x))
  }

  lemma {:induction false} ComponentAddsUp<T>(items: seq<T>, power: T -> Power, c: Component)
    ensures Value(c, PowerSum(items, power)) == SeqSum(items, Part(c, power))
  {
    if items != [] { ComponentAddsUp(items[..|items| - 1], power, c); }
  }

  // What a process contributes, seen from each level.

  function InContainer(f: Process -> int): Container -> int
  {
    (c: Container) => SeqSum(c.processes, f)
  }

  function OverContainers(g: Container -> int): Pod -> int
  {
    (p: Pod) => SeqSum(p.containers, g)
  }

  function InPod(f: Process -> int): Pod -> int
  {
    OverContainers(InContainer(f))
  }

  // What is true of the groups.

  predicate IsIn(p: Process, id: string, resolver: Resolver)
  {
    p.cgroupId in resolver && resolver[p.cgroupId].containerId == id
  }

  /** A nonempty list of processes of one container. */
  predicate OneContainer(processes: seq<Process>, id: string, resolver: Resolver)
  {
    processes != [] && forall i :: 0 <= i < |processes| ==> IsIn(processes[i], id, resolver)
  }

  predicate ContainerOk(c: Container, resolver: Resolver)
  {
    && OneContainer(c.processes, c.id, resolver)
    && c.cgroupId == c.processes[0].cgroupId
    && c.name == resolver[c.cgroupId].containerName
    && c.power == PowerSum(c.processes, ProcessPower)
  }

  predicate OnePod(containers: seq<Container>, uid: string, resolver: Resolver)
  {
    containers != [] && forall i :: 0 <= i < |containers| ==>
      ContainerOk(containers[i], resolver) && resolver[containers[i].cgroupId].podUid == uid
  }

  predicate PodOk(p: Pod, resolver: Resolver)
  {
    && OnePod(p.containers, p.uid, resolver)
    && p.name == resolver[p.containers[0].cgroupId].podName
    && p.namespace == resolver[p.containers[0].cgroupId].namespace
    && p.power == PowerSum(p.containers, ContainerPower)
  }

  predicate OneNamespace(pods: seq<Pod>, name: string, resolver: Resolver)
  {
    pods != [] && forall i :: 0 <= i < |pods| ==> PodOk(pods[i], resolver) && pods[i].namespace == name
  }

  /** A pod's power is that of its processes, component by component. */
  lemma PodPowerIsProcessPower(p: Pod, resolver: Resolver, c: Component)
    requires PodOk(p, resolver)
    ensures Value(c, p.power) == InPod(Part(c, ProcessPower))(p)
  {
    ComponentAddsUp(p.containers, ContainerPower, c);
    forall i | 0 <= i < |p.containers|
      ensures Part(c, ContainerPower)(p.containers[i]) == InContainer(Part(c, ProcessPower))(p.containers[i])
    {
      ContainerPowerIsProcessPower(p.containers[i], resolver, c);
    }
    SeqSumSame(p.containers, p.containers, Part(c, ContainerPower), InContainer(Part(c, ProcessPower)));
  }

  lemma ContainerPowerIsProcessPower(k: Container, resolver: Resolver, c: Component)
    requires ContainerOk(k, resolver)
    ensures Part(c, ContainerPower)(k) == InContainer(Part(c, ProcessPower))(k)
  {
    ComponentAddsUp(k.processes, ProcessPower, c);
    assert Part(c, ContainerPower)(k) == PartOf(c, ContainerPower, k);
  }

  /** The resolver agrees with itself: a container is in one pod and a pod in one namespace. */
  ghost predicate Coherent(resolver: Resolver)
  {
    forall a, b :: a in resolver && b in resolver ==>
      && (resolver[a].containerId == resolver[b].containerId ==> resolver[a].podUid == resolver[b].podUid)
      && (resolver[a].podUid == resolver[b].podUid ==> resolver[a].namespace == resolver[b].namespace)
  }

  /** With a coherent resolver every process ends up in its own container, pod and namespace. */
  lemma ProcessesAreAtHome(p: Pod, resolver: Resolver, i: nat, j: nat)
    requires PodOk(p, resolver) && Coherent(resolver) && i < |p.containers| && j < |p.containers[i].processes|
    ensures var q := p.containers[i].processes[j];
      && q.cgroupId in resolver && resolver[q.cgroupId].containerId == p.containers[i].id
      && resolver[q.cgroupId].podUid == p.uid && resolver[q.cgroupId].namespace == p.namespace
  {
    var c := p.containers[i];
    assert ContainerOk(c, resolver) && ContainerOk(p.containers[0], resolver);
    assert IsIn(c.processes[j], c.id, resolver) && IsIn(c.processes[0], c.id, resolver);
    assert IsIn(p.containers[0].processes[0], p.containers[0].id, resolver);
  }

  // The first loop.

  function CommOf(comms: map<nat, string>, pid: nat): string
  {
    if pid in comms then comms[pid] else ""
  }

  function Filled(p: Process, comms: map<nat, string>): Process
  {
    p.(comm := CommOf(comms, p.pid))
  }

  function FilledAll(processes: seq<Process>, comms: map<nat, string>): (r: seq<Process>)
    ensures |r| == |processes| && forall i :: 0 <= i < |r| ==> r[i] == Filled(processes[i], comms)
  {
    seq(|processes|, i requires 0 <= i < |processes| => Filled(processes[i], comms))
  }

  type ProcessGroups = map<string, seq<Process>>
  type ContainerGroups = map<string, seq<Container>>
  type PodGroups = map<string, seq<Pod>>

  ghost predicate GroupsOk(m: ProcessGroups, resolver: Resolver)
  {
    forall id :: id in m ==> OneContainer(m[id], id, resolver)
  }

  /** Whatever is added up over processes, the groups and the rest account for the input. */
  ghost predicate Grouped(input: seq<Process>, rest: seq<Process>, m: ProcessGroups)
  {
    forall f: Process -> int :: SeqSum(input, f) == SeqSum(rest, f) + GroupSum(m, f)
  }

  ghost predicate Uncontained(rest: seq<Process>, resolver: Resolver)
  {
    forall i :: 0 <= i < |rest| ==> rest[i].cgroupId !in resolver
  }

  method GroupByContainer(processes: seq<Process>, resolver: Resolver, comms: map<nat, string>)
    returns (m: ProcessGroups, rest: seq<Process>)
    ensures GroupsOk(m, resolver) && Uncontained(rest, resolver) && Grouped(FilledAll(processes, comms), rest, m)
  {
    m, rest := map[], [];
    ghost var input := FilledAll(processes, comms);
    for i := 0 to |processes|
      invariant GroupsOk(m, resolver) && Uncontained(rest, resolver) && Grouped(input[..i], rest, m)
    {
      assert input[..i + 1] == input[..i] + [input[i]];
      var p := Filled(processes[i], comms);
      if p.cgroupId in resolver {
        PushGrouped(input[..i], rest, m, resolver[p.cgroupId].containerId, p);
        PushGroupsOk(m, p, resolver);
        m := Push(m, resolver[p.cgroupId].containerId, p);
      } else {
        RestGrouped(input[..i], rest, m, p);
        rest := rest + [p];
      }
    }
    assert input[..|processes|] == input;
  }

  lemma PushGroupsOk(m: ProcessGroups, p: Process, resolver: Resolver)
    requires GroupsOk(m, resolver) && p.cgroupId in resolver
    ensures GroupsOk(Push(m, resolver[p.cgroupId].containerId, p), resolver)
  {
    var m' := Push(m, resolver[p.cgroupId].containerId, p);
    forall id | id in m' ensures OneContainer(m'[id], id, resolver) {
      assert id in m ==> OneContainer(m[id], id, resolver);
    }
  }

  lemma PushGrouped(input: seq<Process>, rest: seq<Process>, m: ProcessGroups, id: string, p: Process)
    requires Grouped(input, rest, m)
    ensures Grouped(input + [p], rest, Push(m, id, p))
  {
    forall f: Process -> int ensures SeqSum(input + [p], f) == SeqSum(rest, f) + GroupSum(Push(m, id, p), f) {
      SeqSumAppend(input, p, f);
      PushSum(m, id, p, f);
    }
  }

  lemma RestGrouped(input: seq<Process>, rest: seq<Process>, m: ProcessGroups, p: Process)
    requires Grouped(input, rest, m)
    ensures Grouped(input + [p], rest + [p], m)
  {
    forall f: Process -> int ensures SeqSum(input + [p], f) == SeqSum(rest + [p], f) + GroupSum(m, f) {
      SeqSumAppend(input, p, f);
      SeqSumAppend(rest, p, f);
    }
  }

  // The second loop.

  ghost predicate ContainersOk(m: ContainerGroups, resolver: Resolver)
  {
    forall uid :: uid in m ==> OnePod(m[uid], uid, resolver)
  }

  /** The containers built so far account for the groups already visited. */
  ghost predicate Contained(m: ProcessGroups, done: set<string>, cm: ContainerGroups)
  {
    forall f: Process -> int :: SumI(done, ListSums(m, f)) == GroupSum(cm, InContainer(f))
  }

  function HasId(id: string): Container -> int
  {
    (c: Container) => if c.id == id then 1 else 0
  }

  /** There is one container for each group already visited. */
  ghost predicate OneEach(done: set<string>, cm: ContainerGroups)
  {
    forall id :: GroupSum(cm, HasId(id)) == if id in done then 1 else 0
  }

  method GroupByPod(m: ProcessGroups, resolver: Resolver) returns (cm: ContainerGroups)
    requires GroupsOk(m, resolver)
    ensures ContainersOk(cm, resolver) && Contained(m, m.Keys, cm) && OneEach(m.Keys, cm)
  {
    cm := map[];
    var todo := m.Keys;
    ghost var done: set<string> := {};
    while todo != {}
      invariant todo !! done && m.Keys == todo + done
      invariant ContainersOk(cm, resolver) && Contained(m, done, cm) && OneEach(done, cm)
    {
      var id :| id in todo;
      OneVisited(m.Keys, todo, done, id);
      var c, uid := MakeContainer(id, m[id], resolver);
      PushContained(m, done, cm, uid, c);
      PushOneEach(done, cm, uid, c);
      PushContainersOk(cm, uid, c, resolver);
      cm := Push(cm, uid, c);
      todo, done := todo - {id}, done + {id};
    }
    assert done == m.Keys;
  }

  method MakeContainer(id: string, processes: seq<Process>, resolver: Resolver) returns (c: Container, uid: string)
    requires OneContainer(processes, id, resolver)
    ensures ContainerOk(c, resolver) && c.id == id && c.processes == processes
    ensures uid == resolver[c.cgroupId].podUid
  {
    // The first process resolves: the source's None branch is unreachable.
    assert IsIn(processes[0], id, resolver);
    var info := resolver[processes[0].cgroupId];
    var power := AggregatePower(processes, ProcessPower);
    c, uid := Container(id, info.containerName, processes[0].cgroupId, power, processes), info.podUid;
  }

  lemma PushContainersOk(cm: ContainerGroups, uid: string, c: Container, resolver: Resolver)
    requires ContainersOk(cm, resolver) && ContainerOk(c, resolver) && resolver[c.cgroupId].podUid == uid
    ensures ContainersOk(Push(cm, uid, c), resolver)
  {
    forall u | u in Push(cm, uid, c) ensures OnePod(Push(cm, uid, c)[u], u, resolver) {
      assert u in cm ==> OnePod(cm[u], u, resolver);
    }
  }

  lemma PushContained(m: ProcessGroups, done: set<string>, cm: ContainerGroups, uid: string, c: Container)
    requires Contained(m, done, cm) && c.id in m && c.id !in done && c.processes == m[c.id]
    ensures Contained(m, done + {c.id}, Push(cm, uid, c))
  {
    forall f: Process -> int ensures SumI(done + {c.id}, ListSums(m, f)) == GroupSum(Push(cm, uid, c), InContainer(f)) {
      SumIAdd(done, ListSums(m, f), c.id);
      PushSum(cm, uid, c, InContainer(f));
    }
  }

  lemma PushOneEach(done: set<string>, cm: ContainerGroups, uid: string, c: Container)
    requires OneEach(done, cm) && c.id !in done
    ensures OneEach(done + {c.id}, Push(cm, uid, c))
  {
    forall id ensures GroupSum(Push(cm, uid, c), HasId(id)) == if id in done + {c.id} then 1 else 0 {
      PushSum(cm, uid, c, HasId(id));
    }
  }

  // The third loop.

  ghost predicate PodsOk(m: PodGroups, resolver: Resolver)
  {
    forall name :: name in m ==> OneNamespace(m[name], name, resolver)
  }

  ghost predicate InPods(cm: ContainerGroups, done: set<string>, pm: PodGroups)
  {
    forall g: Container -> int :: SumI(done, ListSums(cm, g)) == GroupSum(pm, OverContainers(g))
  }

  function HasUid(uid: string): Pod -> int
  {
    (p: Pod) => if p.uid == uid then 1 else 0
  }

  /** There is one pod for each group already visited. */
  ghost predicate OnePodEach(done: set<string>, pm: PodGroups)
  {
    forall uid :: GroupSum(pm, HasUid(uid)) == if uid in done then 1 else 0
  }

  method GroupByNamespace(cm: ContainerGroups, resolver: Resolver) returns (pm: PodGroups)
    requires ContainersOk(cm, resolver)
    ensures PodsOk(pm, resolver) && InPods(cm, cm.Keys, pm) && OnePodEach(cm.Keys, pm)
  {
    pm := map[];
    var todo := cm.Keys;
    ghost var done: set<string> := {};
    while todo != {}
      invariant todo !! done && cm.Keys == todo + done
      invariant PodsOk(pm, resolver) && InPods(cm, done, pm) && OnePodEach(done, pm)
    {
      var uid :| uid in todo;
      OneVisited(cm.Keys, todo, done, uid);
      var p := MakePod(uid, cm[uid], resolver);
      PushInPods(cm, done, pm, p.namespace, p);
      PushOnePodEach(done, pm, p.namespace, p);
      PushPodsOk(pm, p.namespace, p, resolver);
      pm := Push(pm, p.namespace, p);
      todo, done := todo - {uid}, done + {uid};
    }
    assert done == cm.Keys;
  }

  method MakePod(uid: string, containers: seq<Container>, resolver: Resolver) returns (p: Pod)
    requires OnePod(containers, uid, resolver)
    ensures PodOk(p, resolver) && p.uid == uid && p.containers == containers
  {
    // The first container's cgroup resolves: here, too, the None branch is unreachable.
    assert ContainerOk(containers[0], resolver) && IsIn(containers[0].processes[0], containers[0].id, resolver);
    var info := resolver[containers[0].cgroupId];
    var power := AggregatePower(containers, ContainerPower);
    p := Pod(uid, info.podName, info.namespace, power, containers);
  }

  lemma PushPodsOk(pm: PodGroups, name: string, p: Pod, resolver: Resolver)
    requires PodsOk(pm, resolver) && PodOk(p, resolver) && p.namespace == name
    ensures PodsOk(Push(pm, name, p), resolver)
  {
    forall n | n in Push(pm, name, p) ensures OneNamespace(Push(pm, name, p)[n], n, resolver) {
      assert n in pm ==> OneNamespace(pm[n], n, resolver);
    }
  }

  lemma PushInPods(cm: ContainerGroups, done: set<string>, pm: PodGroups, name: string, p: Pod)
    requires InPods(cm, done, pm) && p.uid in cm && p.uid !in done && p.containers == cm[p.uid]
    ensures InPods(cm, done + {p.uid}, Push(pm, name, p))
  {
    forall g: Container -> int
      ensures SumI(done + {p.uid}, ListSums(cm, g)) == GroupSum(Push(pm, name, p), OverContainers(g))
    {
      SumIAdd(done, ListSums(cm, g), p.uid);
      PushSum(pm, name, p, OverContainers(g));
    }
  }

  lemma PushOnePodEach(done: set<string>, pm: PodGroups, name: string, p: Pod)
    requires OnePodEach(done, pm) && p.uid !in done
    ensures OnePodEach(done + {p.uid}, Push(pm, name, p))
  {
    forall uid ensures GroupSum(Push(pm, name, p), HasUid(uid)) == if uid in done + {p.uid} then 1 else 0 {
      PushSum(pm, name, p, HasUid(uid));
    }
  }

  // The fourth loop.

  /** The entry of a namespace is the sum over its pods. */
  ghost predicate NamespaceOk(n: Namespace, pm: PodGroups)
  {
    n.name in pm && n.power == PowerSum(pm[n.name], PodPower) && n.podCount == |pm[n.name]|
  }

  ghost predicate Collected(pm: PodGroups, done: set<string>, pods: seq<Pod>, namespaces: seq<Namespace>)
  {
    && (forall f: Pod -> int :: SumI(done, ListSums(pm, f)) == SeqSum(pods, f))
    && (forall c: Component ::
          SumI(done, ListSums(pm, Part(c, PodPower))) == SeqSum(namespaces, Part(c, NamespacePower)))
    && (forall i :: 0 <= i < |namespaces| ==> namespaces[i].name in done && NamespaceOk(namespaces[i], pm))
    && (forall name :: name in done ==> Listed(name, namespaces))
    && (forall i, j :: 0 <= i < j < |namespaces| ==> namespaces[i].name != namespaces[j].name)
  }

  predicate Listed(name: string, namespaces: seq<Namespace>)
  {
    exists i :: 0 <= i < |namespaces| && namespaces[i].name == name
  }

  /** Every pod is in one of the namespaces. */
  predicate AllIn(pods: seq<Pod>, names: set<string>)
  {
    forall i :: 0 <= i < |pods| ==> pods[i].namespace in names
  }

  predicate AllPodsOk(pods: seq<Pod>, resolver: Resolver)
  {
    forall i :: 0 <= i < |pods| ==> PodOk(pods[i], resolver)
  }

  lemma PodsAppend(pods: seq<Pod>, more: seq<Pod>, name: string, resolver: Resolver)
    requires AllPodsOk(pods, resolver) && OneNamespace(more, name, resolver)
    ensures AllPodsOk(pods + more, resolver)
  {
  }

  lemma NamesAppend(pods: seq<Pod>, more: seq<Pod>, names: set<string>, name: string, resolver: Resolver)
    requires AllIn(pods, names) && OneNamespace(more, name, resolver)
    ensures AllIn(pods + more, names + {name})
  {
  }

  method CollectNamespaces(pm: PodGroups, resolver: Resolver) returns (pods: seq<Pod>, namespaces: seq<Namespace>)
    requires PodsOk(pm, resolver)
    ensures Collected(pm, pm.Keys, pods, namespaces) && AllPodsOk(pods, resolver) && AllIn(pods, pm.Keys)
  {
    pods, namespaces := [], [];
    var todo := pm.Keys;
    ghost var done: set<string> := {};
    while todo != {}
      invariant todo !! done && pm.Keys == todo + done && Collected(pm, done, pods, namespaces)
      invariant AllPodsOk(pods, resolver) && AllIn(pods, done)
    {
      var name :| name in todo;
      OneVisited(pm.Keys, todo, done, name);
      var power := AggregatePower(pm[name], PodPower);
      var n := Namespace(name, power, |pm[name]|);
      CollectOne(pm, done, pods, namespaces, n);
      PodsAppend(pods, pm[name], name, resolver);
      NamesAppend(pods, pm[name], done, name, resolver);
      namespaces := namespaces + [n];
      pods := pods + pm[name];
      todo, done := todo - {name}, done + {name};
    }
    assert done == pm.Keys;
  }

  lemma CollectOne(pm: PodGroups, done: set<string>, pods: seq<Pod>, namespaces: seq<Namespace>, n: Namespace)
    requires Collected(pm, done, pods, namespaces) && NamespaceOk(n, pm) && n.name !in done
    ensures Collected(pm, done + {n.name}, pods + pm[n.name], namespaces + [n])
  {
    forall f: Pod -> int ensures SumI(done + {n.name}, ListSums(pm, f)) == SeqSum(pods + pm[n.name], f) {
      SumIAdd(done, ListSums(pm, f), n.name);
      SeqSumConcat(pods, pm[n.name], f);
    }
    forall c: Component
      ensures SumI(done + {n.name}, ListSums(pm, Part(c, PodPower))) ==
        SeqSum(namespaces + [n], Part(c, NamespacePower))
    {
      SumIAdd(done, ListSums(pm, Part(c, PodPower)), n.name);
      SeqSumAppend(namespaces, n, Part(c, NamespacePower));
      ComponentAddsUp(pm[n.name], PodPower, c);
    }
    ListedOneMore(done, namespaces, n);
  }

  lemma ListedOneMore(done: set<string>, namespaces: seq<Namespace>, n: Namespace)
    requires forall name :: name in done ==> Listed(name, namespaces)
    ensures forall name :: name in done + {n.name} ==> Listed(name, namespaces + [n])
  {
    var more := namespaces + [n];
    forall name | name in done + {n.name} ensures Listed(name, more) {
      if name == n.name {
        assert more[|namespaces|].name == name;
      } else {
        var i :| 0 <= i < |namespaces| && namespaces[i].name == name;
        assert more[i].name == name;
      }
    }
  }

  // No pod and no container comes twice.

  predicate DistinctPods(pods: seq<Pod>)
  {
    forall i, j :: 0 <= i < j < |pods| ==> pods[i].uid != pods[j].uid
  }

  lemma PodsAreDistinct(cm: ContainerGroups, pm: PodGroups, pods: seq<Pod>, namespaces: seq<Namespace>)
    requires OnePodEach(cm.Keys, pm) && Collected(pm, pm.Keys, pods, namespaces)
    ensures DistinctPods(pods)
  {
    forall i, j | 0 <= i < j < |pods| ensures pods[i].uid != pods[j].uid {
      var f := HasUid(pods[i].uid);
      SeqSumHasTwo(pods, f, i, j);
      assert SumI(pm.Keys, ListSums(pm, f)) == SeqSum(pods, f);
    }
  }

  /** The containers of all pods, pod by pod. */
  function AllContainers(pods: seq<Pod>): seq<Container>
  {
    if pods == [] then [] else AllContainers(pods[..|pods| - 1]) + pods[|pods| - 1].containers
  }

  lemma {:induction false} AllContainersSum(pods: seq<Pod>, g: Container -> int)
    ensures SeqSum(AllContainers(pods), g) == SeqSum(pods, OverContainers(g))
  {
    if pods != [] {
      var n := |pods| - 1;
      AllContainersSum(pods[..n], g);
      SeqSumConcat(AllContainers(pods[..n]), pods[n].containers, g);
    }
  }

  predicate DistinctContainers(containers: seq<Container>)
  {
    forall i, j :: 0 <= i < j < |containers| ==> containers[i].id != containers[j].id
  }

  lemma ContainersAreDistinct(m: ProcessGroups, cm: ContainerGroups, pm: PodGroups, pods: seq<Pod>,
                              namespaces: seq<Namespace>)
    requires OneEach(m.Keys, cm) && InPods(cm, cm.Keys, pm) && Collected(pm, pm.Keys, pods, namespaces)
    ensures DistinctContainers(AllContainers(pods))
  {
    var all := AllContainers(pods);
    forall i, j | 0 <= i < j < |all| ensures all[i].id != all[j].id {
      var g := HasId(all[i].id);
      SeqSumHasTwo(all, g, i, j);
      AllContainersSum(pods, g);
      assert SumI(pm.Keys, ListSums(pm, OverContainers(g))) == SeqSum(pods, OverContainers(g));
      assert SumI(cm.Keys, ListSums(cm, g)) == GroupSum(pm, OverContainers(g));
    }
  }

  // The result.

  /** All processes of all pods, container by container. */
  function AllProcesses(pods: seq<Pod>): seq<Process>
  {
    if pods == [] then [] else AllProcesses(pods[..|pods| - 1]) + ProcessesOf(pods[|pods| - 1].containers)
  }

  function ProcessesOf(containers: seq<Container>): seq<Process>
  {
    if containers == [] then []
    else ProcessesOf(containers[..|containers| - 1]) + containers[|containers| - 1].processes
  }

  lemma {:induction false} ProcessesOfSum(containers: seq<Container>, f: Process -> int)
    ensures SeqSum(ProcessesOf(containers), f) == SeqSum(containers, InContainer(f))
  {
    if containers != [] {
      var n := |containers| - 1;
      ProcessesOfSum(containers[..n], f);
      SeqSumConcat(ProcessesOf(containers[..n]), containers[n].processes, f);
    }
  }

  lemma {:induction false} AllProcessesSum(pods: seq<Pod>, f: Process -> int)
    ensures SeqSum(AllProcesses(pods), f) == SeqSum(pods, InPod(f))
  {
    if pods != [] {
      var n := |pods| - 1;
      AllProcessesSum(pods[..n], f);
      ProcessesOfSum(pods[n].containers, f);
      SeqSumConcat(AllProcesses(pods[..n]), ProcessesOf(pods[n].containers), f);
    }
  }

  function Is(q: Process): Process -> int
  {
    (p: Process) => if p == q then 1 else 0
  }

  lemma {:induction false} CountIs(s: seq<Process>, q: Process)
    ensures SeqSum(s, Is(q)) == multiset(s)[q]
  {
    if s != [] {
      CountIs(s[..|s| - 1], q);
      assert s == s[..|s| - 1] + [s[|s| - 1]];
    }
  }

  /** Whatever is added up over processes, the pods and the rest account for the input. */
  ghost predicate Accounted(input: seq<Process>, rest: seq<Process>, pods: seq<Pod>)
  {
    forall f: Process -> int :: SeqSum(input, f) == SeqSum(rest, f) + SeqSum(pods, InPod(f))
  }

  /** The four loops together lose nothing. */
  lemma LevelsAccount(input: seq<Process>, rest: seq<Process>, m: ProcessGroups, cm: ContainerGroups, pm: PodGroups,
                      pods: seq<Pod>, namespaces: seq<Namespace>)
    requires Grouped(input, rest, m) && Contained(m, m.Keys, cm) && InPods(cm, cm.Keys, pm) &&
      Collected(pm, pm.Keys, pods, namespaces)
    ensures Accounted(input, rest, pods)
  {
    forall f: Process -> int ensures SeqSum(input, f) == SeqSum(rest, f) + SeqSum(pods, InPod(f)) {
      assert SumI(m.Keys, ListSums(m, f)) == GroupSum(cm, InContainer(f));
      assert SumI(cm.Keys, ListSums(cm, InContainer(f))) == GroupSum(pm, InPod(f));
      assert SumI(pm.Keys, ListSums(pm, InPod(f))) == SeqSum(pods, InPod(f));
    }
  }

  /** Each input process ends in exactly one container or in the rest. */
  lemma IsPartition(input: seq<Process>, rest: seq<Process>, pods: seq<Pod>)
    requires Accounted(input, rest, pods)
    ensures multiset(input) == multiset(rest) + multiset(AllProcesses(pods))
  {
    forall q ensures multiset(input)[q] == multiset(rest)[q] + multiset(AllProcesses(pods))[q] {
      CountIs(input, q);
      CountIs(rest, q);
      CountIs(AllProcesses(pods), q);
      AllProcessesSum(pods, Is(q));
    }
  }

  lemma PodPowersAddUp(pods: seq<Pod>, resolver: Resolver, c: Component)
    requires AllPodsOk(pods, resolver)
    ensures SeqSum(pods, Part(c, PodPower)) == SeqSum(pods, InPod(Part(c, ProcessPower)))
  {
    forall i | 0 <= i < |pods| ensures Part(c, PodPower)(pods[i]) == InPod(Part(c, ProcessPower))(pods[i]) {
      PodPowerIsProcessPower(pods[i], resolver, c);
      assert Part(c, PodPower)(pods[i]) == PartOf(c, PodPower, pods[i]);
    }
    SeqSumSame(pods, pods, Part(c, PodPower), InPod(Part(c, ProcessPower)));
  }

  /** Per component, the namespaces and the uncontained processes have the power of the input. */
  ghost predicate PowerConserved(input: seq<Process>, rest: seq<Process>, namespaces: seq<Namespace>, c: Component)
  {
    SeqSum(input, Part(c, ProcessPower)) == SeqSum(rest, Part(c, ProcessPower)) +
      SeqSum(namespaces, Part(c, NamespacePower))
  }

  lemma PowerIsConserved(input: seq<Process>, rest: seq<Process>, pm: PodGroups, pods: seq<Pod>,
                         namespaces: seq<Namespace>, resolver: Resolver, c: Component)
    requires Accounted(input, rest, pods) && AllPodsOk(pods, resolver) && Collected(pm, pm.Keys, pods, namespaces)
    ensures PowerConserved(input, rest, namespaces, c)
  {
    PodPowersAddUp(pods, resolver, c);
    assert SumI(pm.Keys, ListSums(pm, Part(c, PodPower))) == SeqSum(pods, Part(c, PodPower));
  }

  /** A quantity of the pods of one namespace. */
  function Within(name: string, f: Pod -> int): Pod -> int
  {
    (p: Pod) => if p.namespace == name then f(p) else 0
  }

  lemma {:induction false} WithinAll(pods: seq<Pod>, name: string, other: string, f: Pod -> int)
    requires forall i :: 0 <= i < |pods| ==> pods[i].namespace == other
    ensures SeqSum(pods, Within(name, f)) == if name == other then SeqSum(pods, f) else 0
  {
    if pods != [] { WithinAll(pods[..|pods| - 1], name, other, f); }
  }

  /** Adding up over all pods of a namespace is adding up over its group. */
  lemma NamespaceGroup(pm: PodGroups, pods: seq<Pod>, namespaces: seq<Namespace>, resolver: Resolver, name: string,
                       f: Pod -> int)
    requires PodsOk(pm, resolver) && Collected(pm, pm.Keys, pods, namespaces) && name in pm
    ensures SeqSum(pods, Within(name, f)) == SeqSum(pm[name], f)
  {
    var g := Within(name, f);
    assert SumI(pm.Keys, ListSums(pm, g)) == SeqSum(pods, g);
    OneNamespaceCounts(pm, resolver, name, f);
  }

  lemma OneNamespaceCounts(pm: PodGroups, resolver: Resolver, name: string, f: Pod -> int)
    requires PodsOk(pm, resolver) && name in pm
    ensures SumI(pm.Keys, ListSums(pm, Within(name, f))) == SeqSum(pm[name], f)
  {
    var h := ListSums(pm, Within(name, f));
    SumITake(pm.Keys, h, name);
    forall other | other in pm ensures h(other) == if name == other then SeqSum(pm[name], f) else 0 {
      assert OneNamespace(pm[other], other, resolver);
      WithinAll(pm[other], name, other, f);
    }
    SumIZero(pm.Keys - {name}, h);
  }

  function One(p: Pod): int { 1 }

  lemma {:induction false} CountPods(pods: seq<Pod>)
    ensures SeqSum(pods, One) == |pods|
  {
    if pods != [] { CountPods(pods[..|pods| - 1]); }
  }

  /** A namespace entry adds up the power of exactly the pods in it, and counts them. */
  ghost predicate EntryOk(n: Namespace, pods: seq<Pod>)
  {
    && (forall c: Component :: Value(c, n.power) == SeqSum(pods, Within(n.name, Part(c, PodPower))))
    && n.podCount == SeqSum(pods, Within(n.name, One))
  }

  lemma EntriesAreRight(pm: PodGroups, pods: seq<Pod>, namespaces: seq<Namespace>, resolver: Resolver, n: Namespace)
    requires PodsOk(pm, resolver) && Collected(pm, pm.Keys, pods, namespaces) && NamespaceOk(n, pm)
    ensures EntryOk(n, pods)
  {
    forall c: Component ensures Value(c, n.power) == SeqSum(pods, Within(n.name, Part(c, PodPower))) {
      NamespaceGroup(pm, pods, namespaces, resolver, n.name, Part(c, PodPower));
      ComponentAddsUp(pm[n.name], PodPower, c);
    }
    NamespaceGroup(pm, pods, namespaces, resolver, n.name, One);
    CountPods(pm[n.name]);
  }

  class AttributionSnapshot {
    var processes: seq<Process>
    var pods: seq<Pod>
    var namespaces: seq<Namespace>

    /** `enrich`. */
    method Enrich(resolver: Resolver, comms: map<nat, string>)
      modifies this
      ensures var input := FilledAll(old(processes), comms);
        && multiset(input) == multiset(processes) + multiset(AllProcesses(pods))
        && forall c: Component :: PowerConserved(input, processes, namespaces, c)
      ensures Uncontained(processes, resolver) && AllPodsOk(pods, resolver)
      ensures forall i :: 0 <= i < |namespaces| ==> EntryOk(namespaces[i], pods)
      ensures forall i, j :: 0 <= i < j < |namespaces| ==> namespaces[i].name != namespaces[j].name
      ensures DistinctPods(pods) && DistinctContainers(AllContainers(pods))
      ensures forall i :: 0 <= i < |pods| ==> Listed(pods[i].namespace, namespaces)
    {
      ghost var input := FilledAll(processes, comms);
      var m, rest := GroupByContainer(processes, resolver, comms);
      var cm := GroupByPod(m, resolver);
      var pm := GroupByNamespace(cm, resolver);
      var allPods, all := CollectNamespaces(pm, resolver);
      PodsAreDistinct(cm, pm, allPods, all);
      ContainersAreDistinct(m, cm, pm, allPods, all);
      LevelsAccount(input, rest, m, cm, pm, allPods, all);
      IsPartition(input, rest, allPods);
      forall c: Component ensures PowerConserved(input, rest, all, c) {
        PowerIsConserved(input, rest, pm, allPods, all, resolver, c);
      }
      forall i | 0 <= i < |all| ensures EntryOk(all[i], allPods) {
        EntriesAreRight(pm, allPods, all, resolver, all[i]);
      }
      processes, pods, namespaces := rest, allPods, all;
    }
  }
}
