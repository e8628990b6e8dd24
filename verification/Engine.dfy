/** The attribution engine: core energy is charged to the tasks that ran there, task by task and
    core by core, and what no task is charged counts as idle. */
module Engine {
  import opened Sums
  import opened Models

  datatype CoreAttribution = CoreAttribution(core: nat, freqKhz: nat, energyUj: nat, task: Observation)

  /** What is known about one core: its energy, its average frequency and the tasks seen on it. */
  datatype CoreInput = CoreInput(energyUj: nat, freqKhz: nat, tasks: Core)

  /** The three guards of the loop: energy to give, tasks to give it to, and weights to divide by. */
  ghost predicate IsCharged(m: Model, c: CoreInput)
  {
    c.energyUj > 0 && c.tasks != map[] && TotalWeight(m, c.tasks, FreqFactor(c.freqKhz)) > 0.0
  }

  ghost function TaskEnergy(m: Model, c: CoreInput): nat -> int
  {
    (pid: nat) => Charge(m, c.tasks, FreqFactor(c.freqKhz), c.energyUj, pid)
  }

  ghost function CoreEnergyCharged(m: Model, c: CoreInput): int
  {
    if IsCharged(m, c) then SumI(c.tasks.Keys, TaskEnergy(m, c)) else 0
  }

  /** A charged core gives its tasks all its energy but less than one microjoule per task. */
  lemma ChargedCoreIsConserved(m: Model, c: CoreInput)
    requires Sensible(m)
    ensures 0 <= CoreEnergyCharged(m, c) <= c.energyUj
    ensures IsCharged(m, c) ==> c.energyUj - |c.tasks| < CoreEnergyCharged(m, c)
  {
    FreqFactorSign(c.freqKhz);
    CoreIsConserved(m, c.tasks, FreqFactor(c.freqKhz), c.energyUj, TaskEnergy(m, c));
  }

  /** Energy is charged exactly if there is some, some task ran, and the frequency is not zero, unless time alone
      counts. */
  lemma ChargedIff(m: Model, c: CoreInput)
    requires Sensible(m)
    ensures IsCharged(m, c) <==>
      && c.energyUj > 0 && (m.CpuTimeRatio? || c.freqKhz > 0)
      && exists pid :: pid in c.tasks && c.tasks[pid].timeNs > 0
  {
    var f := FreqFactor(c.freqKhz);
    FreqFactorSign(c.freqKhz);
    forall pid | pid in c.tasks
      ensures Weights(m, c.tasks, f)(pid) >= 0.0
      ensures Weights(m, c.tasks, f)(pid) > 0.0 <==>
        c.tasks[pid].timeNs > 0 && (m.CpuTimeRatio? || c.freqKhz > 0)
    {
      WeightNonneg(m, c.tasks[pid], f);
      WeightPositiveIff(m, c.tasks[pid], f);
    }
    SumRPositiveIff(c.tasks.Keys, Weights(m, c.tasks, f));
  }

  function Details(detail: map<nat, seq<CoreAttribution>>, pid: nat): seq<CoreAttribution>
  {
    if pid in detail then detail[pid] else []
  }

  ghost function Attribution(m: Model, core: nat, c: CoreInput, pid: nat): CoreAttribution
    requires pid in c.tasks
  {
    CoreAttribution(core, c.freqKhz, Charge(m, c.tasks, FreqFactor(c.freqKhz), c.energyUj, pid), c.tasks[pid])
  }

  function SumDetail(d: seq<CoreAttribution>): nat
  {
    if d == [] then 0 else SumDetail(d[..|d| - 1]) + d[|d| - 1].energyUj
  }

  lemma SumDetailOneMore(d: seq<CoreAttribution>, a: CoreAttribution)
    ensures SumDetail(d + [a]) == SumDetail(d) + a.energyUj
  {
    assert (d + [a])[..|d|] == d;
  }

  /** The reference for one task: the cores it was charged on, in order. */
  ghost function DetailOf(m: Model, cores: seq<CoreInput>, pid: nat): seq<CoreAttribution>
  {
    if cores == [] then []
    else
      var n := |cores| - 1;
      DetailOf(m, cores[..n], pid) +
      if IsCharged(m, cores[n]) && pid in cores[n].tasks then [Attribution(m, n, cores[n], pid)] else []
  }

  /** An entry of the detail: a charged core that the task ran on. */
  ghost predicate IsEntry(e: CoreAttribution, m: Model, cores: seq<CoreInput>, pid: nat)
  {
    && e.core < |cores| && IsCharged(m, cores[e.core]) && pid in cores[e.core].tasks
    && e == Attribution(m, e.core, cores[e.core], pid)
  }

  /** The detail lists charged cores that the task ran on, in the order of the cores. */
  lemma {:induction false} DetailIs(m: Model, cores: seq<CoreInput>, pid: nat, j: nat)
    requires j < |DetailOf(m, cores, pid)|
    ensures IsEntry(DetailOf(m, cores, pid)[j], m, cores, pid)
    ensures j > 0 ==> DetailOf(m, cores, pid)[j - 1].core < DetailOf(m, cores, pid)[j].core
  {
    var n := |cores| - 1;
    var before, d := DetailOf(m, cores[..n], pid), DetailOf(m, cores, pid);
    if j < |before| {
      DetailIs(m, cores[..n], pid, j);
      assert d[j] == before[j];
    } else if j > 0 {
      DetailIs(m, cores[..n], pid, j - 1);
      assert d[j - 1] == before[j - 1];
    }
  }

  /** And it leaves out none of them. */
  lemma {:induction false} DetailLists(m: Model, cores: seq<CoreInput>, pid: nat, i: nat)
    requires i < |cores| && IsCharged(m, cores[i]) && pid in cores[i].tasks
    ensures exists j :: 0 <= j < |DetailOf(m, cores, pid)| && DetailOf(m, cores, pid)[j].core == i
  {
    var n := |cores| - 1;
    var before, d := DetailOf(m, cores[..n], pid), DetailOf(m, cores, pid);
    if i < n {
      DetailLists(m, cores[..n], pid, i);
      var j :| 0 <= j < |before| && before[j].core == i;
      assert d[j].core == i;
    } else {
      assert d[|before|].core == i;
    }
  }

  ghost function EnergyCharged(m: Model, cores: seq<CoreInput>): int
  {
    if cores == [] then 0
    else EnergyCharged(m, cores[..|cores| - 1]) + CoreEnergyCharged(m, cores[|cores| - 1])
  }

  ghost predicate TaskOk(m: Model, cores: seq<CoreInput>, cpu: map<nat, nat>, detail: map<nat, seq<CoreAttribution>>,
                         pid: nat)
  {
    Records(cpu, detail, pid, DetailOf(m, cores, pid))
  }

  // Step 5.

  /** One task's entries after the tasks in pids received their shares. */
  ghost predicate Received(pids: set<nat>, share: nat -> int, entry: nat -> CoreAttribution, pid: nat,
                           cpu: map<nat, nat>, detail: map<nat, seq<CoreAttribution>>,
                           cpu': map<nat, nat>, detail': map<nat, seq<CoreAttribution>>)
  {
    && (pid in cpu' <==> pid in cpu || pid in pids)
    && Get(cpu', pid) == Get(cpu, pid) + (if pid in pids then share(pid) else 0)
    && Details(detail', pid) == Details(detail, pid) + (if pid in pids then [entry(pid)] else [])
  }

  lemma BumpTotal(m: map<nat, nat>, k: nat, d: nat, m': map<nat, nat>)
    requires m' == m[k := Get(m, k) + d]
    ensures Total(m') == Total(m) + d
  {
    TotalBump<nat>(m, k, d);
  }

  /** One more task, seen from task p. */
  lemma ReceivedOneMore(done: set<nat>, share: nat -> int, entry: nat -> CoreAttribution, pid: nat, p: nat,
                        cpu: map<nat, nat>, detail: map<nat, seq<CoreAttribution>>,
                        cpu': map<nat, nat>, detail': map<nat, seq<CoreAttribution>>)
    requires pid !in done && share(pid) >= 0
    requires Received(done, share, entry, p, cpu, detail, cpu', detail')
    ensures Received(done + {pid}, share, entry, p, cpu, detail,
                     cpu'[pid := Get(cpu', pid) + share(pid)], detail'[pid := Details(detail', pid) + [entry(pid)]])
  {
    if p != pid {
      assert Details(detail'[pid := Details(detail', pid) + [entry(pid)]], p) == Details(detail', p);
    } else {
      assert Details(detail', p) == Details(detail, p);
    }
  }

  /** The inner loop: `*energy.entry(pid).or_default() += share` and a push to the task's detail. */
  method AddShares(pids: set<nat>, share: nat -> int, entry: nat -> CoreAttribution,
                   cpu: map<nat, nat>, detail: map<nat, seq<CoreAttribution>>)
    returns (cpu': map<nat, nat>, detail': map<nat, seq<CoreAttribution>>)
    requires forall pid :: pid in pids ==> share(pid) >= 0
    ensures Total(cpu') == Total(cpu) + SumI(pids, share)
    ensures forall pid: nat :: Received(pids, share, entry, pid, cpu, detail, cpu', detail')
  {
    cpu', detail' := cpu, detail;
    var todo := pids;
    ghost var done: set<nat> := {};
    while todo != {}
      invariant todo !! done && pids == todo + done
      invariant Added(done, share, entry, cpu, detail, cpu', detail')
    {
      var pid :| pid in todo;
      OneVisited(pids, todo, done, pid);
      ghost var cpu0, detail0 := cpu', detail';
      cpu' := cpu'[pid := Get(cpu', pid) + share(pid)];
      detail' := detail'[pid := Details(detail', pid) + [entry(pid)]];
      AddedOneMore(done, share, entry, pid, cpu, detail, cpu0, detail0, cpu', detail');
      todo, done := todo - {pid}, done + {pid};
    }
  }

  /** The shares of the tasks in `done` are added. */
  ghost predicate Added(done: set<nat>, share: nat -> int, entry: nat -> CoreAttribution,
                        cpu: map<nat, nat>, detail: map<nat, seq<CoreAttribution>>,
                        cpu': map<nat, nat>, detail': map<nat, seq<CoreAttribution>>)
  {
    && Total(cpu') == Total(cpu) + SumI(done, share)
    && forall pid: nat :: Received(done, share, entry, pid, cpu, detail, cpu', detail')
  }

  lemma TotalOneMore(done: set<nat>, share: nat -> int, pid: nat, cpu: map<nat, nat>, cpu': map<nat, nat>,
                     c: map<nat, nat>)
    requires Total(cpu') == Total(cpu) + SumI(done, share) && pid !in done && share(pid) >= 0
    requires c == cpu'[pid := Get(cpu', pid) + share(pid)]
    ensures Total(c) == Total(cpu) + SumI(done + {pid}, share)
  {
    BumpTotal(cpu', pid, share(pid), c);
    SumIAdd<nat>(done, share, pid);
  }

  lemma AddedOneMore(done: set<nat>, share: nat -> int, entry: nat -> CoreAttribution, pid: nat,
                     cpu: map<nat, nat>, detail: map<nat, seq<CoreAttribution>>,
                     cpu': map<nat, nat>, detail': map<nat, seq<CoreAttribution>>,
                     c: map<nat, nat>, d: map<nat, seq<CoreAttribution>>)
    requires Added(done, share, entry, cpu, detail, cpu', detail') && pid !in done && share(pid) >= 0
    requires c == cpu'[pid := Get(cpu', pid) + share(pid)]
    requires d == detail'[pid := Details(detail', pid) + [entry(pid)]]
    ensures Added(done + {pid}, share, entry, cpu, detail, c, d)
  {
    TotalOneMore(done, share, pid, cpu, cpu', c);
    forall p: nat ensures Received(done + {pid}, share, entry, p, cpu, detail, c, d) {
      ReceivedOneMore(done, share, entry, pid, p, cpu, detail, cpu', detail');
    }
  }

  method SumTaskWeights(m: Model, tasks: Core, factor: real) returns (total: real)
    ensures total == TotalWeight(m, tasks, factor)
  {
    total := 0.0;
    var todo := tasks.Keys;
    ghost var done: set<nat> := {};
    while todo != {}
      invariant todo !! done && tasks.Keys == todo + done
      invariant total == SumR(done, Weights(m, tasks, factor))
    {
      var pid :| pid in todo;
      SumRAdd<nat>(done, Weights(m, tasks, factor), pid);
      total := total + WeightOf(m, tasks, factor, pid);
      todo, done := todo - {pid}, done + {pid};
    }
  }

  lemma DetailOneMore(m: Model, cores: seq<CoreInput>, c: CoreInput, pid: nat)
    ensures DetailOf(m, cores + [c], pid) ==
            DetailOf(m, cores, pid) +
            if IsCharged(m, c) && pid in c.tasks then [Attribution(m, |cores|, c, pid)] else []
  {
    assert (cores + [c])[..|cores|] == cores;
  }

  /** The entries of a task: its detail, whether it is listed, and its energy. */
  ghost predicate Records(cpu: map<nat, nat>, detail: map<nat, seq<CoreAttribution>>, pid: nat, d: seq<CoreAttribution>)
  {
    Details(detail, pid) == d && (pid in cpu <==> d != []) && Get(cpu, pid) == SumDetail(d)
  }

  lemma ReceivedRecords(pids: set<nat>, share: nat -> int, entry: nat -> CoreAttribution, pid: nat,
                        d: seq<CoreAttribution>,
                        cpu: map<nat, nat>, detail: map<nat, seq<CoreAttribution>>,
                        cpu': map<nat, nat>, detail': map<nat, seq<CoreAttribution>>)
    requires Records(cpu, detail, pid, d) && share(pid) == entry(pid).energyUj
    requires Received(pids, share, entry, pid, cpu, detail, cpu', detail')
    ensures Records(cpu', detail', pid, d + if pid in pids then [entry(pid)] else [])
  {
    if pid in pids { SumDetailOneMore(d, entry(pid)); } else { assert d + [] == d; }
  }

  lemma CoreSkipped(m: Model, cores: seq<CoreInput>, c: CoreInput, cpu: map<nat, nat>,
                    detail: map<nat, seq<CoreAttribution>>)
    requires !IsCharged(m, c) && forall pid: nat :: TaskOk(m, cores, cpu, detail, pid)
    ensures forall pid: nat :: TaskOk(m, cores + [c], cpu, detail, pid)
  {
    forall pid: nat ensures TaskOk(m, cores + [c], cpu, detail, pid) {
      assert TaskOk(m, cores, cpu, detail, pid);
      DetailOneMore(m, cores, c, pid);
    }
  }

  lemma CoreCharged(m: Model, cores: seq<CoreInput>, c: CoreInput, share: nat -> int, entry: nat -> CoreAttribution,
                    cpu: map<nat, nat>, detail: map<nat, seq<CoreAttribution>>,
                    cpu': map<nat, nat>, detail': map<nat, seq<CoreAttribution>>)
    requires IsCharged(m, c) && forall pid: nat :: TaskOk(m, cores, cpu, detail, pid)
    requires forall pid: nat :: share(pid) == entry(pid).energyUj
    requires forall pid: nat :: pid in c.tasks ==> entry(pid) == Attribution(m, |cores|, c, pid)
    requires forall pid: nat :: Received(c.tasks.Keys, share, entry, pid, cpu, detail, cpu', detail')
    ensures forall pid: nat :: TaskOk(m, cores + [c], cpu', detail', pid)
  {
    forall pid: nat ensures TaskOk(m, cores + [c], cpu', detail', pid) {
      assert TaskOk(m, cores, cpu, detail, pid);
      DetailOneMore(m, cores, c, pid);
      ReceivedRecords(c.tasks.Keys, share, entry, pid, DetailOf(m, cores, pid), cpu, detail, cpu', detail');
    }
  }

  /** The loop body for one core. */
  method ChargeCore(m: Model, ghost cores: seq<CoreInput>, core: nat, c: CoreInput, cpu: map<nat, nat>,
                    detail: map<nat, seq<CoreAttribution>>)
    returns (cpu': map<nat, nat>, detail': map<nat, seq<CoreAttribution>>)
    requires Sensible(m) && core == |cores| && forall pid: nat :: TaskOk(m, cores, cpu, detail, pid)
    ensures Total(cpu') == Total(cpu) + CoreEnergyCharged(m, c)
    ensures forall pid: nat :: TaskOk(m, cores + [c], cpu', detail', pid)
  {
    cpu', detail' := cpu, detail;
    if !IsCharged(m, c) { CoreSkipped(m, cores, c, cpu, detail); }
    if c.energyUj == 0 || c.tasks == map[] {
      return;
    }
    var factor := FreqFactor(c.freqKhz);
    var total := SumTaskWeights(m, c.tasks, factor);
    if total <= 0.0 {
      return;
    }
    var share := (pid: nat) => ShareOrNothing(c.energyUj, WeightOf(m, c.tasks, factor, pid), total) as int;
    var entry := (pid: nat) =>
      CoreAttribution(core, c.freqKhz, ShareOrNothing(c.energyUj, WeightOf(m, c.tasks, factor, pid), total),
                      if pid in c.tasks then c.tasks[pid] else Observation(0, 0, 0, 0));
    cpu', detail' := AddShares(c.tasks.Keys, share, entry, cpu, detail);
    SumISame(c.tasks.Keys, share, TaskEnergy(m, c));
    CoreCharged(m, cores, c, share, entry, cpu, detail, cpu', detail');
  }

  lemma OneMoreCore(m: Model, cores: seq<CoreInput>, i: nat)
    requires i < |cores|
    ensures cores[..i + 1] == cores[..i] + [cores[i]]
    ensures EnergyCharged(m, cores[..i + 1]) == EnergyCharged(m, cores[..i]) + CoreEnergyCharged(m, cores[i])
  {
    assert cores[..i + 1][..i] == cores[..i];
  }

  /** Step 5 of `attribute`: every task's energy is the sum of its per-core detail, the detail lists
      exactly the cores on which it was charged, and all of it adds up to what the cores gave. */
  method ChargeCores(m: Model, cores: seq<CoreInput>)
    returns (cpu: map<nat, nat>, detail: map<nat, seq<CoreAttribution>>)
    requires Sensible(m)
    ensures forall pid: nat :: TaskOk(m, cores, cpu, detail, pid)
    ensures Total(cpu) == EnergyCharged(m, cores)
  {
    cpu, detail := map[], map[];
    for core := 0 to |cores|
      invariant forall pid: nat :: TaskOk(m, cores[..core], cpu, detail, pid)
      invariant Total(cpu) == EnergyCharged(m, cores[..core])
    {
      OneMoreCore(m, cores, core);
      cpu, detail := ChargeCore(m, cores[..core], core, cores[core], cpu, detail);
    }
    assert cores[..|cores|] == cores;
  }
}
