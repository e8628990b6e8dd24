/** The sched_switch handler and the userspace drain, interleaved over one BPF hash map.

    The kernel handler looks up the entry of the outgoing task and then credits it with the time since
    the last switch on its CPU. The drain reads entries one by one and afterwards removes the keys it has
    read, while handlers keep running on every CPU. Each map operation is one step; a run is any
    interleaving of them. */
module SchedSwitch {
  import opened Sums
  import opened KernelData

  datatype CpuState = CpuState(currentPid: nat, startNs: nat)

  /** A handler that has looked up the entry of the outgoing task, and whether it found one. */
  datatype Looked = Looked(now: nat, prevPid: nat, found: bool)

  datatype Phase = Idle | Reading | Removing

  /** What became of the time that was credited, per key. */
  datatype Ledger = Ledger(reported: map<Key, nat>, lost: map<Key, nat>, recounted: map<Key, nat>)

  /** `looked` holds the handlers between their lookup and their update, by CPU; `pending` the keys read by
      the current drain and not removed yet, with the value read. */
  datatype System = System(sched: map<nat, CpuState>, looked: map<nat, Looked>, times: map<Key, nat>,
                           phase: Phase, pending: map<Key, nat>, ledger: Ledger)

  datatype Step =
    | Lookup(cpu: nat, now: nat, prevPid: nat)
    | Switch(cpu: nat, now: nat, prevPid: nat, nextPid: nat, inserted: bool)
    | BeginDrain
    | Read(key: Key)
    | EndRead
    | Remove(key: Key, removed: bool)
    | EndDrain

  const INIT := System(map[], map[], map[], Idle, map[], Ledger(map[], map[], map[]))

  function Bump(m: map<Key, nat>, k: Key, d: nat): map<Key, nat>
  {
    m[k := Get(m, k) + d]
  }

  /** A per-CPU array slot starts out zeroed. */
  function SlotOf(sched: map<nat, CpuState>, cpu: nat): CpuState
  {
    if cpu in sched then sched[cpu] else CpuState(0, 0)
  }

  function Slot(s: System, cpu: nat): CpuState
  {
    SlotOf(s.sched, cpu)
  }

  /** The time the handler credits: `now.saturating_sub(start)`, and nothing for the idle task or a fresh slot. */
  function Credit(c: CpuState, now: nat): nat
  {
    if c.currentPid != 0 && c.startNs != 0 && now > c.startNs then now - c.startNs else 0
  }

  predicate Found(s: System, cpu: nat)
  {
    cpu in s.looked && s.looked[cpu].found
  }

  predicate Lands(times: map<Key, nat>, key: Key, found: bool, inserted: bool)
  {
    if found then key in times else inserted
  }

  /** An entry that was found is added to; otherwise a new one is written. */
  function Added(times: map<Key, nat>, key: Key, elapsed: nat, found: bool): map<Key, nat>
  {
    if found then Bump(times, key, elapsed) else times[key := elapsed]
  }

  /** One map operation. `inserted` and `removed` say whether the kernel accepted the operation:
      the source ignores the result of `insert` and of `remove`. A handler that found an entry adds to it
      through a pointer, which is lost time once the drain has removed the entry. */
  function Apply(s: System, st: Step): System
  {
    match st
    case Lookup(cpu, now, prev) => s.(looked := s.looked[cpu := Looked(now, prev, Key(cpu, prev) in s.times)])
    case Switch(cpu, now, prev, next, inserted) =>
      var elapsed := Credit(Slot(s, cpu), now);
      var key, found := Key(cpu, prev), Found(s, cpu);
      var s' := s.(sched := s.sched[cpu := CpuState(next, now)], looked := s.looked - {cpu});
      if elapsed == 0 then s'
      else if Lands(s.times, key, found, inserted) then s'.(times := Added(s.times, key, elapsed, found))
      else s'.(ledger := s.ledger.(lost := Bump(s.ledger.lost, key, elapsed)))
    case BeginDrain => s.(phase := Reading)
    case Read(k) =>
      var v := Get(s.times, k);
      s.(pending := s.pending[k := v], ledger := s.ledger.(reported := Bump(s.ledger.reported, k, v)))
    case EndRead => s.(phase := Removing)
    case Remove(k, removed) =>
      var read, now := Get(s.pending, k), Get(s.times, k);
      var s' := s.(pending := s.pending - {k});
      if removed then
        s'.(times := s.times - {k},
            ledger := s.ledger.(lost := Bump(s.ledger.lost, k, if now > read then now - read else 0)))
      else
        s'.(ledger := s.ledger.(recounted := Bump(s.ledger.recounted, k, read)))
    case EndDrain => s.(phase := Idle)
  }

  /** A switch names the task that the previous switch on that CPU brought in, and the clock of a CPU
      never runs backwards. */
  predicate Follows(c: CpuState, now: nat, prevPid: nat)
  {
    now > 0 && (c.startNs != 0 ==> prevPid == c.currentPid && now >= c.startNs)
  }

  /** When a step can happen. A CPU runs one handler at a time, to its end. The drain reads each key at
      most once, then removes what it read. */
  predicate Enabled(s: System, st: Step)
  {
    match st
    case Lookup(cpu, now, prev) => cpu !in s.looked && Follows(Slot(s, cpu), now, prev)
    case Switch(cpu, now, prev, _, _) => cpu in s.looked && s.looked[cpu].now == now && s.looked[cpu].prevPid == prev
    case BeginDrain => s.phase == Idle
    case Read(k) => s.phase == Reading && k in s.times && k !in s.pending
    case EndRead => s.phase == Reading
    case Remove(k, _) => s.phase == Removing && k in s.pending
    case EndDrain => s.phase == Removing && s.pending == map[]
  }

  function Run(trace: seq<Step>): System
  {
    if trace == [] then INIT else Apply(Run(trace[..|trace| - 1]), trace[|trace| - 1])
  }

  ghost predicate Legal(trace: seq<Step>)
  {
    trace == [] ||
    (Legal(trace[..|trace| - 1]) && Enabled(Run(trace[..|trace| - 1]), trace[|trace| - 1]))
  }

  lemma RunOneMore(trace: seq<Step>, st: Step)
    ensures Run(trace + [st]) == Apply(Run(trace), st)
    ensures Legal(trace) && Enabled(Run(trace), st) ==> Legal(trace + [st])
  {
    assert (trace + [st])[..|trace|] == trace;
  }

  // The reference: what a clock watching the scheduler alone would say.

  datatype LastSwitch = Never | At(now: nat, pid: nat)

  ghost function Last(trace: seq<Step>, cpu: nat): LastSwitch
  {
    if trace == [] then Never
    else
      var st := trace[|trace| - 1];
      if st.Switch? && st.cpu == cpu then At(st.now, st.nextPid) else Last(trace[..|trace| - 1], cpu)
  }

  /** How long task k.pid occupied k.cpu, between the first and the last switch of the trace. */
  ghost function Ran(trace: seq<Step>, k: Key): int
  {
    if trace == [] then 0
    else
      var prefix, st := trace[..|trace| - 1], trace[|trace| - 1];
      var before := Last(prefix, k.cpu);
      Ran(prefix, k) +
      if st.Switch? && st.cpu == k.cpu && before.At? && before.pid == k.pid then st.now - before.now else 0
  }

  /** Credited time is accounted for exactly, key by key. */
  ghost predicate Balanced(s: System, k: Key, ran: int)
  {
    ran + Get(s.ledger.recounted, k) + Get(s.pending, k) ==
    Get(s.ledger.reported, k) + Get(s.times, k) + Get(s.ledger.lost, k)
  }

  ghost predicate Tracks(s: System, trace: seq<Step>, cpu: nat)
  {
    Slot(s, cpu) == match Last(trace, cpu) { case Never => CpuState(0, 0) case At(now, pid) => CpuState(pid, now) }
  }

  /** Only real tasks have entries, none of them zero, and an entry read by the drain only grows until it
      is removed. The entry a handler did not find is still missing when the handler goes on. */
  ghost predicate Sound(s: System)
  {
    && (forall k :: k in s.times ==> k.pid != 0 && s.times[k] > 0)
    && (forall cpu :: cpu in s.looked ==> Underway(s, cpu, s.looked[cpu]))
    && (forall k :: k in s.pending ==> k in s.times && 0 < s.pending[k] <= s.times[k])
    && (s.phase == Idle ==> s.pending == map[])
  }

  ghost predicate Underway(s: System, cpu: nat, l: Looked)
  {
    Follows(Slot(s, cpu), l.now, l.prevPid) && (l.found || Key(cpu, l.prevPid) !in s.times)
  }

  lemma StaysSound(s: System, st: Step)
    requires Sound(s) && Enabled(s, st)
    ensures Sound(Apply(s, st))
  {
    var s' := Apply(s, st);
    assert forall k :: k in s'.times ==> k.pid != 0 && s'.times[k] > 0 by { EntriesStay(s, st); }
    assert forall k :: k in s'.pending ==> k in s'.times && 0 < s'.pending[k] <= s'.times[k] by { PendingStay(s, st); }
    forall cpu | cpu in s'.looked ensures Underway(s', cpu, s'.looked[cpu]) { HandlersStay(s, st, cpu); }
  }

  lemma EntriesStay(s: System, st: Step)
    requires Sound(s) && Enabled(s, st)
    ensures forall k :: k in Apply(s, st).times ==> k.pid != 0 && Apply(s, st).times[k] > 0
  {
    if st.Switch? { assert Underway(s, st.cpu, s.looked[st.cpu]); }
  }

  lemma PendingStay(s: System, st: Step)
    requires Sound(s) && Enabled(s, st)
    ensures var s' := Apply(s, st); forall k :: k in s'.pending ==> k in s'.times && 0 < s'.pending[k] <= s'.times[k]
  {
    if st.Switch? { assert Underway(s, st.cpu, s.looked[st.cpu]); }
  }

  lemma HandlersStay(s: System, st: Step, cpu: nat)
    requires Sound(s) && Enabled(s, st) && cpu in Apply(s, st).looked
    ensures Underway(Apply(s, st), cpu, Apply(s, st).looked[cpu])
  {
    if cpu in s.looked { assert Underway(s, cpu, s.looked[cpu]); }
    SlotAfter(s, st, cpu);
  }

  lemma SlotAfter(s: System, st: Step, cpu: nat)
    ensures Slot(Apply(s, st), cpu) ==
      if st.Switch? && st.cpu == cpu then CpuState(st.nextPid, st.now) else Slot(s, cpu)
  {
  }

  lemma {:induction false} Invariant(trace: seq<Step>)
    requires Legal(trace)
    ensures Sound(Run(trace))
    ensures forall cpu :: Tracks(Run(trace), trace, cpu)
    ensures forall cpu :: Last(trace, cpu).At? ==> Last(trace, cpu).now > 0
  {
    if trace != [] {
      var prefix, st := trace[..|trace| - 1], trace[|trace| - 1];
      Invariant(prefix);
      StaysSound(Run(prefix), st);
      forall cpu ensures Tracks(Run(trace), trace, cpu) && (Last(trace, cpu).At? ==> Last(trace, cpu).now > 0) {
        assert Tracks(Run(prefix), prefix, cpu);
        assert Last(prefix, cpu).At? ==> Last(prefix, cpu).now > 0;
        if st.Switch? { assert Underway(Run(prefix), st.cpu, Run(prefix).looked[st.cpu]); }
        SlotAfter(Run(prefix), st, cpu);
      }
    }
  }

  lemma SwitchKeepsBalance(s: System, st: Step, k: Key, ran: int)
    requires st.Switch? && Enabled(s, st) && Sound(s) && Balanced(s, k, ran) && k.pid != 0
    ensures var c := Slot(s, st.cpu);
            var runs := st.cpu == k.cpu && c.startNs != 0 && c.currentPid == k.pid;
            Balanced(Apply(s, st), k, if runs then ran + st.now - c.startNs else ran)
  {
  }

  lemma DrainKeepsBalance(s: System, st: Step, k: Key, ran: int)
    requires !st.Switch? && Enabled(s, st) && Sound(s) && Balanced(s, k, ran)
    ensures Balanced(Apply(s, st), k, ran)
  {
    match st
    case Read(j) => ReadKeepsBalance(s, j, k, ran);
    case Remove(j, removed) => RemoveKeepsBalance(s, j, removed, k, ran);
    case _ =>
  }

  lemma ReadKeepsBalance(s: System, j: Key, k: Key, ran: int)
    requires Enabled(s, Read(j)) && Balanced(s, k, ran)
    ensures Balanced(Apply(s, Read(j)), k, ran)
  {
  }

  lemma RemoveKeepsBalance(s: System, j: Key, removed: bool, k: Key, ran: int)
    requires Enabled(s, Remove(j, removed)) && Sound(s) && Balanced(s, k, ran)
    ensures Balanced(Apply(s, Remove(j, removed)), k, ran)
  {
    assert j in s.times && s.pending[j] <= s.times[j];
  }

  /** For every interleaving of the handlers' lookups and updates with the drain's separate reads and
      removals, and whatever inserts and removals the kernel refuses: the time a task ran on a CPU, plus
      what was reported again because its removal failed, is what was reported, is still in the map, or
      was lost. */
  lemma {:induction false} LedgerBalances(trace: seq<Step>, k: Key)
    requires Legal(trace) && k.pid != 0
    ensures Balanced(Run(trace), k, Ran(trace, k))
  {
    if trace != [] {
      var prefix, st := trace[..|trace| - 1], trace[|trace| - 1];
      LedgerBalances(prefix, k);
      Invariant(prefix);
      if st.Switch? {
        assert Tracks(Run(prefix), prefix, st.cpu);
        SwitchKeepsBalance(Run(prefix), st, k, Ran(prefix, k));
      } else {
        DrainKeepsBalance(Run(prefix), st, k, Ran(prefix, k));
      }
    }
  }

  /** A switch that credits time to k. */
  predicate Credits(s: System, st: Step, k: Key)
  {
    st.Switch? && k == Key(st.cpu, st.prevPid) && Credit(Slot(s, st.cpu), st.now) > 0
  }

  /** A step that goes by smoothly for k: a credit falls neither between the drain's read and its removal
      nor on an entry removed since the lookup, and the kernel refuses neither insert nor removal. */
  predicate Smooth(s: System, st: Step, k: Key)
  {
    && (Credits(s, st, k) ==> k !in s.pending && Lands(s.times, k, Found(s, st.cpu), st.inserted))
    && (st.Remove? && st.key == k ==> st.removed)
  }

  ghost predicate Undisturbed(trace: seq<Step>, k: Key)
  {
    trace == [] ||
    (Undisturbed(trace[..|trace| - 1], k) && Smooth(Run(trace[..|trace| - 1]), trace[|trace| - 1], k))
  }

  /** Nothing of k is lost or counted again, and nothing is about to be. */
  predicate Kept(s: System, k: Key)
  {
    Get(s.ledger.lost, k) == 0 && Get(s.ledger.recounted, k) == 0 &&
      (k in s.pending ==> s.pending[k] == Get(s.times, k))
  }

  lemma StepKeepsIff(s: System, st: Step, k: Key)
    requires Sound(s) && Enabled(s, st)
    ensures Kept(Apply(s, st), k) <==> Kept(s, k) && Smooth(s, st, k)
  {
    match st
    case Switch(_, _, _, _, _) => SwitchKeepsIff(s, st, k);
    case Remove(_, _) => RemoveKeepsIff(s, st, k);
    case _ =>
  }

  lemma SwitchKeepsIff(s: System, st: Step, k: Key)
    requires st.Switch? && Sound(s) && Enabled(s, st)
    ensures Kept(Apply(s, st), k) <==> Kept(s, k) && Smooth(s, st, k)
  {
    if Credits(s, st, k) {
      assert Found(s, st.cpu) || k !in s.times;
      assert k in s.pending ==> k in s.times && 0 < s.pending[k] <= s.times[k];
    }
  }

  lemma RemoveKeepsIff(s: System, st: Step, k: Key)
    requires st.Remove? && Sound(s) && Enabled(s, st)
    ensures Kept(Apply(s, st), k) <==> Kept(s, k) && Smooth(s, st, k)
  {
    assert st.key in s.times && 0 < s.pending[st.key] <= s.times[st.key];
  }

  /** In every run: nothing of k is lost or counted again if and only if every step went by smoothly for k. */
  lemma {:induction false} KeptIffUndisturbed(trace: seq<Step>, k: Key)
    requires Legal(trace)
    ensures Kept(Run(trace), k) <==> Undisturbed(trace, k)
  {
    if trace != [] {
      var prefix, st := trace[..|trace| - 1], trace[|trace| - 1];
      KeptIffUndisturbed(prefix, k);
      Invariant(prefix);
      StepKeepsIff(Run(prefix), st, k);
    }
  }

  /** Outside a drain, an undisturbed task has every nanosecond reported or still in the map, once. */
  lemma NothingLostWhenUndisturbed(trace: seq<Step>, k: Key)
    requires Legal(trace) && Undisturbed(trace, k) && k.pid != 0 && Run(trace).phase == Idle
    ensures Get(Run(trace).ledger.reported, k) + Get(Run(trace).times, k) == Ran(trace, k)
  {
    LedgerBalances(trace, k);
    KeptIffUndisturbed(trace, k);
    Invariant(trace);
  }

  // Whole CPUs.

  /** Non-idle time on a CPU between its first and its last switch. */
  ghost function Busy(trace: seq<Step>, cpu: nat): int
  {
    if trace == [] then 0
    else
      var prefix, st := trace[..|trace| - 1], trace[|trace| - 1];
      var before := Last(prefix, cpu);
      Busy(prefix, cpu) +
      if st.Switch? && st.cpu == cpu && before.At? && before.pid != 0 then st.now - before.now else 0
  }

  /** The tasks ever brought in on a CPU. */
  ghost function Tasks(trace: seq<Step>, cpu: nat): set<nat>
  {
    set i | 0 <= i < |trace| && trace[i].Switch? && trace[i].cpu == cpu && trace[i].nextPid != 0 :: trace[i].nextPid
  }

  lemma {:induction false} LastIsATask(trace: seq<Step>, cpu: nat)
    ensures Last(trace, cpu).At? && Last(trace, cpu).pid != 0 ==> Last(trace, cpu).pid in Tasks(trace, cpu)
  {
    if trace != [] {
      var prefix, st := trace[..|trace| - 1], trace[|trace| - 1];
      LastIsATask(prefix, cpu);
      assert st == trace[|trace| - 1];
      assert forall i :: 0 <= i < |prefix| ==> prefix[i] == trace[i];
      assert Tasks(prefix, cpu) <= Tasks(trace, cpu);
    }
  }

  lemma {:induction false} BusyIsTheSumOfRuns(trace: seq<Step>, cpu: nat, pids: set<nat>, ran: nat -> int)
    requires Tasks(trace, cpu) <= pids && 0 !in pids
    requires forall p :: p in pids ==> ran(p) == Ran(trace, Key(cpu, p))
    ensures SumI(pids, ran) == Busy(trace, cpu)
  {
    if trace == [] {
      SumIZero<nat>(pids, ran);
    } else {
      var prefix, st := trace[..|trace| - 1], trace[|trace| - 1];
      assert Tasks(prefix, cpu) <= Tasks(trace, cpu) by {
        assert forall i :: 0 <= i < |prefix| ==> prefix[i] == trace[i];
      }
      var before := (p: nat) => Ran(prefix, Key(cpu, p));
      BusyIsTheSumOfRuns(prefix, cpu, pids, before);
      var l := Last(prefix, cpu);
      if st.Switch? && st.cpu == cpu && l.At? && l.pid != 0 {
        LastIsATask(prefix, cpu);
        SumITake(pids, ran, l.pid);
        SumITake(pids, before, l.pid);
        SumISame(pids - {l.pid}, ran, before);
      } else {
        SumISame(pids, ran, before);
      }
    }
  }

  /** The entries of m for one CPU. */
  ghost function OnCpu(m: map<Key, nat>, cpu: nat, pids: set<nat>): int
  {
    SumI(pids, p => Get(m, Key(cpu, p)))
  }

  /** The same balance for a whole CPU: the non-idle time between the first and the last switch. */
  lemma CpuLedgerBalances(trace: seq<Step>, cpu: nat, pids: set<nat>)
    requires Legal(trace) && Tasks(trace, cpu) <= pids && 0 !in pids
    ensures var s := Run(trace);
            Busy(trace, cpu) + OnCpu(s.ledger.recounted, cpu, pids) + OnCpu(s.pending, cpu, pids) ==
            OnCpu(s.ledger.reported, cpu, pids) + OnCpu(s.times, cpu, pids) + OnCpu(s.ledger.lost, cpu, pids)
  {
    var s := Run(trace);
    var ran := (p: nat) => Ran(trace, Key(cpu, p));
    BusyIsTheSumOfRuns(trace, cpu, pids, ran);
    var a, b := (p: nat) => Get(s.ledger.recounted, Key(cpu, p)), (p: nat) => Get(s.pending, Key(cpu, p));
    var c, d := (p: nat) => Get(s.ledger.reported, Key(cpu, p)), (p: nat) => Get(s.times, Key(cpu, p));
    var e := (p: nat) => Get(s.ledger.lost, Key(cpu, p));
    var ra, cd := (p: nat) => ran(p) + a(p), (p: nat) => c(p) + d(p);
    var left, right := (p: nat) => ra(p) + b(p), (p: nat) => cd(p) + e(p);
    SumIPlus(pids, ran, a, ra);
    SumIPlus(pids, ra, b, left);
    SumIPlus(pids, c, d, cd);
    SumIPlus(pids, cd, e, right);
    forall p | p in pids ensures left(p) == right(p) { LedgerBalances(trace, Key(cpu, p)); }
    SumISame(pids, left, right);
  }
}
