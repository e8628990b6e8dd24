/** A drain that nothing interrupts reports every nanosecond once; one that is interrupted need not. */
module AtomicDrain {
  import opened Sums
  import opened KernelData
  import opened SchedSwitch

  /** No handler is half way when a drain begins, none takes a step until it ends, and the kernel
      refuses nothing. */
  predicate Atomic(s: System, st: Step)
  {
    && (st.BeginDrain? ==> s.looked == map[])
    && (st.Lookup? || st.Switch? ==> s.phase == Idle)
    && (st.Switch? ==> st.inserted)
    && (st.Remove? ==> st.removed)
  }

  ghost predicate AllAtomic(trace: seq<Step>)
  {
    trace == [] || (AllAtomic(trace[..|trace| - 1]) && Atomic(Run(trace[..|trace| - 1]), trace[|trace| - 1]))
  }

  /** No handler is half way during a drain, and outside one the entries that handlers found are there. */
  ghost predicate Quiet(s: System)
  {
    && (s.phase != Idle ==> s.looked == map[])
    && (forall cpu :: Found(s, cpu) ==> Key(cpu, s.looked[cpu].prevPid) in s.times)
  }

  lemma StaysQuiet(s: System, st: Step)
    requires Sound(s) && Enabled(s, st) && Quiet(s) && Atomic(s, st)
    ensures Quiet(Apply(s, st))
  {
    forall cpu | Found(Apply(s, st), cpu) ensures Key(cpu, Apply(s, st).looked[cpu].prevPid) in Apply(s, st).times {
      assert Found(s, cpu) || st.Lookup?;
    }
  }

  lemma AtomicIsSmooth(s: System, st: Step, k: Key)
    requires Sound(s) && Enabled(s, st) && Quiet(s) && Atomic(s, st)
    ensures Smooth(s, st, k)
  {
  }

  /** Atomic drains disturb no key. */
  lemma {:induction false} AtomicIsUndisturbed(trace: seq<Step>, k: Key)
    requires Legal(trace) && AllAtomic(trace)
    ensures Quiet(Run(trace)) && Undisturbed(trace, k)
  {
    if trace != [] {
      var prefix, st := trace[..|trace| - 1], trace[|trace| - 1];
      AtomicIsUndisturbed(prefix, k);
      Invariant(prefix);
      StaysQuiet(Run(prefix), st);
      AtomicIsSmooth(Run(prefix), st, k);
    }
  }

  /** With atomic drains, outside a drain, every task has every nanosecond reported or in the map, once. */
  lemma NothingLostWhenDrainIsAtomic(trace: seq<Step>, k: Key)
    requires Legal(trace) && AllAtomic(trace) && k.pid != 0 && Run(trace).phase == Idle
    ensures Get(Run(trace).ledger.reported, k) + Get(Run(trace).times, k) == Ran(trace, k)
  {
    AtomicIsUndisturbed(trace, k);
    NothingLostWhenUndisturbed(trace, k);
  }

  // An interrupted drain.

  /** A task runs from a to b, its entry is read, and it switches at c before the entry is removed. */
  function Interrupted(k: Key, a: nat, b: nat, c: nat): seq<Step>
  {
    UntilRead(k, a, b) + Switches(k.cpu, c, k.pid, k.pid) + [EndRead, Remove(k, true), EndDrain]
  }

  function UntilRead(k: Key, a: nat, b: nat): seq<Step>
  {
    Switches(k.cpu, a, 0, k.pid) + Switches(k.cpu, b, k.pid, k.pid) + [BeginDrain, Read(k)]
  }

  /** A handler from start to end. */
  function Switches(cpu: nat, now: nat, prev: nat, next: nat): seq<Step>
  {
    [Lookup(cpu, now, prev), Switch(cpu, now, prev, next, true)]
  }

  lemma Extend(trace: seq<Step>, st: Step) returns (more: seq<Step>)
    requires Legal(trace) && Enabled(Run(trace), st)
    ensures more == trace + [st] && Legal(more) && Run(more) == Apply(Run(trace), st)
  {
    more := trace + [st];
    RunOneMore(trace, st);
  }

  /** What a state says of k: its task runs since a time, v is in the map, the drain has read r and not
      removed it, and so much is reported and lost. */
  ghost predicate At(s: System, k: Key, since: nat, phase: Phase, v: nat, r: nat, reported: nat, lost: nat)
  {
    && Slot(s, k.cpu) == CpuState(k.pid, since) && k.cpu !in s.looked && s.phase == phase
    && Get(s.times, k) == v && (k in s.times <==> v > 0)
    && s.pending == (if r > 0 then map[k := r] else map[])
    && Get(s.ledger.reported, k) == reported && Get(s.ledger.lost, k) == lost
    && Get(s.ledger.recounted, k) == 0
  }

  lemma Start(k: Key, a: nat) returns (trace: seq<Step>)
    requires 0 < a
    ensures trace == Switches(k.cpu, a, 0, k.pid) && Legal(trace)
    ensures At(Run(trace), k, a, Idle, 0, 0, 0, 0)
  {
    trace := Extend([], Lookup(k.cpu, a, 0));
    trace := Extend(trace, Switch(k.cpu, a, 0, k.pid, true));
  }

  lemma HandledAt(s: System, k: Key, a: nat, b: nat, phase: Phase, v: nat, r: nat, reported: nat, lost: nat)
    requires At(s, k, a, phase, v, r, reported, lost) && 0 < a < b && k.pid != 0
    ensures var s' := Apply(s, Lookup(k.cpu, b, k.pid));
      && Enabled(s, Lookup(k.cpu, b, k.pid)) && Enabled(s', Switch(k.cpu, b, k.pid, k.pid, true))
      && At(Apply(s', Switch(k.cpu, b, k.pid, k.pid, true)), k, b, phase, v + b - a, r, reported, lost)
  {
  }

  /** The task goes on: one more switch, to itself. */
  lemma Handle(trace: seq<Step>, k: Key, a: nat, b: nat, phase: Phase, v: nat, r: nat, reported: nat, lost: nat)
    returns (more: seq<Step>)
    requires Legal(trace) && At(Run(trace), k, a, phase, v, r, reported, lost) && 0 < a < b && k.pid != 0
    ensures more == trace + Switches(k.cpu, b, k.pid, k.pid) && Legal(more)
    ensures At(Run(more), k, b, phase, v + b - a, r, reported, lost)
  {
    HandledAt(Run(trace), k, a, b, phase, v, r, reported, lost);
    more := Extend(trace, Lookup(k.cpu, b, k.pid));
    more := Extend(more, Switch(k.cpu, b, k.pid, k.pid, true));
  }

  lemma ReadIt(trace: seq<Step>, k: Key, b: nat, v: nat) returns (more: seq<Step>)
    requires Legal(trace) && At(Run(trace), k, b, Idle, v, 0, 0, 0) && v > 0
    ensures more == trace + [BeginDrain, Read(k)] && Legal(more) && At(Run(more), k, b, Reading, v, v, v, 0)
  {
    more := Extend(trace, BeginDrain);
    more := Extend(more, Read(k));
  }

  lemma RemoveIt(trace: seq<Step>, k: Key, b: nat, v: nat, r: nat) returns (more: seq<Step>)
    requires Legal(trace) && At(Run(trace), k, b, Reading, v, r, r, 0) && 0 < r <= v
    ensures more == trace + [EndRead, Remove(k, true), EndDrain] && Legal(more)
    ensures At(Run(more), k, b, Idle, 0, 0, r, v - r)
  {
    more := Extend(trace, EndRead);
    more := Extend(more, Remove(k, true));
    assert Run(more).pending == map[];
    more := Extend(more, EndDrain);
  }

  lemma RunsUntilRead(k: Key, a: nat, b: nat)
    requires 0 < a < b && k.pid != 0
    ensures Legal(UntilRead(k, a, b)) && At(Run(UntilRead(k, a, b)), k, b, Reading, b - a, b - a, b - a, 0)
  {
    var trace := Start(k, a);
    trace := Handle(trace, k, a, b, Idle, 0, 0, 0, 0);
    trace := ReadIt(trace, k, b, b - a);
  }

  lemma RunsToTheEnd(k: Key, a: nat, b: nat, c: nat)
    requires 0 < a < b < c && k.pid != 0
    ensures Legal(Interrupted(k, a, b, c)) && At(Run(Interrupted(k, a, b, c)), k, c, Idle, 0, 0, b - a, c - b)
  {
    RunsUntilRead(k, a, b);
    Ends(UntilRead(k, a, b), k, a, b, c);
  }

  lemma Ends(trace: seq<Step>, k: Key, a: nat, b: nat, c: nat)
    requires 0 < a < b < c && k.pid != 0
    requires Legal(trace) && At(Run(trace), k, b, Reading, b - a, b - a, b - a, 0)
    ensures var all := trace + Switches(k.cpu, c, k.pid, k.pid) + [EndRead, Remove(k, true), EndDrain];
      Legal(all) && At(Run(all), k, c, Idle, 0, 0, b - a, c - b)
  {
    var more := Handle(trace, k, b, c, Reading, b - a, b - a, b - a, 0);
    more := RemoveIt(more, k, c, c - a, b - a);
  }

  /** The time from b to c is lost, although the kernel refuses nothing. */
  lemma InterruptedDrainLoses(k: Key, a: nat, b: nat, c: nat)
    requires 0 < a < b < c && k.pid != 0
    ensures var trace := Interrupted(k, a, b, c);
      && Legal(trace) && Run(trace).phase == Idle && Ran(trace, k) == c - a && k !in Run(trace).times
      && Get(Run(trace).ledger.reported, k) == b - a && Get(Run(trace).ledger.lost, k) == c - b
  {
    RunsToTheEnd(k, a, b, c);
    LedgerBalances(Interrupted(k, a, b, c), k);
  }
}
