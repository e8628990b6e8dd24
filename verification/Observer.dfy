/** The kernel maps as the handler and the drain update them in place. The ghost trace records the
    map operations; every method keeps the fields equal to the run of that trace, so the ledger
    theorems of SchedSwitch hold of the object in every state. */
module Observer {
  import opened Options
  import opened KernelData
  import opened SchedSwitch

  /** The ledger's reported times after a drain has returned out. */
  function ReportAll(reported: map<Key, nat>, out: seq<(Key, nat)>): map<Key, nat>
  {
    if out == [] then reported
    else
      var last := out[|out| - 1];
      Bump(ReportAll(reported, out[..|out| - 1]), last.0, last.1)
  }

  function KeysOf(out: seq<(Key, nat)>): set<Key>
  {
    set i | 0 <= i < |out| :: out[i].0
  }

  function Elements(s: seq<Key>): set<Key>
  {
    set k | k in s
  }

  /** The keys to delete: those of the entries read, in the same order. */
  function KeyColumn(out: seq<(Key, nat)>): (keys: seq<Key>)
    ensures |keys| == |out| && forall i :: 0 <= i < |out| ==> keys[i] == out[i].0
  {
    seq(|out|, i requires 0 <= i < |out| => out[i].0)
  }

  lemma KeyColumnElements(out: seq<(Key, nat)>)
    ensures Elements(KeyColumn(out)) == KeysOf(out)
  {
    var keys := KeyColumn(out);
    forall k | k in KeysOf(out) ensures k in keys {
      var i :| 0 <= i < |out| && out[i].0 == k;
      assert keys[i] == k;
    }
  }

  lemma FirstOf(s: seq<Key>, i: nat)
    requires i < |s| && forall i, j :: 0 <= i < j < |s| ==> s[i] != s[j]
    ensures s[i] in Elements(s[i..])
    ensures Elements(s[i..]) - {s[i]} == Elements(s[i + 1..])
  {
    assert s[i..] == [s[i]] + s[i + 1..];
    assert s[i] !in s[i + 1..];
  }

  ghost predicate Holds(out: seq<(Key, nat)>, k: Key, least: nat)
  {
    exists i :: 0 <= i < |out| && out[i].0 == k && out[i].1 >= least
  }

  ghost predicate Distinct(out: seq<(Key, nat)>)
  {
    forall i, j :: 0 <= i < j < |out| ==> out[i].0 != out[j].0
  }

  lemma OneMoreReported(reported: map<Key, nat>, out: seq<(Key, nat)>, k: Key, v: nat)
    requires Distinct(out) && k !in KeysOf(out)
    ensures ReportAll(reported, out + [(k, v)]) == Bump(ReportAll(reported, out), k, v)
    ensures KeysOf(out + [(k, v)]) == KeysOf(out) + {k}
    ensures Distinct(out + [(k, v)])
  {
    var more := out + [(k, v)];
    assert more[..|out|] == out;
    assert more[|out|] == (k, v);
    forall j | j in KeysOf(out) ensures j in KeysOf(more) {
      var i :| 0 <= i < |out| && out[i].0 == j;
      assert more[i] == out[i];
    }
  }

  /** No entry has gone or shrunk. */
  ghost predicate Grew(before: map<Key, nat>, after: map<Key, nat>)
  {
    forall k :: k in before ==> k in after && before[k] <= after[k]
  }

  lemma GrewAgain(a: map<Key, nat>, b: map<Key, nat>, c: map<Key, nat>)
    requires Grew(a, b) && Grew(b, c)
    ensures Grew(a, c)
  {
  }

  lemma OneLess<T>(s: set<T>, x: T)
    ensures |s - {x}| <= |s| && (x in s ==> |s - {x}| < |s|)
  {
    if x !in s { assert s - {x} == s; }
  }

  /** Every key of `before` that is not unread is in out, with at least its value. */
  ghost predicate HoldsRead(out: seq<(Key, nat)>, before: map<Key, nat>, unread: set<Key>)
  {
    forall k :: k in before && k !in unread ==> Holds(out, k, before[k])
  }

  lemma OneMoreRead(out: seq<(Key, nat)>, before: map<Key, nat>, unread: set<Key>, k: Key, v: nat)
    requires HoldsRead(out, before, unread) && (k in before ==> before[k] <= v)
    ensures HoldsRead(out + [(k, v)], before, unread - {k})
  {
    var more := out + [(k, v)];
    assert more[|out|] == (k, v);
    forall j | j in before && j !in unread - {k} ensures Holds(more, j, before[j]) {
      if j != k {
        var i :| 0 <= i < |out| && out[i].0 == j && out[i].1 >= before[j];
        assert more[i] == out[i];
      }
    }
  }

  class BpfMaps {
    const maxEntries: nat
    var sched: map<nat, CpuState>
    var looked: map<nat, Looked>  // the handlers now between their lookup and their update
    var times: map<Key, nat>
    ghost var trace: seq<Step>
    ghost var sys: System  // the run of the trace

    ghost predicate Valid()
      reads this
    {
      Logged() && sys.sched == sched && sys.looked == looked && sys.times == times
    }

    ghost predicate Logged()
      reads this
    {
      Legal(trace) && sys == Run(trace)
    }

    constructor (maxEntries: nat)
      ensures Valid() && trace == [] && this.maxEntries == maxEntries
    {
      this.maxEntries := maxEntries;
      sched, looked, times, trace, sys := map[], map[], map[], [], INIT;
    }

    ghost method Log(st: Step)
      requires Logged() && Enabled(sys, st)
      modifies this`trace, this`sys
      ensures Logged() && trace == old(trace) + [st] && sys == Apply(old(sys), st)
    {
      RunOneMore(trace, st);
      trace, sys := trace + [st], Apply(sys, st);
    }

    /** `handle_sched_switch`: account for the outgoing task, then record the incoming one. */
    method HandleSchedSwitch(now: nat, cpu: nat, prevPid: nat, nextPid: nat)
      requires Valid() && Enabled(sys, Lookup(cpu, now, prevPid))
      modifies this
      ensures Valid()
      ensures trace == old(trace) +
        [Lookup(cpu, now, prevPid), Switch(cpu, now, prevPid, nextPid, |old(times)| < maxEntries)]
    {
      LookUp(now, cpu, prevPid);
      Update(now, cpu, prevPid, nextPid);
    }

    /** The handler's first half: is there an entry for the outgoing task? */
    method LookUp(now: nat, cpu: nat, prevPid: nat)
      requires Valid() && Enabled(sys, Lookup(cpu, now, prevPid))
      modifies this`looked, this`trace, this`sys
      ensures Valid() && trace == old(trace) + [Lookup(cpu, now, prevPid)]
      ensures sys == Apply(old(sys), Lookup(cpu, now, prevPid))
    {
      Log(Lookup(cpu, now, prevPid));
      looked := looked[cpu := Looked(now, prevPid, Key(cpu, prevPid) in times)];
    }

    /** The handler's second half: update the entry found or insert one, and record the incoming task. */
    method Update(now: nat, cpu: nat, prevPid: nat, nextPid: nat)
      requires Valid() && Enabled(sys, Switch(cpu, now, prevPid, nextPid, true))
      modifies this
      ensures Valid() && Grew(old(times), times)
      ensures trace == old(trace) + [Switch(cpu, now, prevPid, nextPid, |old(times)| < maxEntries)]
      ensures sys == Apply(old(sys), Switch(cpu, now, prevPid, nextPid, |old(times)| < maxEntries))
    {
      ghost var st := Switch(cpu, now, prevPid, nextPid, |times| < maxEntries);
      assert Underway(sys, cpu, looked[cpu]) by { Invariant(trace); }
      Account(now, cpu, prevPid, nextPid);
      Log(st);
    }

    /** The updates of the handler's maps. */
    method Account(now: nat, cpu: nat, prevPid: nat, nextPid: nat)
      requires cpu in looked
      modifies this`sched, this`looked, this`times
      ensures sched == old(sched)[cpu := CpuState(nextPid, now)] && looked == old(looked) - {cpu}
      ensures var elapsed := Credit(SlotOf(old(sched), cpu), now);
        var key, found := Key(cpu, prevPid), old(looked)[cpu].found;
        times == if elapsed > 0 && Lands(old(times), key, found, |old(times)| < maxEntries)
                 then Added(old(times), key, elapsed, found) else old(times)
    {
      var state := SlotOf(sched, cpu);
      if state.currentPid != 0 && state.startNs != 0 {
        var elapsed := if now >= state.startNs then now - state.startNs else 0;
        if elapsed > 0 {
          AddTime(Key(cpu, prevPid), elapsed, looked[cpu].found);
        }
      }
      sched, looked := sched[cpu := CpuState(nextPid, now)], looked - {cpu};
    }

    /** Through the pointer of the lookup if it found the entry, and nothing comes of it once the entry is
        gone; otherwise a new entry, unless the map is full. */
    method AddTime(key: Key, elapsed: nat, found: bool)
      modifies this`times
      ensures times == if Lands(old(times), key, found, |old(times)| < maxEntries)
                       then Added(old(times), key, elapsed, found) else old(times)
    {
      if found {
        if key in times { times := times[key := times[key] + elapsed]; }
      } else if |times| < maxEntries {
        times := times[key := elapsed];
      }
    }

    /** What a burst of switches leaves alone: the drain's bookkeeping, and the entries already there. */
    twostate predicate OnlySwitched()
      reads this
    {
      && old(trace) <= trace
      && sys.phase == old(sys.phase) && sys.pending == old(sys.pending)
      && sys.ledger.reported == old(sys.ledger.reported) && sys.ledger.recounted == old(sys.ledger.recounted)
      && Grew(old(times), times)
    }

    /** Any number of lookups and updates, on any CPUs, at an arbitrary point of the drain. */
    method Preempt()
      requires Valid()
      modifies this
      ensures Valid() && OnlySwitched()
    {
      var n: nat := *;
      while n > 0
        invariant Valid() && OnlySwitched()
      {
        label Before:
        HalfSwitch();
        GrewAgain(old(times), old@Before(times), times);
        n := n - 1;
      }
    }

    /** The next half of a handler, on some CPU. */
    method HalfSwitch()
      requires Valid()
      modifies this
      ensures Valid() && OnlySwitched()
    {
      var cpu: nat, now: nat, prev: nat, next: nat := *, *, *, *;
      if cpu in looked {
        Update(looked[cpu].now, cpu, looked[cpu].prevPid, next);
      } else {
        if Follows(SlotOf(sched, cpu), now, prev) { LookUp(now, cpu, prev); }
      }
    }

    /** `drain` of PID_CPU_TIME: read every entry, then remove the keys that were read, with switches
        in between. Returns one entry per key read, and those entries are exactly what the ledger
        counts as newly reported; every key present at the start is among them. */
    method Drain() returns (out: seq<(Key, nat)>)
      requires Valid() && sys.phase == Idle
      modifies this
      ensures Valid() && sys.phase == Idle
      ensures old(trace) <= trace
      ensures Distinct(out)
      ensures sys.ledger.reported == ReportAll(old(sys.ledger.reported), out)
      ensures forall k :: k in old(times) ==> Holds(out, k, old(times)[k])
    {
      assert sys.pending == map[] by { Invariant(trace); }
      Log(BeginDrain);
      out := ReadAll();
      Log(EndRead);
      KeyColumnElements(out);
      RemoveAll(KeyColumn(out));
      Log(EndDrain);
    }

    /** The drain's first loop. The iteration visits every key that was there when it started, in any
        order, and possibly some that switches insert while it runs. */
    method ReadAll() returns (out: seq<(Key, nat)>)
      requires Valid() && sys.phase == Reading && sys.pending == map[]
      modifies this
      ensures Valid() && sys.phase == Reading
      ensures old(trace) <= trace
      ensures Distinct(out) && KeysOf(out) == sys.pending.Keys
      ensures sys.ledger.reported == ReportAll(old(sys.ledger.reported), out)
      ensures forall k :: k in old(times) ==> Holds(out, k, old(times)[k])
    {
      out := [];
      var unread := times.Keys;
      var budget: nat := *;
      while unread != {} || budget > 0
        invariant MidRead(out, unread, old(sys.ledger.reported), old(times)) && old(trace) <= trace
        decreases |unread| + budget
      {
        out, unread := ReadNext(out, unread, budget > 0, old(sys.ledger.reported), old(times));
        if budget > 0 { budget := budget - 1; }
      }
    }

    /** Half way through the reads: what was read is what the ledger reports on top of `reported`, and
        every key of `before` is read or still unread. */
    ghost predicate MidRead(out: seq<(Key, nat)>, unread: set<Key>, reported: map<Key, nat>, before: map<Key, nat>)
      reads this
    {
      && Valid() && sys.phase == Reading
      && Distinct(out) && KeysOf(out) == sys.pending.Keys
      && sys.ledger.reported == ReportAll(reported, out)
      && unread <= before.Keys && unread !! KeysOf(out)
      && Grew(before, times) && HoldsRead(out, before, unread)
    }

    /** Some switches, then at most one read. */
    method ReadNext(out: seq<(Key, nat)>, unread: set<Key>, late: bool, ghost reported: map<Key, nat>,
                    ghost before: map<Key, nat>)
      returns (more: seq<(Key, nat)>, left: set<Key>)
      requires MidRead(out, unread, reported, before)
      modifies this
      ensures MidRead(more, left, reported, before) && old(trace) <= trace
      ensures |left| <= |unread| && (!late && unread != {} ==> |left| < |unread|)
    {
      more, left := out, unread;
      Preempt();
      GrewAgain(before, old(times), times);
      var next := NextKey(unread, out, late);
      if next.Some? {
        more := ReadEntry(next.value, out, reported, before, unread);
        left := unread - {next.value};
        OneLess(unread, next.value);
      }
    }

    /** Where the iteration goes next: an unread key, or while `late`, a key inserted since it started. */
    method NextKey(unread: set<Key>, out: seq<(Key, nat)>, late: bool) returns (next: Option<Key>)
      requires unread <= times.Keys && unread !! KeysOf(out)
      ensures next.Some? ==> next.value in times && next.value !in KeysOf(out)
      ensures !late && unread != {} ==> next.Some? && next.value in unread
    {
      var added := times.Keys - KeysOf(out) - unread;
      var choices := if unread == {} || (late && added != {}) then added else unread;
      if choices == {} {
        return None;
      }
      var k :| k in choices;
      return Some(k);
    }

    /** One read. `reported` is what the ledger held before this drain. */
    method ReadEntry(k: Key, out: seq<(Key, nat)>, ghost reported: map<Key, nat>,
                     ghost before: map<Key, nat>, ghost unread: set<Key>) returns (more: seq<(Key, nat)>)
      requires Valid() && Enabled(sys, Read(k)) && Distinct(out) && KeysOf(out) == sys.pending.Keys
      requires sys.ledger.reported == ReportAll(reported, out) && Grew(before, times) && HoldsRead(out, before, unread)
      modifies this`trace, this`sys
      ensures Valid() && old(trace) <= trace && sys.phase == Reading
      ensures Distinct(more) && KeysOf(more) == KeysOf(out) + {k} == sys.pending.Keys
      ensures sys.ledger.reported == ReportAll(reported, more)
      ensures HoldsRead(more, before, unread - {k})
    {
      OneMoreReported(reported, out, k, times[k]);
      OneMoreRead(out, before, unread, k, times[k]);
      LogRead(k);
      more := out + [(k, times[k])];
    }

    ghost method LogRead(k: Key)
      requires Valid() && Enabled(sys, Read(k))
      modifies this`trace, this`sys
      ensures Valid() && old(trace) <= trace && sys.phase == Reading
      ensures sys.pending.Keys == old(sys.pending).Keys + {k}
      ensures sys.ledger.reported == Bump(old(sys.ledger.reported), k, times[k])
    {
      Log(Read(k));
    }

    /** One removal. The kernel may refuse it, and the source ignores that. */
    method RemoveEntry(key: Key)
      requires Valid() && sys.phase == Removing && key in sys.pending
      modifies this
      ensures Valid() && old(trace) <= trace && sys.phase == Removing
      ensures sys.pending == old(sys.pending) - {key}
      ensures sys.ledger.reported == old(sys.ledger.reported)
    {
      var removed := *;
      Log(Remove(key, removed));
      if removed {
        times := times - {key};
      }
    }

    /** The drain's second loop. */
    method RemoveAll(keysToDelete: seq<Key>)
      requires Valid() && sys.phase == Removing
      requires sys.pending.Keys == Elements(keysToDelete)
      requires forall i, j :: 0 <= i < j < |keysToDelete| ==> keysToDelete[i] != keysToDelete[j]
      modifies this
      ensures Valid() && sys.phase == Removing && sys.pending == map[]
      ensures old(trace) <= trace
      ensures sys.ledger.reported == old(sys.ledger.reported)
    {
      assert keysToDelete[0..] == keysToDelete;
      for i := 0 to |keysToDelete|
        invariant Valid() && sys.phase == Removing
        invariant old(trace) <= trace
        invariant sys.ledger.reported == old(sys.ledger.reported)
        invariant sys.pending.Keys == Elements(keysToDelete[i..])
      {
        Preempt();
        var key := keysToDelete[i];
        FirstOf(keysToDelete, i);
        RemoveEntry(key);
      }
    }
  }
}
