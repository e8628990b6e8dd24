/** Energy deltas from wrapping hardware counters, over any run of successful and failed reads of any
    number of sources. */
module EnergyCounter {
  import opened Options

  /** The difference of two counter values; a smaller value means the counter wrapped, or was reset
      if its range is unknown (zero). */
  function Delta(current: nat, previous: nat, range: nat): int
  {
    if current >= previous then current - previous
    else if range > 0 then (range - previous) + current
    else current
  }

  /** What a counter of the given range shows after the energy e. */
  function Shown(e: nat, range: nat): nat
  {
    if range > 0 then e % range else e
  }

  /** The delta misses a whole number of ranges: none exactly if the energy advanced by less than one. */
  lemma DeltaMissesRanges(before: nat, after: nat, range: nat) returns (missed: nat)
    requires before <= after
    ensures Delta(Shown(after, range), Shown(before, range), range) == after - before - missed * range
    ensures missed * range >= 0
    ensures missed * range == 0 <==> range == 0 || after - before < range
  {
    missed := 0;
    if range > 0 {
      var q, q' := before / range, after / range;
      var r, r' := before % range, after % range;
      Split(before, range);
      Split(after, range);
      QuotientsOrdered(q, r, q', r', range);
      missed := if r' >= r then q' - q else q' - q - 1;
      Missed(q, r, q', r', range, missed);
    }
  }

  lemma Split(e: nat, range: nat)
    requires range > 0
    ensures e == e / range * range + e % range && 0 <= e % range < range
  {
  }

  lemma QuotientsOrdered(q: int, r: int, q': int, r': int, range: int)
    requires range > 0 && 0 <= r < range && 0 <= r' < range && q * range + r <= q' * range + r'
    ensures q <= q' && (r' < r ==> q < q')
  {
    if q > q' { AtLeast(q - q', range); }
    assert (q - q') * range == q * range - q' * range;
  }

  lemma AtLeast(n: int, range: int)
    requires n >= 1 && range > 0
    ensures n * range >= range
  {
  }

  lemma Missed(q: int, r: int, q': int, r': int, range: nat, missed: nat)
    requires range > 0 && 0 <= r < range && 0 <= r' < range && q <= q'
    requires missed == if r' >= r then q' - q else q' - q - 1
    ensures var advance := (q' * range + r') - (q * range + r);
      && Delta(r', r, range) == advance - missed * range && 0 <= Delta(r', r, range) < range
      && (missed * range == 0 <==> advance < range)
  {
    assert (q' - q) * range == q' * range - q * range;
    assert (q' - q - 1) * range == q' * range - q * range - range;
    if missed > 0 { AtLeast(missed, range); }
  }

  /** One delta is right exactly if the energy advanced by less than the counter's range. */
  lemma DeltaIsRightIff(before: nat, after: nat, range: nat)
    requires before <= after
    ensures Delta(Shown(after, range), Shown(before, range), range) == after - before <==>
      range == 0 || after - before < range
  {
    var missed := DeltaMissesRanges(before, after, range);
  }

  /** A counter of unknown range that was set back to zero counts what it shows since, which is all that was
      consumed since. It is taken for one exactly if it shows less than before; otherwise it is short by
      what it showed. */
  lemma ResetCounts(shown: nat, since: nat)
    ensures Delta(since, shown, 0) == since <==> since < shown || shown == 0
    ensures Delta(since, shown, 0) == since || Delta(since, shown, 0) + shown == since
  {
  }

  // Runs.

  /** An attempt to read a source, and the value if it succeeded. */
  datatype Attempt = Attempt(source: string, value: Option<nat>)

  predicate Reads(a: Attempt, source: string)
  {
    a.source == source && a.value.Some?
  }

  /** The value of the last successful read of a source. */
  function LastRead(run: seq<Attempt>, source: string): Option<nat>
  {
    if run == [] then None
    else
      var a := run[|run| - 1];
      if Reads(a, source) then a.value else LastRead(run[..|run| - 1], source)
  }

  function FirstRead(run: seq<Attempt>, source: string): Option<nat>
  {
    if run == [] then None
    else
      var a, first := run[|run| - 1], FirstRead(run[..|run| - 1], source);
      if first.None? && Reads(a, source) then a.value else first
  }

  /** The deltas computed from a run of counter values. The first successful read only sets the reference. */
  function Counted(run: seq<Attempt>, source: string, range: nat): int
  {
    if run == [] then 0
    else
      var prefix, a := run[..|run| - 1], run[|run| - 1];
      Counted(prefix, source, range) + if Reads(a, source)
        then StepDelta(LastRead(prefix, source), a.value.value, range) else 0
  }

  /** `prev_readings.get(..).unwrap_or(current)`, then the delta. */
  function StepDelta(previous: Option<nat>, current: nat, range: nat): int
  {
    Delta(current, previous.UnwrapOr(current), range)
  }

  /** In a run of true energies: energy never decreases between successful reads. */
  predicate Physical(run: seq<Attempt>, source: string)
  {
    run == [] ||
    (var a, last := run[|run| - 1], LastRead(run[..|run| - 1], source);
     Physical(run[..|run| - 1], source) && (Reads(a, source) && last.Some? ==> last.value <= a.value.value))
  }

  /** Between successful reads the energy advances by less than the range, if the source has one. */
  predicate Steady(run: seq<Attempt>, source: string, range: nat)
  {
    run == [] ||
    (var a, last := run[|run| - 1], LastRead(run[..|run| - 1], source);
     Steady(run[..|run| - 1], source, range) &&
     (Reads(a, source) && last.Some? && range > 0 ==> a.value.value - last.value < range))
  }

  /** What really was consumed between the first and the last successful read. */
  function Consumed(run: seq<Attempt>, source: string): int
  {
    if FirstRead(run, source).Some? && LastRead(run, source).Some?
      then LastRead(run, source).value - FirstRead(run, source).value else 0
  }

  function ShownOption(e: Option<nat>, range: nat): Option<nat>
  {
    if e.Some? then Some(Shown(e.value, range)) else None
  }

  /** The counter of the source shows its true energy; the other sources may show anything. */
  predicate Shows(shown: seq<Attempt>, run: seq<Attempt>, source: string, range: nat)
  {
    |shown| == |run| && forall i :: 0 <= i < |run| ==>
      shown[i].source == run[i].source && (run[i].source == source ==>
        shown[i].value == ShownOption(run[i].value, range))
  }

  lemma {:induction false} ShownLast(shown: seq<Attempt>, run: seq<Attempt>, source: string, range: nat)
    requires Shows(shown, run, source, range)
    ensures LastRead(shown, source) == ShownOption(LastRead(run, source), range)
  {
    if run != [] { ShownLast(shown[..|run| - 1], run[..|run| - 1], source, range); }
  }

  lemma {:induction false} FirstAndLast(run: seq<Attempt>, source: string)
    ensures FirstRead(run, source).Some? <==> LastRead(run, source).Some?
  {
    if run != [] { FirstAndLast(run[..|run| - 1], source); }
  }

  /** Whatever reads fail and however the sources interleave, the deltas never count more than was
      consumed, and they count exactly that if and only if no successful read came a whole range late. */
  lemma {:induction false} DeltasTelescope(shown: seq<Attempt>, run: seq<Attempt>, source: string, range: nat)
    requires Shows(shown, run, source, range) && Physical(run, source)
    ensures Counted(shown, source, range) <= Consumed(run, source)
    ensures Counted(shown, source, range) == Consumed(run, source) <==> Steady(run, source, range)
  {
    if run != [] {
      var n := |run| - 1;
      DeltasTelescope(shown[..n], run[..n], source, range);
      FirstAndLast(run[..n], source);
      ShownLast(shown[..n], run[..n], source, range);
      var last := LastRead(run[..n], source);
      if Reads(run[n], source) && last.Some? {
        var missed := DeltaMissesRanges(last.value, run[n].value.value, range);
      }
    }
  }

  /** The previous reading of each source, as the collection loop keeps it. */
  class EnergyMeter {
    var prevReadings: map<string, nat>
    ghost var run: seq<Attempt>

    /** What is stored is the last successful read. */
    ghost predicate Valid()
      reads this
    {
      forall source :: LastRead(run, source) == if source in prevReadings then Some(prevReadings[source]) else None
    }

    constructor ()
      ensures Valid() && run == []
    {
      prevReadings, run := map[], [];
    }

    /** One source in one tick: the delta since its last successful read, zero if there was none or
        this one failed. */
    method Read(source: string, reading: Option<nat>, range: nat) returns (delta: int)
      requires Valid()
      modifies this
      ensures Valid() && run == old(run) + [Attempt(source, reading)]
      ensures Counted(run, source, range) == Counted(old(run), source, range) + delta
    {
      delta := 0;
      if reading.Some? {
        var current := reading.value;
        var prev := if source in prevReadings then prevReadings[source] else current;
        assert LastRead(run, source).UnwrapOr(current) == prev;
        delta := if current >= prev then current - prev else if range > 0 then (range - prev) + current else current;
        prevReadings := prevReadings[source := current];
      }
      run := run + [Attempt(source, reading)];
      forall s ensures LastRead(run, s) == if s in prevReadings then Some(prevReadings[s]) else None {
        LastOneMore(old(run), Attempt(source, reading), s);
        assert LastRead(old(run), s) == if s in old(prevReadings) then Some(old(prevReadings)[s]) else None;
      }
      assert run[..|run| - 1] == old(run);
    }
  }

  lemma LastOneMore(run: seq<Attempt>, a: Attempt, source: string)
    ensures LastRead(run + [a], source) == if Reads(a, source) then a.value else LastRead(run, source)
  {
    assert (run + [a])[..|run|] == run;
  }
}
