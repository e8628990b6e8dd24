/** The tiered hardware poller: when sources are attempted, and what their last two readings are. */
module Collector {
  import opened Options
  import opened EnergyCounter

  datatype Tier = Fast | Medium | Slow

  /** Intervals in nanoseconds. */
  datatype Config = Config(heartbeat: nat, fast: nat, medium: nat, slow: nat)

  function IntervalOf(c: Config, tier: Tier): nat
  {
    match tier case Fast => c.fast case Medium => c.medium case Slow => c.slow
  }

  /** `classify_tier`, by the source's own interval. */
  function ClassifyTier(interval: nat, c: Config): Tier
  {
    if interval <= c.fast then Fast else if interval <= c.medium then Medium else Slow
  }

  /** Fast before medium before slow. */
  predicate Faster(a: Tier, b: Tier)
  {
    (a.Fast? && !b.Fast?) || (a.Medium? && b.Slow?)
  }

  /** A source is in the fastest tier whose interval is no shorter than its own, or else in the slow one. */
  lemma TierIs(interval: nat, c: Config)
    ensures var tier := ClassifyTier(interval, c);
      && (forall t: Tier :: Faster(t, tier) ==> IntervalOf(c, t) < interval)
      && (tier == Slow || interval <= IntervalOf(c, tier))
      && IntervalOf(c, Fast) == c.fast && IntervalOf(c, Medium) == c.medium && IntervalOf(c, Slow) == c.slow
  {
  }

  datatype Timers = Timers(heartbeat: nat, fast: nat, medium: nat, slow: nat)

  function TimerOf(t: Timers, tier: Tier): nat
  {
    match tier case Fast => t.fast case Medium => t.medium case Slow => t.slow
  }

  /** `now.duration_since(last) >= interval`; the clock is monotonic and saturates. */
  predicate Due(now: nat, last: nat, interval: nat)
  {
    (if now >= last then now - last else 0) >= interval
  }

  predicate Beats(c: Config, t: Timers, now: nat)
  {
    Due(now, t.heartbeat, c.heartbeat)
  }

  /** Whether a tick at `now` attempts the sources of a tier. */
  predicate Attempts(c: Config, t: Timers, now: nat, tier: Tier)
  {
    Beats(c, t, now) || Due(now, TimerOf(t, tier), IntervalOf(c, tier))
  }

  function Reset(c: Config, t: Timers, now: nat, tier: Tier): nat
  {
    if Attempts(c, t, now, tier) then now else TimerOf(t, tier)
  }

  /** The timers after a tick. */
  function Ticked(c: Config, t: Timers, now: nat): Timers
  {
    Timers(if Beats(c, t, now) then now else t.heartbeat, Reset(c, t, now, Fast), Reset(c, t, now, Medium),
      Reset(c, t, now, Slow))
  }

  // Runs: a collector made at `start` is ticked at the given times.

  function Run(c: Config, start: nat, ticks: seq<nat>): Timers
  {
    if ticks == [] then Timers(start, start, start, start)
    else Ticked(c, Run(c, start, ticks[..|ticks| - 1]), ticks[|ticks| - 1])
  }

  /** The creation and every tick that attempts the tier. */
  function AttemptTimes(c: Config, start: nat, ticks: seq<nat>, tier: Tier): seq<nat>
  {
    if ticks == [] then [start]
    else
      var prefix, now := ticks[..|ticks| - 1], ticks[|ticks| - 1];
      AttemptTimes(c, start, prefix, tier) + if Attempts(c, Run(c, start, prefix), now, tier) then [now] else []
  }

  /** The creation and every tick that attempts all sources at once. */
  function BeatTimes(c: Config, start: nat, ticks: seq<nat>): seq<nat>
  {
    if ticks == [] then [start]
    else
      var prefix, now := ticks[..|ticks| - 1], ticks[|ticks| - 1];
      BeatTimes(c, start, prefix) + if Beats(c, Run(c, start, prefix), now) then [now] else []
  }

  function Latest(start: nat, ticks: seq<nat>): nat
  {
    if ticks == [] then start else ticks[|ticks| - 1]
  }

  /** Ticks in order and at most d apart, the first at most d after the creation. */
  predicate Schedule(start: nat, ticks: seq<nat>, d: nat)
  {
    ticks == [] ||
    (var prefix, now := ticks[..|ticks| - 1], ticks[|ticks| - 1];
     Schedule(start, prefix, d) && Latest(start, prefix) <= now <= Latest(start, prefix) + d)
  }

  predicate GapsWithin(times: seq<nat>, bound: nat)
  {
    forall i :: 0 < i < |times| ==> times[i - 1] <= times[i] <= times[i - 1] + bound
  }

  /** What the timers are for: each holds the time of the last attempt, and no tier is overdue after a tick. */
  ghost predicate OnTime(times: seq<nat>, timer: nat, interval: nat, bound: nat, latest: nat)
  {
    times != [] && times[|times| - 1] == timer <= latest && GapsWithin(times, bound) &&
      (latest == timer || latest < timer + interval)
  }

  /** A tick at `now`: the timer is reset if the tick attempts, and it does attempt if the interval is over. */
  lemma StaysOnTime(times: seq<nat>, timer: nat, interval: nat, d: nat, latest: nat, now: nat, attempts: bool)
    requires OnTime(times, timer, interval, interval + d, latest) && latest <= now <= latest + d
    requires Due(now, timer, interval) ==> attempts
    ensures OnTime(times + if attempts then [now] else [], if attempts then now else timer, interval, interval + d, now)
  {
    if attempts {
      var more := times + [now];
      forall i | 0 < i < |more| ensures more[i - 1] <= more[i] <= more[i - 1] + interval + d {
        if i < |times| { assert times[i - 1] <= times[i] <= times[i - 1] + interval + d; }
      }
    } else {
      assert times + [] == times;
    }
  }

  lemma {:induction false} TiersAreOnTime(c: Config, start: nat, ticks: seq<nat>, d: nat, tier: Tier)
    requires Schedule(start, ticks, d)
    ensures OnTime(AttemptTimes(c, start, ticks, tier), TimerOf(Run(c, start, ticks), tier), IntervalOf(c, tier),
      IntervalOf(c, tier) + d, Latest(start, ticks))
  {
    if ticks != [] {
      var prefix, now := ticks[..|ticks| - 1], ticks[|ticks| - 1];
      TiersAreOnTime(c, start, prefix, d, tier);
      var t := Run(c, start, prefix);
      StaysOnTime(AttemptTimes(c, start, prefix, tier), TimerOf(t, tier), IntervalOf(c, tier), d, Latest(start, prefix),
        now, Attempts(c, t, now, tier));
      assert TimerOf(Ticked(c, t, now), tier) == Reset(c, t, now, tier);
    }
  }

  lemma {:induction false} BeatsAreOnTime(c: Config, start: nat, ticks: seq<nat>, d: nat)
    requires Schedule(start, ticks, d)
    ensures OnTime(BeatTimes(c, start, ticks), Run(c, start, ticks).heartbeat, c.heartbeat, c.heartbeat + d,
      Latest(start, ticks))
  {
    if ticks != [] {
      var prefix, now := ticks[..|ticks| - 1], ticks[|ticks| - 1];
      BeatsAreOnTime(c, start, prefix, d);
      var t := Run(c, start, prefix);
      StaysOnTime(BeatTimes(c, start, prefix), t.heartbeat, c.heartbeat, d, Latest(start, prefix), now,
        Beats(c, t, now));
    }
  }

  /** Bounded polling gap: for every schedule of ticks at most d apart, successive attempts of a tier
      are at most its interval plus d apart, all sources are attempted together at least every heartbeat
      plus d, and the time since the last of either is within the same bounds. */
  lemma PollingGapIsBounded(c: Config, start: nat, ticks: seq<nat>, d: nat, tier: Tier)
    requires Schedule(start, ticks, d)
    ensures GapsWithin(AttemptTimes(c, start, ticks, tier) + [Latest(start, ticks)], IntervalOf(c, tier) + d)
    ensures GapsWithin(BeatTimes(c, start, ticks) + [Latest(start, ticks)], c.heartbeat + d)
  {
    TiersAreOnTime(c, start, ticks, d, tier);
    NotOverdue(AttemptTimes(c, start, ticks, tier), TimerOf(Run(c, start, ticks), tier), IntervalOf(c, tier), d,
      Latest(start, ticks));
    BeatsAreOnTime(c, start, ticks, d);
    NotOverdue(BeatTimes(c, start, ticks), Run(c, start, ticks).heartbeat, c.heartbeat, d, Latest(start, ticks));
  }

  lemma NotOverdue(times: seq<nat>, timer: nat, interval: nat, d: nat, latest: nat)
    requires OnTime(times, timer, interval, interval + d, latest)
    ensures GapsWithin(times + [latest], interval + d)
  {
    var more := times + [latest];
    forall i | 0 < i < |more| ensures more[i - 1] <= more[i] <= more[i - 1] + interval + d {
      if i < |times| { assert times[i - 1] <= times[i] <= times[i - 1] + interval + d; }
    }
  }

  /** Successive times are an interval apart, except at a heartbeat. */
  predicate Spaced(times: seq<nat>, interval: nat, beats: seq<nat>)
  {
    forall i :: 0 < i < |times| ==> times[i - 1] + interval <= times[i] || times[i] in beats
  }

  lemma StaysSpaced(times: seq<nat>, interval: nat, beats: seq<nat>, more: seq<nat>, now: nat)
    requires Spaced(times, interval, beats) && times != []
    ensures Spaced(times, interval, beats + more)
    ensures times[|times| - 1] + interval <= now || now in more ==> Spaced(times + [now], interval, beats + more)
  {
    forall i | 0 < i < |times| ensures times[i - 1] + interval <= times[i] || times[i] in beats + more {
      assert times[i - 1] + interval <= times[i] || times[i] in beats;
    }
  }

  /** Nor are sources attempted too often: only a heartbeat comes before the tier's interval is over. */
  lemma {:induction false} AttemptsAreSpaced(c: Config, start: nat, ticks: seq<nat>, d: nat, tier: Tier)
    requires Schedule(start, ticks, d)
    ensures Spaced(AttemptTimes(c, start, ticks, tier), IntervalOf(c, tier), BeatTimes(c, start, ticks))
  {
    if ticks != [] {
      var prefix, now := ticks[..|ticks| - 1], ticks[|ticks| - 1];
      AttemptsAreSpaced(c, start, prefix, d, tier);
      TiersAreOnTime(c, start, prefix, d, tier);
      var t, times := Run(c, start, prefix), AttemptTimes(c, start, prefix, tier);
      StaysSpaced(times, IntervalOf(c, tier), BeatTimes(c, start, prefix), if Beats(c, t, now) then [now] else [], now);
      assert times + [] == times;
    }
  }

  /** A heartbeat attempts every tier. */
  lemma {:induction false} HeartbeatAttemptsAll(c: Config, start: nat, ticks: seq<nat>, tier: Tier)
    ensures forall now :: now in BeatTimes(c, start, ticks) ==> now in AttemptTimes(c, start, ticks, tier)
  {
    if ticks != [] { HeartbeatAttemptsAll(c, start, ticks[..|ticks| - 1], tier); }
  }

  // The sources.

  /** A counter value, or a power without one. */
  datatype Reading = Reading(energyUj: Option<nat>, maxEnergyUj: nat, powerUw: Option<nat>, timestamp: nat)

  datatype Source = Source(tier: Tier, last: Option<Reading>, previous: Option<Reading>)

  /** `read_source`: a successful read moves the last reading to the previous one; a failed one changes nothing. */
  function Rotated(s: Source, result: Option<Reading>): Source
  {
    if result.Some? then s.(previous := s.last, last := result) else s
  }

  /** `compute_energy_delta`. */
  function EnergyDelta(current: Reading, previous: Reading): int
  {
    match (current.energyUj, previous.energyUj)
    case (Some(e), Some(e')) => Delta(e, e', current.maxEnergyUj)
    case (None, None) =>
      if current.powerUw.Some? && previous.powerUw.Some?
      then current.powerUw.value * (if current.timestamp >= previous.timestamp
        then current.timestamp - previous.timestamp else 0) / 1_000_000_000
      else 0
    case _ => 0
  }

  /** Of two powers, the delta is the later one times the time between them, in whole microjoules; nothing if
      the clock went back. A counter and a power do not make a delta. */
  lemma PowerDeltaIs(current: Reading, previous: Reading)
    ensures var d, t := EnergyDelta(current, previous), current.timestamp - previous.timestamp;
      && (current.energyUj.None? && previous.energyUj.None? && current.powerUw.Some? && previous.powerUw.Some? ==>
            var e := current.powerUw.value * if t > 0 then t else 0;
            d * 1_000_000_000 <= e < d * 1_000_000_000 + 1_000_000_000)
      && (current.energyUj.Some? != previous.energyUj.Some? ==> d == 0)
      && (current.energyUj.None? && (current.powerUw.None? || previous.powerUw.None?) ==> d == 0)
  {
  }

  /** The source after a run of attempts. */
  function AfterReads(s: Source, results: seq<Option<Reading>>): Source
  {
    if results == [] then s else Rotated(AfterReads(s, results[..|results| - 1]), results[|results| - 1])
  }

  /** The deltas of a source's last two readings, taken after each successful attempt. */
  function DeltasOf(s: Source, results: seq<Option<Reading>>): int
  {
    if results == [] then 0
    else
      var after := AfterReads(s, results);
      DeltasOf(s, results[..|results| - 1]) +
      if results[|results| - 1].Some? && after.last.Some? && after.previous.Some?
        then EnergyDelta(after.last.value, after.previous.value) else 0
  }

  /** The counter values of a run of attempts of one source. */
  function CounterRun(results: seq<Option<Reading>>, name: string): (run: seq<Attempt>)
    ensures |run| == |results| && forall i :: 0 <= i < |run| ==>
      run[i] == Attempt(name, if results[i].Some? then results[i].value.energyUj else None)
  {
    seq(|results|, i requires 0 <= i < |results| =>
      Attempt(name, if results[i].Some? then results[i].value.energyUj else None))
  }

  /** A source that reports a counter of one range. */
  predicate IsCounter(results: seq<Option<Reading>>, range: nat)
  {
    forall i :: 0 <= i < |results| && results[i].Some? ==>
      results[i].value.energyUj.Some? && results[i].value.maxEnergyUj == range
  }

  /** The collector's two reading slots give the same deltas as a meter that stores one value, so the
      telescoping of EnergyCounter holds of them. */
  lemma {:induction false} SlotsCountTheRun(tier: Tier, results: seq<Option<Reading>>, name: string, range: nat)
    requires IsCounter(results, range)
    ensures var s := AfterReads(Source(tier, None, None), results);
      && LastRead(CounterRun(results, name), name) == (if s.last.Some? then s.last.value.energyUj else None)
      && (s.last.Some? ==> s.last.value.energyUj.Some?)
    ensures DeltasOf(Source(tier, None, None), results) == Counted(CounterRun(results, name), name, range)
  {
    if results != [] {
      var n := |results| - 1;
      SlotsCountTheRun(tier, results[..n], name, range);
      assert CounterRun(results, name)[..n] == CounterRun(results[..n], name);
    }
  }

  class HardwareCollector {
    const config: Config
    const start: nat
    var sources: seq<Source>
    var lastHeartbeat: nat
    var lastFast: nat
    var lastMedium: nat
    var lastSlow: nat
    ghost var ticks: seq<nat>

    ghost function Value(): Timers
      reads this
    {
      Timers(lastHeartbeat, lastFast, lastMedium, lastSlow)
    }

    /** The timers are those of the run so far, so the polling gap is bounded in every state. */
    ghost predicate Valid()
      reads this
    {
      Value() == Run(config, start, ticks)
    }

    /** `new`: each source gets its tier from its own interval. */
    constructor (intervals: seq<nat>, config: Config, now: nat)
      ensures Valid() && this.config == config && start == now && ticks == []
      ensures |sources| == |intervals|
      ensures forall i :: 0 <= i < |intervals| ==> sources[i] == Source(ClassifyTier(intervals[i], config), None, None)
    {
      this.config, this.start := config, now;
      sources := seq(|intervals|, i requires 0 <= i < |intervals| =>
        Source(ClassifyTier(intervals[i], config), None, None));
      lastHeartbeat, lastFast, lastMedium, lastSlow := now, now, now, now;
      ticks := [];
    }

    /** `read_all`. results[i] is what reading source i gives in this tick. */
    method ReadAll(results: seq<Option<Reading>>)
      requires |results| == |sources|
      modifies this`sources
      ensures |sources| == |results| && forall i :: 0 <= i < |results| ==>
        sources[i] == Rotated(old(sources)[i], results[i])
    {
      for i := 0 to |results|
        invariant |sources| == |results|
        invariant forall j :: 0 <= j < i ==> sources[j] == Rotated(old(sources)[j], results[j])
        invariant forall j :: i <= j < |results| ==> sources[j] == old(sources)[j]
      {
        sources := sources[i := Rotated(sources[i], results[i])];
      }
    }

    /** `read_tier`. */
    method ReadTier(tier: Tier, results: seq<Option<Reading>>) returns (any: bool)
      requires |results| == |sources|
      modifies this`sources
      ensures |sources| == |results|
      ensures forall i :: 0 <= i < |results| ==>
        sources[i] == if old(sources)[i].tier == tier then Rotated(old(sources)[i], results[i]) else old(sources)[i]
      ensures any <==> exists i :: 0 <= i < |results| && old(sources)[i].tier == tier && results[i].Some?
    {
      any := false;
      for i := 0 to |results|
        invariant |sources| == |results|
        invariant forall j :: 0 <= j < i ==> sources[j] == if old(sources)[j].tier == tier
          then Rotated(old(sources)[j], results[j]) else old(sources)[j]
        invariant forall j :: i <= j < |results| ==> sources[j] == old(sources)[j]
        invariant any <==> exists j :: 0 <= j < i && old(sources)[j].tier == tier && results[j].Some?
      {
        if sources[i].tier == tier {
          sources := sources[i := Rotated(sources[i], results[i])];
          if results[i].Some? {
            any := true;
          }
        }
      }
    }

    /** One of the three checks of `tick` after the heartbeat's. */
    method PollTier(tier: Tier, now: nat, results: seq<Option<Reading>>) returns (any: bool)
      requires |results| == |sources|
      modifies this`sources, this`lastFast, this`lastMedium, this`lastSlow
      ensures Polled(old(sources), sources, results, tier,
        Due(now, TimerOf(old(Value()), tier), IntervalOf(config, tier)), any)
      ensures Value() == WithTimer(old(Value()), tier,
        if Due(now, TimerOf(old(Value()), tier), IntervalOf(config, tier)) then now else TimerOf(old(Value()), tier))
    {
      any := false;
      var timer := match tier case Fast => lastFast case Medium => lastMedium case Slow => lastSlow;
      if Due(now, timer, IntervalOf(config, tier)) {
        any := ReadTier(tier, results);
        match tier
        case Fast => lastFast := now;
        case Medium => lastMedium := now;
        case Slow => lastSlow := now;
      }
    }

    /** The part of `tick` after the heartbeat check. */
    method PollTiers(now: nat, results: seq<Option<Reading>>) returns (any: bool)
      requires |results| == |sources| && !Beats(config, Value(), now)
      modifies this`sources, this`lastFast, this`lastMedium, this`lastSlow
      ensures Value() == Ticked(config, old(Value()), now)
      ensures ReadIf(old(sources), sources, results, config, old(Value()), now)
      ensures any <==> SomeRead(old(sources), results, config, old(Value()), now)
    {
      ghost var t := Value();
      var fast := PollTier(Fast, now, results);
      ghost var afterFast := sources;
      var medium := PollTier(Medium, now, results);
      ghost var afterMedium := sources;
      var slow := PollTier(Slow, now, results);
      any := fast || medium || slow;
      ThreePolls(old(sources), afterFast, afterMedium, sources, results, config, t, now, fast, medium, slow);
    }

    /** A due heartbeat reads all sources and restarts every timer. */
    method Heartbeat(now: nat, results: seq<Option<Reading>>)
      requires |results| == |sources| && Beats(config, Value(), now)
      modifies this`sources, this`lastHeartbeat, this`lastFast, this`lastMedium, this`lastSlow
      ensures Value() == Ticked(config, old(Value()), now)
      ensures ReadIf(old(sources), sources, results, config, old(Value()), now)
    {
      ReadAll(results);
      lastHeartbeat, lastFast, lastMedium, lastSlow := now, now, now, now;
    }

    /** `tick`. Each source is read at most once, exactly if its tier is attempted. */
    method Tick(now: nat, results: seq<Option<Reading>>) returns (any: bool)
      requires Valid() && |results| == |sources|
      modifies this
      ensures Valid() && ticks == old(ticks) + [now]
      ensures ReadIf(old(sources), sources, results, config, old(Value()), now)
      ensures any <==> (Beats(config, old(Value()), now) || SomeRead(old(sources), results, config, old(Value()), now))
    {
      ghost var t := Value();
      if Due(now, lastHeartbeat, config.heartbeat) {
        Heartbeat(now, results);
        any := true;
      } else {
        any := PollTiers(now, results);
      }
      Log(now, t);
    }

    ghost method Log(now: nat, t: Timers)
      requires t == Run(config, start, ticks) && Value() == Ticked(config, t, now)
      modifies this`ticks
      ensures Valid() && ticks == old(ticks) + [now]
    {
      RunOneMore(config, start, ticks, now);
      ticks := ticks + [now];
    }
  }

  lemma RunOneMore(c: Config, start: nat, ticks: seq<nat>, now: nat)
    ensures Run(c, start, ticks + [now]) == Ticked(c, Run(c, start, ticks), now)
  {
    assert (ticks + [now])[..|ticks|] == ticks;
  }

  function WithTimer(t: Timers, tier: Tier, now: nat): Timers
  {
    match tier
    case Fast => t.(fast := now)
    case Medium => t.(medium := now)
    case Slow => t.(slow := now)
  }

  /** The sources of a tier were read if it was due; `any` says whether a read succeeded. */
  ghost predicate Polled(before: seq<Source>, after: seq<Source>, results: seq<Option<Reading>>, tier: Tier, due: bool,
                         any: bool)
  {
    && |after| == |before| == |results|
    && (forall i :: 0 <= i < |results| ==> after[i] == if due && before[i].tier == tier
      then Rotated(before[i], results[i]) else before[i])
    && (any <==> due && exists i :: 0 <= i < |results| && before[i].tier == tier && results[i].Some?)
  }

  /** A source was read exactly if the tick attempts its tier. */
  ghost predicate ReadIf(before: seq<Source>, after: seq<Source>, results: seq<Option<Reading>>, c: Config, t: Timers,
                         now: nat)
  {
    && |after| == |before| == |results|
    && forall i :: 0 <= i < |results| ==> after[i] == if Attempts(c, t, now, before[i].tier)
      then Rotated(before[i], results[i]) else before[i]
  }

  ghost predicate SomeRead(before: seq<Source>, results: seq<Option<Reading>>, c: Config, t: Timers, now: nat)
    requires |before| == |results|
  {
    exists i :: 0 <= i < |results| && Attempts(c, t, now, before[i].tier) && results[i].Some?
  }

  /** The three checks together read each source at most once. */
  lemma ThreePolls(s: seq<Source>, s1: seq<Source>, s2: seq<Source>, s3: seq<Source>, results: seq<Option<Reading>>,
                   c: Config, t: Timers, now: nat,
                   fast: bool, medium: bool, slow: bool)
    requires !Beats(c, t, now)
    requires Polled(s, s1, results, Fast, Due(now, t.fast, c.fast), fast)
    requires Polled(s1, s2, results, Medium, Due(now, t.medium, c.medium), medium)
    requires Polled(s2, s3, results, Slow, Due(now, t.slow, c.slow), slow)
    ensures ReadIf(s, s3, results, c, t, now)
    ensures fast || medium || slow <==> SomeRead(s, results, c, t, now)
  {
    assert forall i :: 0 <= i < |results| ==> s1[i].tier == s[i].tier && s2[i].tier == s[i].tier;
    if i :| 0 <= i < |results| && Attempts(c, t, now, s[i].tier) && results[i].Some? {
      assert s1[i].tier == s2[i].tier == s[i].tier;
    }
  }
}
