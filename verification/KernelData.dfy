/** What the kernel side reports about tasks and cores over one interval. */
module KernelData {
  datatype Key = Key(cpu: nat, pid: nat)

  datatype PidTime = PidTime(cpu: nat, pid: nat, timeNs: nat)

  datatype FreqTime = FreqTime(cpu: nat, freqKhz: nat, timeNs: nat)

  datatype Counters = Counters(instructions: nat, cycles: nat, cacheMisses: nat)

  /** A task's counters on a CPU; zero if there are none. */
  function CountersOf(counters: map<Key, Counters>, cpu: nat, pid: nat): Counters
  {
    if Key(cpu, pid) in counters then counters[Key(cpu, pid)] else Counters(0, 0, 0)
  }

  datatype CoreCounters = CoreCounters(core: nat, counters: Counters)
}
