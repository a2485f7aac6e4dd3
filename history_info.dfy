/** `PerformanceCounterHistoryInfo`: the cumulative record of one short name. */
module History {
  import opened TimingModel

  /** The name is fixed at construction (its setter is private, here a
      `const`); the count and the total have public setters, which
      `PerformanceHelper.AddHistoryInfo` updates in place. */
  class PerformanceCounterHistoryInfo {
    const name: string
    var numberOfInvokeTimes: int
    var totalElapsedTicks: int

    ghost function View(): HistoryEntry
      reads this
    {
      HistoryEntry(name, numberOfInvokeTimes, totalElapsedTicks)
    }

    /** A new record counts one invocation of `name` taking `elapsedTicks`. */
    constructor (name: string, elapsedTicks: int)
      ensures this.name == name
      ensures numberOfInvokeTimes == 1
      ensures totalElapsedTicks == elapsedTicks
    {
      this.name := name;
      totalElapsedTicks := elapsedTicks;
      numberOfInvokeTimes := 1;
    }
  }
}
