/** The performance-timing engine of the log4net wrapper as values: a stopwatch
    per counter, the two counter caches, the shared history map and the log.
    Every operation of the engine is a function from the old state to the new
    one; the imperative classes in module Performance are proved to follow them. */
module TimingModel {
  import opened Wrappers
  import opened Text

  /** Stopwatch ticks per millisecond: a positive constant of the process. */
  type Positive = n: int | n > 0 witness 1

  /** C#'s `long / long`: the quotient truncated toward zero. */
  function CsDiv(a: int, b: Positive): (q: int)
    ensures a >= 0 ==> 0 <= q && q * b <= a < q * b + b
    ensures a < 0 ==> q <= 0 && q * b - b < a <= q * b
  {
    if a >= 0 then
      QuotientBounds(a, b);
      a / b
    else
      QuotientBounds(-a, b);
      -((-a) / b)
  }

  /** Euclidean division of a natural number brackets it between two multiples. */
  lemma QuotientBounds(n: nat, b: Positive)
    ensures 0 <= n / b && (n / b) * b <= n < (n / b) * b + b
  {
    var q, r := n / b, n % b;
    assert n == q * b + r && 0 <= r < b;
    assert 0 <= q;
  }

  // ---------------------------------------------------------------------------
  // Stopwatch

  /** A stopwatch: whether it runs, the ticks banked by earlier runs and the
      clock reading at which the current run began. */
  datatype Stopwatch = Stopwatch(running: bool, banked: int, startedAt: nat)

  /** `Stopwatch.ElapsedTicks` when the clock reads `now`. */
  function WatchTicks(w: Stopwatch, now: nat): int {
    w.banked + (if w.running then now - w.startedAt else 0)
  }

  /** A stopwatch after `Start` on a new instance, or after `Restart`. */
  function RunningFrom(now: nat): (w: Stopwatch)
    ensures w.running && WatchTicks(w, now) == 0
    ensures forall t: nat :: WatchTicks(w, t) == t - now
  {
    Stopwatch(true, 0, now)
  }

  /** `Stopwatch.Stop`: banks the current run; a stopped watch is left alone. */
  function Halted(w: Stopwatch, now: nat): (r: Stopwatch)
    ensures !r.running
    ensures forall t: nat :: WatchTicks(r, t) == WatchTicks(w, now)
  {
    if w.running then Stopwatch(false, WatchTicks(w, now), w.startedAt) else w
  }

  // ---------------------------------------------------------------------------
  // PerformanceCounter

  /** A performance counter. A custom-key counter has no file path, method name
      or thread id (null and 0 in the source); they are "" and 0 here. */
  datatype Counter = Counter(
    name: string,
    shortName: string,
    filePath: string,
    methodName: string,
    threadId: int,
    watch: Stopwatch,
    extraTicks: int)

  /** `new PerformanceCounter(key)`: named after the key, running from `now`,
      with no extra ticks. */
  function KeyCounter(key: string, now: nat): (c: Counter)
    ensures KeyCounterOk(key, c, now)
    ensures c.watch.running && LastElapsedTicks(c, now) == 0
  {
    Counter(key, key, "", "", 0, RunningFrom(now), 0)
  }

  /** `new PerformanceCounter(filePath, methodName, threadId)`: it keeps its
      site, belongs under the site key of its file and thread, and runs from
      `now` with no extra ticks. */
  function SiteCounter(filePath: string, methodName: string, threadId: int, now: nat): (c: Counter)
    ensures c.filePath == filePath && c.methodName == methodName && c.threadId == threadId
    ensures SiteCounterOk(SiteKey(filePath, threadId), c, now)
    ensures c.watch.running && c.extraTicks == 0 && LastElapsedTicks(c, now) == 0
  {
    Counter(filePath + methodName + IntToString(threadId), filePath + methodName,
            filePath, methodName, threadId, RunningFrom(now), 0)
  }

  /** `PerformanceCounter.LastElapsedTicks`: the stopwatch reading plus the extra ticks. */
  function LastElapsedTicks(c: Counter, now: nat): int {
    WatchTicks(c.watch, now) + c.extraTicks
  }

  /** `PerformanceCounter.ReStart`: only the stopwatch is reset. */
  function Restarted(c: Counter, now: nat): Counter {
    c.(watch := RunningFrom(now))
  }

  /** `PerformanceCounter.Stop`: stops the stopwatch and returns `LastElapsedTicks`.
      The stopped counter reports that same value at every later time. */
  function CounterStop(c: Counter, now: nat): (r: (Counter, int))
    ensures !r.0.watch.running
    ensures r.0 == c.(watch := r.0.watch)
    ensures r.1 == WatchTicks(c.watch, now) + c.extraTicks
    ensures forall t: nat :: LastElapsedTicks(r.0, t) == r.1
  {
    var stopped := c.(watch := Halted(c.watch, now));
    (stopped, LastElapsedTicks(stopped, now))
  }

  // ---------------------------------------------------------------------------
  // PerformanceCounterHistoryInfo and the history map

  datatype HistoryEntry = HistoryEntry(name: string, invokeTimes: int, totalTicks: int)

  /** Number of invocations recorded for `shortName`, 0 when it has no entry. */
  function CountIn(h: map<string, HistoryEntry>, shortName: string): int {
    if shortName in h then h[shortName].invokeTimes else 0
  }

  /** Total ticks recorded for `shortName`, 0 when it has no entry. */
  function TotalIn(h: map<string, HistoryEntry>, shortName: string): int {
    if shortName in h then h[shortName].totalTicks else 0
  }

  /** `PerformanceHelper.AddHistoryInfo`: counts one more invocation of
      `shortName` and adds `ticks` to its total, creating the entry on first
      use. Returns the new map and the entry after the update. */
  function AddHistory(h: map<string, HistoryEntry>, shortName: string, ticks: int)
    : (r: (map<string, HistoryEntry>, HistoryEntry))
    ensures r.0.Keys == h.Keys + {shortName}
    ensures r.0[shortName] == r.1
    ensures r.1.invokeTimes == CountIn(h, shortName) + 1
    ensures r.1.totalTicks == TotalIn(h, shortName) + ticks
    ensures r.1.name == if shortName in h then h[shortName].name else shortName
    ensures forall k :: k in h && k != shortName ==> r.0[k] == h[k]
  {
    if shortName in h then
      var old_ := h[shortName];
      var entry := old_.(invokeTimes := old_.invokeTimes + 1, totalTicks := old_.totalTicks + ticks);
      (h[shortName := entry], entry)
    else
      var entry := HistoryEntry(shortName, 1, ticks);
      (h[shortName := entry], entry)
  }

  // ---------------------------------------------------------------------------
  // The log sink

  datatype Warning = StartedTwice | StoppedBeforeStart

  /** A line written to the "Performance" logger: a warning naming the
      offending timer, or the summary of a stop (this call's milliseconds, the
      cumulative count and the cumulative milliseconds). */
  datatype LogEvent =
    | Warn(warning: Warning, subject: string)
    | Info(timer: string, elapsedMs: int, invokeTimes: int, totalMs: int)

  // ---------------------------------------------------------------------------
  // PerformanceHelper

  /** The static state of `PerformanceHelper`, the clock its stopwatches read
      and the lines written so far. */
  datatype Engine = Engine(
    clock: nat,
    frequencyMs: Positive,
    siteCache: map<string, Counter>,
    keyCache: map<string, Counter>,
    history: map<string, HistoryEntry>,
    log: seq<LogEvent>)

  /** The state after the static constructor has run. */
  function Initial(frequencyMs: Positive): Engine {
    Engine(0, frequencyMs, map[], map[], map[], [])
  }

  /** The call-site cache key as the source builds it: the file path twice and
      then the thread id. The method name is not part of it. */
  function SiteKey(filePath: string, threadId: int): (k: string)
    ensures |k| > 2 * |filePath|
    ensures filePath + filePath <= k
  {
    filePath + filePath + IntToString(threadId)
  }

  /** `StartPerformance(key)`: afterwards the key's counter exists and runs;
      no other counter, no history entry and nothing but the log changes, and
      the log gains at most the double-start warning. */
  function StartByKey(e: Engine, key: string): (r: Engine)
    ensures key in r.keyCache && r.keyCache[key].watch.running
    ensures r.siteCache == e.siteCache && r.history == e.history && r.clock == e.clock
    ensures |r.log| <= |e.log| + 1
  {
    if key in e.keyCache then
      if !e.keyCache[key].watch.running then
        e.(keyCache := e.keyCache[key := Restarted(e.keyCache[key], e.clock)])
      else
        e.(log := e.log + [Warn(StartedTwice, key)])
    else
      e.(keyCache := e.keyCache[key := KeyCounter(key, e.clock)])
  }

  /** The `ExtraElapsedTicks` setter of a counter. */
  function WithExtraTicks(c: Counter, extraTicks: int): Counter {
    c.(extraTicks := extraTicks)
  }

  /** `StartPerformance(filePath, methodName, extraElapsedTicks)` on thread
      `threadId`: afterwards the site key's counter exists and runs; nothing
      but that counter and the log changes, and the log gains at most the
      double-start warning naming the running counter. */
  function StartAtSite(e: Engine, filePath: string, methodName: string, threadId: int, extraTicks: int): (r: Engine)
    ensures SiteKey(filePath, threadId) in r.siteCache && r.siteCache[SiteKey(filePath, threadId)].watch.running
    ensures r.keyCache == e.keyCache && r.history == e.history && r.clock == e.clock
    ensures |r.log| <= |e.log| + 1
  {
    var name := SiteKey(filePath, threadId);
    if name in e.siteCache then
      var c := e.siteCache[name];
      if !c.watch.running then
        e.(siteCache := e.siteCache[name := WithExtraTicks(Restarted(c, e.clock), extraTicks)])
      else
        e.(log := e.log + [Warn(StartedTwice, c.shortName)])
    else
      e.(siteCache := e.siteCache[name := WithExtraTicks(SiteCounter(filePath, methodName, threadId, e.clock), extraTicks)])
  }

  /** The end of every stop of a running counter `c` whose `Stop` returned
      `elapsed`: the history of its short name counts one more invocation of
      its last elapsed ticks, and the information line names `timer`. */
  function ReportStop(e: Engine, c: Counter, elapsed: int, timer: string): Engine {
    var add := AddHistory(e.history, c.shortName, LastElapsedTicks(c, e.clock));
    e.(history := add.0,
       log := e.log + [Info(timer, CsDiv(elapsed, e.frequencyMs), add.1.invokeTimes,
                            CsDiv(add.1.totalTicks, e.frequencyMs))])
  }

  /** `StopPerformance(key)`: afterwards the key's counter, if any, is
      stopped; no counter appears or disappears, no other counter changes, no
      history entry disappears, and the log gains exactly one line. */
  function StopByKey(e: Engine, key: string): (r: Engine)
    ensures key in r.keyCache <==> key in e.keyCache
    ensures key in r.keyCache ==> !r.keyCache[key].watch.running
    ensures r.siteCache == e.siteCache && r.clock == e.clock
    ensures |r.log| == |e.log| + 1
  {
    if key in e.keyCache && e.keyCache[key].watch.running then
      var stop := CounterStop(e.keyCache[key], e.clock);
      ReportStop(e.(keyCache := e.keyCache[key := stop.0]), stop.0, stop.1, stop.0.shortName)
    else
      e.(log := e.log + [Warn(StoppedBeforeStart, key)])
  }

  /** The timer a call-site stop reports: the file path, a space, the method name. */
  function SiteTimer(filePath: string, methodName: string): string {
    filePath + " " + methodName
  }

  /** `StopPerformance(filePath, methodName, extraElapsedTicks)` on thread
      `threadId`: afterwards the site key's counter, if any, is stopped; no
      counter appears or disappears, no other counter changes, no history
      entry disappears, and the log gains exactly one line. */
  function StopAtSite(e: Engine, filePath: string, methodName: string, threadId: int, extraTicks: int): (r: Engine)
    ensures SiteKey(filePath, threadId) in r.siteCache <==> SiteKey(filePath, threadId) in e.siteCache
    ensures SiteKey(filePath, threadId) in r.siteCache ==> !r.siteCache[SiteKey(filePath, threadId)].watch.running
    ensures r.keyCache == e.keyCache && r.clock == e.clock
    ensures |r.log| == |e.log| + 1
  {
    var name := SiteKey(filePath, threadId);
    if name in e.siteCache && e.siteCache[name].watch.running then
      var c0 := e.siteCache[name];
      var stop := CounterStop(WithExtraTicks(c0, c0.extraTicks + extraTicks), e.clock);
      ReportStop(e.(siteCache := e.siteCache[name := stop.0]), stop.0, stop.1,
                 SiteTimer(stop.0.filePath, stop.0.methodName))
    else
      e.(log := e.log + [Warn(StoppedBeforeStart, name)])
  }

  /** Time passing: every stopwatch reads the clock. */
  function Advance(e: Engine, ticks: nat): Engine {
    e.(clock := e.clock + ticks)
  }

  // ---------------------------------------------------------------------------
  // Runs of operations

  datatype Op =
    | StartKey(key: string)
    | StopKey(key: string)
    | StartSite(filePath: string, methodName: string, threadId: int, extraTicks: int)
    | StopSite(filePath: string, methodName: string, threadId: int, extraTicks: int)
    | Wait(ticks: nat)

  function Step(e: Engine, op: Op): Engine {
    match op
    case StartKey(k) => StartByKey(e, k)
    case StopKey(k) => StopByKey(e, k)
    case StartSite(f, m, t, x) => StartAtSite(e, f, m, t, x)
    case StopSite(f, m, t, x) => StopAtSite(e, f, m, t, x)
    case Wait(d) => Advance(e, d)
  }

  /** What a successful stop measured: the counter's short name and the value
      its `Stop()` returned. */
  datatype Measurement = Measurement(shortName: string, ticks: int)

  /** The measurement `op` yields from `e`, if it is a stop of a running counter.
      It is read off the counter alone, not off the history map. */
  function Measured(e: Engine, op: Op): Option<Measurement> {
    match op
    case StopKey(k) =>
      if k in e.keyCache && e.keyCache[k].watch.running then
        Some(Measurement(e.keyCache[k].shortName, CounterStop(e.keyCache[k], e.clock).1))
      else None
    case StopSite(f, _, t, x) =>
      var name := SiteKey(f, t);
      if name in e.siteCache && e.siteCache[name].watch.running then
        var c := e.siteCache[name];
        Some(Measurement(c.shortName, CounterStop(WithExtraTicks(c, c.extraTicks + x), e.clock).1))
      else None
    case _ => None
  }

  function Run(e: Engine, ops: seq<Op>): Engine
    decreases |ops|
  {
    if ops == [] then e else Step(Run(e, ops[..|ops| - 1]), ops[|ops| - 1])
  }

  /** The measurements of all successful stops of a run, in order. */
  function Measurements(e: Engine, ops: seq<Op>): seq<Measurement>
    decreases |ops|
  {
    if ops == [] then []
    else
      var prefix := ops[..|ops| - 1];
      var last := Measured(Run(e, prefix), ops[|ops| - 1]);
      Measurements(e, prefix) + (if last.Some? then [last.value] else [])
  }

  /** How many measurements carry `shortName`. */
  function StopsOf(ms: seq<Measurement>, shortName: string): nat
    decreases |ms|
  {
    if ms == [] then 0
    else StopsOf(ms[..|ms| - 1], shortName) + (if ms[|ms| - 1].shortName == shortName then 1 else 0)
  }

  /** The sum of the ticks of the measurements that carry `shortName`. */
  function TicksOf(ms: seq<Measurement>, shortName: string): int
    decreases |ms|
  {
    if ms == [] then 0
    else TicksOf(ms[..|ms| - 1], shortName) + (if ms[|ms| - 1].shortName == shortName then ms[|ms| - 1].ticks else 0)
  }

  // ---------------------------------------------------------------------------
  // The engine's invariant

  /** A stopwatch started no later than the clock; a running one has nothing
      banked (it was created or restarted), a stopped one banked its run. */
  predicate WatchOk(w: Stopwatch, clock: nat) {
    w.startedAt <= clock && w.banked >= 0 && (w.running ==> w.banked == 0)
  }

  /** A custom-key counter is named after its key and never gets extra ticks. */
  predicate KeyCounterOk(key: string, c: Counter, clock: nat) {
    && c.name == key && c.shortName == key
    && c.filePath == "" && c.methodName == "" && c.threadId == 0
    && c.extraTicks == 0
    && WatchOk(c.watch, clock)
  }

  /** A call-site counter sits under the key built from its own file path and
      thread, and its names are built from its site. */
  predicate SiteCounterOk(key: string, c: Counter, clock: nat) {
    && key == SiteKey(c.filePath, c.threadId)
    && c.name == c.filePath + c.methodName + IntToString(c.threadId)
    && c.shortName == c.filePath + c.methodName
    && WatchOk(c.watch, clock)
  }

  /** A history entry carries its key as its name and counts at least one call. */
  predicate EntryOk(shortName: string, h: HistoryEntry) {
    h.name == shortName && h.invokeTimes >= 1
  }

  predicate Consistent(e: Engine) {
    && (forall k :: k in e.keyCache ==> KeyCounterOk(k, e.keyCache[k], e.clock))
    && (forall k :: k in e.siteCache ==> SiteCounterOk(k, e.siteCache[k], e.clock))
    && (forall k :: k in e.history ==> EntryOk(k, e.history[k]))
  }
}
