# Performance timing in the log4net wrapper, in Dafny

This project models the performance-timing engine of the `Qinjin.Library.Log.log4net.Wrap`
library:

- the public `Log.PerformanceStart` / `Log.PerformanceStop` overloads;
- `PerformanceHelper`, which forwards them to one of two caches of live `PerformanceCounter`s:
  - one cache is keyed by a caller-supplied key;
  - the other is keyed by a string built from the call site and the calling thread;
- `PerformanceCounterHistoryInfo`, the record of one short name in the shared history. Every
  successful stop folds its ticks into this history.

The model has two layers:

- `TimingModel` (timing_model.dfy) describes the engine as values.
  - `Engine` holds the clock, the ticks per millisecond, both caches, the history map and the
    log written so far.
  - Each of the four start and stop operations is a function from the old engine to the new
    one: `StartByKey`, `StartAtSite`, `StopByKey` and `StopAtSite`. `AddHistory` acts on the
    history map alone, and `CounterStop` on one counter.
  - `Run` folds a sequence of operations. `Measurements` lists what the successful stops of a
    run returned.
  - `TimingProperties` (timing_properties.dfy) proves what the engine promises about these
    functions.
- `Performance`, `History` and `Log` are the imperative classes and methods, in the source's
  own form.
  - `PerformanceHelper` keeps its caches as `map`s of `PerformanceCounter` objects. Its history
    is a `map` of `PerformanceCounterHistoryInfo` objects, which are updated in place.
  - Its ghost `Model()` reads the engine off these objects.
  - Every method is proved to move `Model()` exactly as the matching function does. Every
    property proved about the functions therefore holds of the objects.
- `Log` (log_performance.dfy) also replays sequences of public calls as values. It proves the
  properties that a caller of the public overloads sees.

The call-site cache key is modelled as the code builds it: the file path twice, then the thread
id (`SiteKey`; PerformanceHelper.cs:66 and :130). The counter's own documentation names one call
by file name, method name and thread id (PerformanceHelper.cs:195), but the cache key leaves
the method name out. Two methods of one file therefore share a counter on the same thread, and
`SiteKeyIgnoresMethodName` proves what happens then.

## Model

| member | source | states |
|---|---|---|
| TimingModel.CsDiv | Src/Library/Log/log4net.Wrap/log4net.Wrap/PerformanceHelper.cs:107 | The logged milliseconds are the ticks divided by `FrequencyMilliseconds` with C#'s truncating `long` division. For non-negative ticks the quotient `q` satisfies `q*f <= a < q*f + f`; for negative ticks it is rounded toward zero. |
| TimingModel.RunningFrom | Src/Library/Log/log4net.Wrap/log4net.Wrap/PerformanceHelper.cs:248-252 | A newly started stopwatch is running, reads 0 ticks at its start and `t - now` ticks at any later time `t`. |
| TimingModel.Halted | Src/Library/Log/log4net.Wrap/log4net.Wrap/PerformanceHelper.cs:285 | After `Stopwatch.Stop` the watch is not running and reads, at every later time, what it read when stopped. |
| TimingModel.CounterStop | Src/Library/Log/log4net.Wrap/log4net.Wrap/PerformanceHelper.cs:222-228 | `PerformanceCounter.Stop` leaves the counter stopped and changes only its stopwatch. It returns stopwatch ticks plus `ExtraElapsedTicks`. `LastElapsedTicks` keeps returning that same value at every later time. |
| TimingModel.AddHistory | Src/Library/Log/log4net.Wrap/log4net.Wrap/PerformanceHelper.cs:159-181 | The short name is added to the keys. Its entry counts one more invocation and has the ticks added to its total; a new entry has count 1 and the given ticks. The returned entry is the updated one, its name is kept, and every other key is untouched. |
| TimingModel.SiteKey | Src/Library/Log/log4net.Wrap/log4net.Wrap/PerformanceHelper.cs:66 | The call-site cache key starts with the file path written twice and is strictly longer than that prefix (the thread id's text follows; `ThreadsSeparateSiteKeys` proves distinct threads get distinct keys). The method name is not an argument, so it cannot influence the key. |
| TimingModel.KeyCounter | Src/Library/Log/log4net.Wrap/log4net.Wrap/PerformanceHelper.cs:248-259 | A new custom-key counter satisfies the key-cache invariant for its key (name and short name are the key, no site, no extra ticks) and runs from `now`, reading 0. |
| TimingModel.SiteCounter | Src/Library/Log/log4net.Wrap/log4net.Wrap/PerformanceHelper.cs:248-269 | A new call-site counter keeps its file, method and thread, satisfies the site-cache invariant under `SiteKey(filePath, threadId)`, and runs from `now` with no extra ticks, reading 0. |
| TimingModel.StartByKey | Src/Library/Log/log4net.Wrap/log4net.Wrap/PerformanceHelper.cs:37-56 | After a start by key the key's counter exists and runs; the call-site cache, the history and the clock are unchanged, and the log gains at most one line. Each branch in full: `StartByKeyCreates`, `StartByKeyRestarts`, `DuplicateKeyStartOnlyWarns`. |
| TimingModel.StartAtSite | Src/Library/Log/log4net.Wrap/log4net.Wrap/PerformanceHelper.cs:64-88 | After a call-site start the counter under the site key exists and runs; the key cache, the history and the clock are unchanged, and the log gains at most one line. Each branch in full: `StartAtSiteCreates`, `StartAtSiteRestarts`, `DuplicateSiteStartOnlyWarns`. |
| TimingModel.StopByKey | Src/Library/Log/log4net.Wrap/log4net.Wrap/PerformanceHelper.cs:94-120 | A stop by key neither adds nor removes the key's counter and leaves it stopped if present; the call-site cache and the clock are unchanged, and the log gains exactly one line (the info line or the warning). |
| TimingModel.StopAtSite | Src/Library/Log/log4net.Wrap/log4net.Wrap/PerformanceHelper.cs:128-157 | A call-site stop neither adds nor removes the site key's counter and leaves it stopped if present; the key cache and the clock are unchanged, and the log gains exactly one line. |
| Performance.PerformanceCounter.IsRunning | Src/Library/Log/log4net.Wrap/log4net.Wrap/PerformanceHelper.cs:235-246 | True exactly when the counter's stopwatch runs (the stopwatch is never null); a counter that is not running reads the same `LastElapsedTicks` at every clock value. |
| Performance.PerformanceCounter.ForKey | Src/Library/Log/log4net.Wrap/log4net.Wrap/PerformanceHelper.cs:248-259 | A custom-key counter is created running with 0 ticks and 0 extra ticks. Its `Name` and `ShortName` are both the key. |
| Performance.PerformanceCounter.ForSite | Src/Library/Log/log4net.Wrap/log4net.Wrap/PerformanceHelper.cs:248-269 | A call-site counter is created running with 0 ticks. `Name` is file + method + thread id, `ShortName` is file + method, and the three site fields are stored. |
| Performance.PerformanceCounter.LastElapsedTicks | Src/Library/Log/log4net.Wrap/log4net.Wrap/PerformanceHelper.cs:222-228 | The stopwatch's ticks at `now` plus the extra ticks, as `TimingModel.LastElapsedTicks` of the counter's state. |
| Performance.PerformanceCounter.ReStart | Src/Library/Log/log4net.Wrap/log4net.Wrap/PerformanceHelper.cs:274-277 | `Restart` resets the stopwatch to 0 and runs it. Names, site and extra ticks are unchanged. |
| Performance.PerformanceCounter.Stop | Src/Library/Log/log4net.Wrap/log4net.Wrap/PerformanceHelper.cs:283-287 | The counter's new state and the returned ticks are exactly `CounterStop` of its old state. |
| Performance.PerformanceHelper.constructor | Src/Library/Log/log4net.Wrap/log4net.Wrap/PerformanceHelper.cs:24-31 | The static constructor leaves both caches, the history and the log empty. |
| Performance.PerformanceHelper.AddHistoryInfo | Src/Library/Log/log4net.Wrap/log4net.Wrap/PerformanceHelper.cs:159-181 | The history objects move as `AddHistory` with the counter's short name and `LastElapsedTicks`, and nothing else changes. The returned record is the updated entry. |
| Performance.PerformanceHelper.StartPerformance | Src/Library/Log/log4net.Wrap/log4net.Wrap/PerformanceHelper.cs:37-56 | The helper's state after a start by key is `StartByKey` of its state before. |
| Performance.PerformanceHelper.StopPerformance | Src/Library/Log/log4net.Wrap/log4net.Wrap/PerformanceHelper.cs:94-120 | The helper's state after a stop by key is `StopByKey` of its state before. |
| Performance.PerformanceHelper.StartPerformanceAtSite | Src/Library/Log/log4net.Wrap/log4net.Wrap/PerformanceHelper.cs:64-88 | The helper's state after a call-site start is `StartAtSite` of its state before. |
| Performance.PerformanceHelper.StopPerformanceAtSite | Src/Library/Log/log4net.Wrap/log4net.Wrap/PerformanceHelper.cs:128-157 | The helper's state after a call-site stop is `StopAtSite` of its state before. |
| History.PerformanceCounterHistoryInfo.constructor | Src/Library/Log/log4net.Wrap/log4net.Wrap/PerformanceCounterHistoryInfo.cs:24-29 | A new record carries the given name, count 1 and total equal to the given ticks. The name is a `const`, so it never changes. |
| TimingProperties.StartByKeyCreates | Src/Library/Log/log4net.Wrap/log4net.Wrap/PerformanceHelper.cs:52-55 | Starting an absent key inserts a running counter with 0 ticks whose name and short name are the key. Nothing else changes, and no line is logged. |
| TimingProperties.StartAtSiteCreates | Src/Library/Log/log4net.Wrap/log4net.Wrap/PerformanceHelper.cs:83-87 | Starting an absent site inserts, under the file-file-thread key, a running counter with 0 stopwatch ticks and the given extra ticks. Its name is file + method + thread and its short name is file + method. Nothing else changes. |
| TimingProperties.StartByKeyRestarts | Src/Library/Log/log4net.Wrap/log4net.Wrap/PerformanceHelper.cs:41-45 | Starting a stopped key restarts its counter in place: the keys stay the same, the counter keeps its names and extra ticks and only its stopwatch changes, to one running and reading 0. Every other counter, the other cache, the history, the clock and the log are unchanged. |
| TimingProperties.StartAtSiteRestarts | Src/Library/Log/log4net.Wrap/log4net.Wrap/PerformanceHelper.cs:70-75 | Starting a stopped site restarts its counter in place and gives it exactly the new extra ticks: the keys stay the same and names and site are kept. Its stopwatch runs and reads 0, and every other counter, the other cache, the history, the clock and the log are unchanged. |
| TimingProperties.KeyTimerMeasuresLastInterval | Src/Library/Log/log4net.Wrap/log4net.Wrap/PerformanceHelper.cs:39-45 | A created or restarted key counter stopped `d` ticks later measures exactly `d`: the restart forgets the earlier run. The start logs nothing. |
| TimingProperties.SiteTimerMeasuresLastInterval | Src/Library/Log/log4net.Wrap/log4net.Wrap/PerformanceHelper.cs:68-75 | A created or restarted site counter stopped `d` ticks later measures `d` plus the start's and the stop's extra ticks. It is booked under its own short name. |
| TimingProperties.DuplicateKeyStartOnlyWarns | Src/Library/Log/log4net.Wrap/log4net.Wrap/PerformanceHelper.cs:46-50 | Starting a running key counter appends one warning naming the key and changes nothing else. The next stop measures from the first start. |
| TimingProperties.DuplicateSiteStartOnlyWarns | Src/Library/Log/log4net.Wrap/log4net.Wrap/PerformanceHelper.cs:76-81 | Starting a running site counter appends one warning naming its short name and changes nothing else. The next stop measures from the first start. |
| TimingProperties.SiteKeyIgnoresMethodName | Src/Library/Log/log4net.Wrap/log4net.Wrap/PerformanceHelper.cs:64-88 | A second method of the same file on the same thread finds the first method's running counter. It is warned under the first method's short name, and its stop is booked there. |
| TimingProperties.ThreadsSeparateSiteKeys | Src/Library/Log/log4net.Wrap/log4net.Wrap/PerformanceHelper.cs:66 | The same file on two different threads gives two different site keys. |
| TimingProperties.ShortNamesCanCollide | Src/Library/Log/log4net.Wrap/log4net.Wrap/PerformanceHelper.cs:268 | File and method are joined without a separator. Two sites with different file paths can therefore share one short name, and so one history entry. |
| TimingProperties.StopByKeyWithoutStartWarns | Src/Library/Log/log4net.Wrap/log4net.Wrap/PerformanceHelper.cs:111-119 | Stopping an absent or stopped key appends one warning naming the key and changes nothing else. It measures nothing. |
| TimingProperties.StopAtSiteWithoutStartWarns | Src/Library/Log/log4net.Wrap/log4net.Wrap/PerformanceHelper.cs:148-156 | Stopping an absent or stopped site appends one warning naming the site key and changes nothing else. It measures nothing. |
| TimingProperties.StopByKeyRecords | Src/Library/Log/log4net.Wrap/log4net.Wrap/PerformanceHelper.cs:98-109 | Stopping a running key counter leaves it stopped, reading watch ticks + extra ticks forever after. The same value goes into its short name's history, and other counters are unchanged. The info line carries that value, the new count and the new total, in milliseconds. |
| TimingProperties.StopAtSiteRecords | Src/Library/Log/log4net.Wrap/log4net.Wrap/PerformanceHelper.cs:134-146 | A site stop first adds the stop's extra ticks to the counter, then does as a key stop. The info line names file and method separated by a space. |
| TimingProperties.StepFoldsMeasurement | Src/Library/Log/log4net.Wrap/log4net.Wrap/PerformanceHelper.cs:94-181 | Every operation changes the history exactly by `AddHistory` of what it measured, and not at all when it measured nothing. |
| TimingProperties.StepKeepsEntries | Src/Library/Log/log4net.Wrap/log4net.Wrap/PerformanceHelper.cs:16-20 | No operation removes a cached counter, a history entry or a logged line, and the clock never goes back. |
| TimingProperties.RunKeepsEntries | Src/Library/Log/log4net.Wrap/log4net.Wrap/PerformanceHelper.cs:16-20 | The same over any sequence of operations. |
| TimingProperties.StartByKeyPreservesConsistent | Src/Library/Log/log4net.Wrap/log4net.Wrap/PerformanceHelper.cs:37-56 | A start by key keeps the engine's invariant. Key counters are named after their key with no extra ticks; site counters sit under their own site key; history entries are named after their key with a count of at least 1. |
| TimingProperties.StopByKeyPreservesConsistent | Src/Library/Log/log4net.Wrap/log4net.Wrap/PerformanceHelper.cs:94-120 | A stop by key keeps the invariant. |
| TimingProperties.StartAtSitePreservesConsistent | Src/Library/Log/log4net.Wrap/log4net.Wrap/PerformanceHelper.cs:64-88 | A call-site start keeps the invariant. |
| TimingProperties.StopAtSitePreservesConsistent | Src/Library/Log/log4net.Wrap/log4net.Wrap/PerformanceHelper.cs:128-157 | A call-site stop keeps the invariant. |
| TimingProperties.StepPreservesConsistent | Src/Library/Log/log4net.Wrap/log4net.Wrap/PerformanceHelper.cs:37-181 | Every operation keeps the invariant. |
| TimingProperties.RunPreservesConsistent | Src/Library/Log/log4net.Wrap/log4net.Wrap/PerformanceHelper.cs:37-181 | Any sequence of operations keeps the invariant. |
| TimingProperties.InitialIsConsistent | Src/Library/Log/log4net.Wrap/log4net.Wrap/PerformanceHelper.cs:24-31 | The engine after the static constructor satisfies the invariant. |
| TimingProperties.HistoryCountsStops | Src/Library/Log/log4net.Wrap/log4net.Wrap/PerformanceHelper.cs:94-181 | Over any run, a short name's count grows by the number of successful stops with that short name. Its total grows by the sum of the ticks those stops returned, from both cache paths. |
| TimingProperties.HistoryFromStart | Src/Library/Log/log4net.Wrap/log4net.Wrap/PerformanceCounterHistoryInfo.cs:16-28 | From the initial engine, a short name has a history entry iff some stop measured it. Its count is the number of such stops and its total the sum of their ticks. |
| TimingProperties.StepKeepsExtrasNonNegative | Src/Library/Log/log4net.Wrap/log4net.Wrap/PerformanceHelper.cs:68-136 | If no negative extra ticks are passed, no call-site counter ever has negative extra ticks. |
| TimingProperties.TotalsNeverDecrease | Src/Library/Log/log4net.Wrap/log4net.Wrap/PerformanceCounterHistoryInfo.cs:21 | If no negative extra ticks are passed, every measurement is non-negative. No history entry disappears and no total decreases. |
| Log.PerformanceStart | Src/Library/Log/log4net.Wrap/log4net.Wrap/LogPerformancePartial.cs:13-19 | With a usable key, the helper moves as `StartByKey` of the key's text; otherwise its state is unchanged. |
| Log.PerformanceStop | Src/Library/Log/log4net.Wrap/log4net.Wrap/LogPerformancePartial.cs:34-40 | With a usable key, the helper moves as `StopByKey` of the key's text; otherwise its state is unchanged. |
| Log.PerformanceStartAtSite | Src/Library/Log/log4net.Wrap/log4net.Wrap/LogPerformancePartial.cs:25-28 | The helper moves as `StartAtSite` with the caller's file, member and thread, and 0 extra ticks. |
| Log.PerformanceStopAtSite | Src/Library/Log/log4net.Wrap/log4net.Wrap/LogPerformancePartial.cs:46-49 | The helper moves as `StopAtSite` with the caller's file, member and thread, and 0 extra ticks. |
| Log.IsUsableKey | Src/Library/Log/log4net.Wrap/log4net.Wrap/LogPerformancePartial.cs:15 | A key is usable exactly when the text the guarded overloads would forward is not empty, so a null key (forwarding nothing) and a key whose `ToString()` is empty are both refused. |
| Log.Forwarded | Src/Library/Log/log4net.Wrap/log4net.Wrap/LogPerformancePartial.cs:25-49 | Every operation a public call forwards has non-negative extra ticks. |
| Log.UnusableKeyDoesNothing | Src/Library/Log/log4net.Wrap/log4net.Wrap/LogPerformancePartial.cs:13-40 | With a null key, or one whose text is empty, both key overloads leave the engine exactly as it was: no counter, no history and no log line. |
| Log.CallsForwardTheirArguments | Src/Library/Log/log4net.Wrap/log4net.Wrap/LogPerformancePartial.cs:13-49 | A usable key reaches the key path as its text, for start and for stop. The call-site overloads pass file, member and thread unchanged, with 0 extra ticks. |
| Log.StartThenStopRecordsOnce | Src/Library/Log/log4net.Wrap/log4net.Wrap/LogPerformancePartial.cs:13-40 | On a fresh engine, a start and a stop with a usable key `d` ticks apart leave one history entry: count 1 and total `d`. They log exactly one info line with those figures. |
| Log.InitialSatisfiesInvariant | Src/Library/Log/log4net.Wrap/log4net.Wrap/PerformanceHelper.cs:24-31 | The initial engine satisfies the invariant and has no negative extra ticks. |
| Log.CallKeepsTotals | Src/Library/Log/log4net.Wrap/log4net.Wrap/LogPerformancePartial.cs:13-49 | One public call keeps the invariant and the extra ticks non-negative. No history entry disappears and no total decreases. |
| Log.ReplayKeepsInvariant | Src/Library/Log/log4net.Wrap/log4net.Wrap/LogPerformancePartial.cs:13-49 | Any sequence of public calls keeps the invariant and the extra ticks non-negative. |
| Log.TotalsNeverDecreaseThroughLog | Src/Library/Log/log4net.Wrap/log4net.Wrap/PerformanceCounterHistoryInfo.cs:21 | Through the public calls, however many calls follow, every history entry stays and its total never decreases. |

## Left out

- Log.cs, the rest of the facade, is not part of this model: configuration loading through the file system and `XmlConfigurator`, the logger cache over `LogManager`, and the stack walk that finds the calling type. All of them are I/O or reflection.
- The "Performance" logger is an appended sequence of `Warn` and `Info` events. The message text and its format strings are not modelled, only the figures each line carries.
- `Stopwatch` is modelled by three fields: running, banked ticks and the start reading. They are read against an explicit clock that only `AdvanceClock` / `Wait` moves. The hardware timer is not modelled.
- `FrequencyMilliseconds` is a positive parameter of the helper's constructor. The floating-point `Math.Round(Stopwatch.Frequency / 1000d)` that computes it is not modelled.
- `Thread.CurrentThread.ManagedThreadId` is a parameter of the call-site operations. The compiler-filled `[CallerFilePath]` and `[CallerMemberName]` arguments are ordinary parameters.
- The `object key` of the public overloads is `Option<string>`: `None` for null, otherwise the text its `ToString()` returns. Arbitrary `ToString` implementations are not modelled.
- A custom-key counter's `FilePath` and `MethodName` (null in the code) are "" here, and its `ThreadId` is 0.
- The `lock` around the history update and the unsynchronised dictionaries are not modelled: every operation runs to completion in sequence. Races between threads on a brand-new key are therefore not covered.
- `long` and `int` are unbounded integers. Overflow of tick totals, of the invocation count and of the extra-ticks sum is not modelled.
- TimingProperties.TotalsNeverDecrease: the totals are proved non-decreasing only when every extra-ticks argument is non-negative. The internal overloads accept negative extra ticks, and those can lower a total.
- C# overload binding is not modelled. An argument whose static type is `string` (and a literal `null`) binds to the `[CallerFilePath] string filePath` overload rather than to `object key`, because the identity conversion is better. `Log.PerformanceStart("job")` therefore takes the call-site path with file path "job" and the caller's member name. `StartByObject` / `StopByObject` model only calls whose argument's static type is not `string`.
- The copy of LogPerformancePartial.cs in the NET4 project is not part of this model.
