/** `PerformanceHelper` and `PerformanceCounter`: the two counter caches and the
    history map, updated in place. Each method is proved to take the engine's
    abstract state exactly where the matching function of TimingModel does, so
    every property proved in TimingProperties holds of these objects. */
module Performance {
  import opened Text
  import opened TimingModel
  import opened History

  /** One timer. Its stopwatch is the three fields `running`, `bankedTicks`
      and `startedAt`, read against the clock value passed in. */
  class PerformanceCounter {
    const name: string
    const shortName: string
    const filePath: string
    const methodName: string
    const threadId: int
    /** Which cache the counter was created for, and the key it is cached
        under (no fields of the source). */
    ghost const byCustomKey: bool
    ghost const cacheKey: string
    var running: bool
    var bankedTicks: int
    var startedAt: nat
    var extraElapsedTicks: int

    ghost function View(): Counter
      reads this
    {
      Counter(name, shortName, filePath, methodName, threadId,
              Stopwatch(running, bankedTicks, startedAt), extraElapsedTicks)
    }

    /** `new PerformanceCounter(key)`: a running counter named after the key. */
    constructor ForKey(key: string, now: nat)
      ensures View() == KeyCounter(key, now) && byCustomKey && cacheKey == key
    {
      byCustomKey, cacheKey := true, key;
      name, shortName := key, key;
      filePath, methodName, threadId := "", "", 0;
      running, bankedTicks, startedAt := true, 0, now;
      extraElapsedTicks := 0;
    }

    /** `new PerformanceCounter(filePath, methodName, threadId)`. */
    constructor ForSite(filePath: string, methodName: string, threadId: int, now: nat)
      ensures View() == SiteCounter(filePath, methodName, threadId, now)
      ensures !byCustomKey && cacheKey == SiteKey(filePath, threadId)
    {
      byCustomKey, cacheKey := false, SiteKey(filePath, threadId);
      this.filePath, this.methodName, this.threadId := filePath, methodName, threadId;
      name := filePath + methodName + IntToString(threadId);
      shortName := filePath + methodName;
      running, bankedTicks, startedAt := true, 0, now;
      extraElapsedTicks := 0;
    }

    /** `IsRunning`: whether the stopwatch runs (the stopwatch is never null,
        every constructor creates it). A counter that is not running reads the
        same `LastElapsedTicks` whatever the clock says. */
    predicate IsRunning()
      reads this
      ensures IsRunning() <==> View().watch.running
      ensures !IsRunning() ==> forall t: nat :: LastElapsedTicks(t) == LastElapsedTicks(0)
    {
      running
    }

    /** `LastElapsedTicks`: the stopwatch's ticks at `now` plus the extra ticks. */
    function LastElapsedTicks(now: nat): (ticks: int)
      reads this
      ensures ticks == TimingModel.LastElapsedTicks(View(), now)
    {
      bankedTicks + (if running then now - startedAt else 0) + extraElapsedTicks
    }

    /** `ReStart`: `Stopwatch.Restart` resets the reading to zero and runs. */
    method ReStart(now: nat)
      modifies this
      ensures View() == Restarted(old(View()), now)
    {
      running, bankedTicks, startedAt := true, 0, now;
    }

    /** `Stop`: `Stopwatch.Stop` banks the current run; then `LastElapsedTicks`. */
    method Stop(now: nat) returns (ticks: int)
      modifies this
      ensures (View(), ticks) == CounterStop(old(View()), now)
    {
      if running {
        bankedTicks := bankedTicks + (now - startedAt);
        running := false;
      }
      ticks := LastElapsedTicks(now);
    }
  }

  /** A first call-site start, split where the methods below split it:
      `added` is the engine once the new counter is cached, and `e'` the
      engine once its extra ticks are set. */
  lemma StartAtSiteSplits(e: Engine, filePath: string, methodName: string, threadId: int, extraTicks: int,
                          added: Engine, e': Engine)
    requires SiteKey(filePath, threadId) !in e.siteCache
    requires added == e.(siteCache := e.siteCache[SiteKey(filePath, threadId) := SiteCounter(filePath, methodName, threadId, e.clock)])
    requires e' == added.(siteCache := added.siteCache[SiteKey(filePath, threadId) :=
               WithExtraTicks(added.siteCache[SiteKey(filePath, threadId)], extraTicks)])
    ensures e' == StartAtSite(e, filePath, methodName, threadId, extraTicks)
  {
  }

  /** A running call-site counter's stop, split where the methods below split
      it: `stopped` is the engine once the counter has stopped and returned
      `elapsed`, and `e'` the engine once that stop is reported. */
  lemma StopAtSiteSplits(e: Engine, filePath: string, methodName: string, threadId: int, extraTicks: int,
                         extra: int, extended: Engine, stopped: Engine, elapsed: int, e': Engine)
    requires SiteKey(filePath, threadId) in e.siteCache && e.siteCache[SiteKey(filePath, threadId)].watch.running
    requires extra == e.siteCache[SiteKey(filePath, threadId)].extraTicks + extraTicks
    requires extended == e.(siteCache := e.siteCache[SiteKey(filePath, threadId) :=
               WithExtraTicks(e.siteCache[SiteKey(filePath, threadId)], extra)])
    requires SiteKey(filePath, threadId) in stopped.siteCache
    requires (stopped.siteCache[SiteKey(filePath, threadId)], elapsed)
             == CounterStop(extended.siteCache[SiteKey(filePath, threadId)], extended.clock)
    requires stopped == extended.(siteCache := extended.siteCache[SiteKey(filePath, threadId) := stopped.siteCache[SiteKey(filePath, threadId)]])
    requires var c := stopped.siteCache[SiteKey(filePath, threadId)];
             e' == ReportStop(stopped, c, elapsed, SiteTimer(c.filePath, c.methodName))
    ensures e' == StopAtSite(e, filePath, methodName, threadId, extraTicks)
  {
  }

  /** The static class: the history, the call-site cache, the custom-key
      cache, the clock every stopwatch reads and the "Performance" log. */
  class PerformanceHelper {
    const frequencyMilliseconds: Positive
    var clock: nat
    var performanceCounterHistory: map<string, PerformanceCounterHistoryInfo>
    var performanceCounterCache: map<string, PerformanceCounter>
    var performanceCounterCacheByCustomKey: map<string, PerformanceCounter>
    var log: seq<LogEvent>

    /** How the objects are shared: each counter is cached under the key it was
        created for, in the cache it was created for (so no two keys and no two
        caches share a counter), and each history record is named after its
        short name. */
    ghost predicate Valid()
      reads this
    {
      && (forall k :: k in performanceCounterCacheByCustomKey ==>
            performanceCounterCacheByCustomKey[k].byCustomKey && performanceCounterCacheByCustomKey[k].cacheKey == k)
      && (forall k :: k in performanceCounterCache ==>
            !performanceCounterCache[k].byCustomKey && performanceCounterCache[k].cacheKey == k)
      && (forall k :: k in performanceCounterHistory ==> performanceCounterHistory[k].name == k)
    }

    ghost function KeyViews(): map<string, Counter>
      reads this`performanceCounterCacheByCustomKey, performanceCounterCacheByCustomKey.Values
    {
      map k | k in performanceCounterCacheByCustomKey :: performanceCounterCacheByCustomKey[k].View()
    }

    ghost function SiteViews(): map<string, Counter>
      reads this`performanceCounterCache, performanceCounterCache.Values
    {
      map k | k in performanceCounterCache :: performanceCounterCache[k].View()
    }

    ghost function HistoryViews(): map<string, HistoryEntry>
      reads this`performanceCounterHistory, performanceCounterHistory.Values
    {
      map k | k in performanceCounterHistory :: performanceCounterHistory[k].View()
    }

    /** The value-level engine these objects represent. */
    ghost function Model(): Engine
      reads this, performanceCounterCache.Values, performanceCounterCacheByCustomKey.Values,
            performanceCounterHistory.Values
    {
      Engine(clock, frequencyMilliseconds, SiteViews(), KeyViews(), HistoryViews(), log)
    }

    /** The counter a custom-key call may change: the one under `key`, if any. */
    ghost function KeyCounterFrame(key: string): set<object>
      reads this
    {
      if key in performanceCounterCacheByCustomKey then {performanceCounterCacheByCustomKey[key]} else {}
    }

    /** The static constructor: empty caches and history. */
    constructor (frequencyMilliseconds: Positive)
      ensures Valid() && Model() == Initial(frequencyMilliseconds)
    {
      this.frequencyMilliseconds := frequencyMilliseconds;
      clock := 0;
      performanceCounterHistory := map[];
      performanceCounterCache := map[];
      performanceCounterCacheByCustomKey := map[];
      log := [];
    }

    /** Time passing. */
    method AdvanceClock(ticks: nat)
      requires Valid()
      modifies this`clock
      ensures Valid() && Model() == Advance(old(Model()), ticks)
    {
      clock := clock + ticks;
      assert KeyViews() == old(KeyViews());
      assert SiteViews() == old(SiteViews());
      assert HistoryViews() == old(HistoryViews());
    }

    /** Appends a warning line; nothing else changes. */
    method WriteWarning(w: Warning, subject: string)
      requires Valid()
      modifies this`log
      ensures Valid() && Model() == old(Model()).(log := old(log) + [Warn(w, subject)])
    {
      log := log + [Warn(w, subject)];
      assert KeyViews() == old(KeyViews());
      assert SiteViews() == old(SiteViews());
      assert HistoryViews() == old(HistoryViews());
    }

    /** Appends the information line of a stop; nothing else changes. */
    method WriteInfo(timer: string, elapsedTicks: int, info: PerformanceCounterHistoryInfo)
      requires Valid()
      modifies this`log
      ensures Valid()
      ensures Model() == old(Model()).(log := old(log) + [Info(timer, CsDiv(elapsedTicks, frequencyMilliseconds),
                                                               info.numberOfInvokeTimes,
                                                               CsDiv(info.totalElapsedTicks, frequencyMilliseconds))])
    {
      log := log + [Info(timer, CsDiv(elapsedTicks, frequencyMilliseconds),
                         info.numberOfInvokeTimes, CsDiv(info.totalElapsedTicks, frequencyMilliseconds))];
      assert KeyViews() == old(KeyViews());
      assert SiteViews() == old(SiteViews());
      assert HistoryViews() == old(HistoryViews());
    }

    /** The history record a stop of a counter named `shortName` may change. */
    ghost function HistoryFrame(shortName: string): set<object>
      reads this
    {
      if shortName in performanceCounterHistory then {performanceCounterHistory[shortName]} else {}
    }

    /** Counts one more invocation in the existing record of `shortName`, in place. */
    method RecordInvocation(shortName: string, ticks: int) returns (info: PerformanceCounterHistoryInfo)
      requires Valid() && shortName in performanceCounterHistory
      modifies performanceCounterHistory[shortName]
      ensures Valid()
      ensures Model() == old(Model()).(history := AddHistory(old(Model()).history, shortName, ticks).0)
      ensures info.View() == AddHistory(old(Model()).history, shortName, ticks).1
    {
      info := performanceCounterHistory[shortName];
      info.numberOfInvokeTimes, info.totalElapsedTicks := info.numberOfInvokeTimes + 1, info.totalElapsedTicks + ticks;
      assert KeyViews() == old(KeyViews());
      assert SiteViews() == old(SiteViews());
      assert HistoryViews() == old(HistoryViews())[shortName := info.View()];
      assert info.View() == AddHistory(old(HistoryViews()), shortName, ticks).1;
    }

    /** Adds the first record of `shortName`. */
    method CreateHistoryInfo(shortName: string, ticks: int) returns (info: PerformanceCounterHistoryInfo)
      requires Valid() && shortName !in performanceCounterHistory
      modifies this`performanceCounterHistory
      ensures Valid()
      ensures Model() == old(Model()).(history := AddHistory(old(Model()).history, shortName, ticks).0)
      ensures info.View() == AddHistory(old(Model()).history, shortName, ticks).1
    {
      info := new PerformanceCounterHistoryInfo(shortName, ticks);
      performanceCounterHistory := performanceCounterHistory[shortName := info];
      assert HistoryViews() == old(HistoryViews())[shortName := info.View()];
      assert KeyViews() == old(KeyViews());
      assert SiteViews() == old(SiteViews());
    }

    /** `AddHistoryInfo(performanceCounter)`: counts one more invocation of the
        counter's short name and adds its last elapsed ticks to the total, in
        place when the record exists and in a new record otherwise; returns the
        record. */
    method AddHistoryInfo(counter: PerformanceCounter) returns (info: PerformanceCounterHistoryInfo)
      requires Valid()
      modifies this`performanceCounterHistory, HistoryFrame(counter.shortName)
      ensures Valid()
      ensures Model() == old(Model()).(history := AddHistory(old(Model()).history, counter.shortName,
                                                             counter.LastElapsedTicks(clock)).0)
      ensures info.View() == AddHistory(old(Model()).history, counter.shortName, counter.LastElapsedTicks(clock)).1
    {
      var shortName := counter.shortName;
      var ticks := counter.LastElapsedTicks(clock);
      if shortName in performanceCounterHistory {
        info := RecordInvocation(shortName, ticks);
      } else {
        info := CreateHistoryInfo(shortName, ticks);
      }
    }

    /** The end of a stop of `counter`, whose `Stop` returned `elapsed`:
        `AddHistoryInfo`, then the information line naming `timer`. */
    method Report(counter: PerformanceCounter, elapsed: int, timer: string)
      requires Valid()
      modifies this`performanceCounterHistory, this`log, HistoryFrame(counter.shortName)
      ensures Valid()
      ensures Model() == ReportStop(old(Model()), old(counter.View()), elapsed, timer)
    {
      var info := AddHistoryInfo(counter);
      WriteInfo(timer, elapsed, info);
    }

    // -------------------------------------------------------------------------
    // Custom-key counters

    /** Restarts the custom-key counter under `key` in place. */
    method RestartKeyCounter(key: string)
      requires Valid() && key in performanceCounterCacheByCustomKey
      modifies performanceCounterCacheByCustomKey[key]
      ensures Valid()
      ensures Model() == old(Model()).(keyCache := old(Model()).keyCache[key := Restarted(old(Model()).keyCache[key], clock)])
    {
      var c := performanceCounterCacheByCustomKey[key];
      c.ReStart(clock);
      assert KeyViews() == old(KeyViews())[key := c.View()];
      assert SiteViews() == old(SiteViews());
      assert HistoryViews() == old(HistoryViews());
    }

    /** Caches a new running custom-key counter under `key`. */
    method AddKeyCounter(key: string)
      requires Valid() && key !in performanceCounterCacheByCustomKey
      modifies this`performanceCounterCacheByCustomKey
      ensures Valid()
      ensures Model() == old(Model()).(keyCache := old(Model()).keyCache[key := KeyCounter(key, clock)])
    {
      var c := new PerformanceCounter.ForKey(key, clock);
      performanceCounterCacheByCustomKey := performanceCounterCacheByCustomKey[key := c];
      assert KeyViews() == old(KeyViews())[key := c.View()];
      assert SiteViews() == old(SiteViews());
      assert HistoryViews() == old(HistoryViews());
    }

    /** Stops the custom-key counter under `key` in place and returns what its
        `Stop` returned. */
    method StopKeyCounter(key: string) returns (elapsed: int)
      requires Valid() && key in performanceCounterCacheByCustomKey
      modifies performanceCounterCacheByCustomKey[key]
      ensures Valid()
      ensures (Model().keyCache[key], elapsed) == CounterStop(old(Model()).keyCache[key], clock)
      ensures Model() == old(Model()).(keyCache := old(Model()).keyCache[key := Model().keyCache[key]])
    {
      var c := performanceCounterCacheByCustomKey[key];
      elapsed := c.Stop(clock);
      assert KeyViews() == old(KeyViews())[key := c.View()];
      assert SiteViews() == old(SiteViews());
      assert HistoryViews() == old(HistoryViews());
    }

    /** `StartPerformance(key)`. */
    method StartPerformance(key: string)
      requires Valid()
      modifies this`performanceCounterCacheByCustomKey, this`log, KeyCounterFrame(key)
      ensures Valid() && Model() == StartByKey(old(Model()), key)
    {
      if key in performanceCounterCacheByCustomKey {
        if !performanceCounterCacheByCustomKey[key].IsRunning() {
          RestartKeyCounter(key);
        } else {
          WriteWarning(StartedTwice, key);
        }
      } else {
        AddKeyCounter(key);
      }
    }

    /** The objects a stop by `key` may change. */
    ghost function KeyStopFrame(key: string): set<object>
      reads this
    {
      if key in performanceCounterCacheByCustomKey then
        {performanceCounterCacheByCustomKey[key]} + HistoryFrame(performanceCounterCacheByCustomKey[key].shortName)
      else {}
    }

    /** `StopPerformance(key)`. */
    method StopPerformance(key: string)
      requires Valid()
      modifies this`performanceCounterHistory, this`log, KeyStopFrame(key)
      ensures Valid() && Model() == StopByKey(old(Model()), key)
    {
      if key in performanceCounterCacheByCustomKey {
        var c := performanceCounterCacheByCustomKey[key];
        if c.IsRunning() {
          var elapsed := StopKeyCounter(key);
          Report(c, elapsed, c.shortName);
        } else {
          WriteWarning(StoppedBeforeStart, key);
        }
      } else {
        WriteWarning(StoppedBeforeStart, key);
      }
    }

    // -------------------------------------------------------------------------
    // Call-site counters

    /** The counter a call-site call may change: the one under `name`, if any. */
    ghost function SiteCounterFrame(name: string): set<object>
      reads this
    {
      if name in performanceCounterCache then {performanceCounterCache[name]} else {}
    }

    /** Restarts the call-site counter under `name` in place, then sets its
        extra ticks. */
    method RestartSiteCounter(name: string, extraTicks: int)
      requires Valid() && name in performanceCounterCache
      modifies performanceCounterCache[name]
      ensures Valid()
      ensures Model() == old(Model()).(siteCache := old(Model()).siteCache[
                name := WithExtraTicks(Restarted(old(Model()).siteCache[name], clock), extraTicks)])
    {
      var c := performanceCounterCache[name];
      c.ReStart(clock);
      c.extraElapsedTicks := extraTicks;
      assert SiteViews() == old(SiteViews())[name := c.View()];
      assert KeyViews() == old(KeyViews());
      assert HistoryViews() == old(HistoryViews());
    }

    /** Caches a new running call-site counter. */
    method AddSiteCounter(filePath: string, methodName: string, threadId: int)
      requires Valid() && SiteKey(filePath, threadId) !in performanceCounterCache
      modifies this`performanceCounterCache
      ensures Valid()
      ensures SiteKey(filePath, threadId) in performanceCounterCache
      ensures fresh(performanceCounterCache[SiteKey(filePath, threadId)])
      ensures Model() == old(Model()).(siteCache := old(Model()).siteCache[
                SiteKey(filePath, threadId) := SiteCounter(filePath, methodName, threadId, clock)])
    {
      var name := SiteKey(filePath, threadId);
      var c := new PerformanceCounter.ForSite(filePath, methodName, threadId, clock);
      performanceCounterCache := performanceCounterCache[name := c];
      assert SiteViews() == old(SiteViews())[name := c.View()];
      assert KeyViews() == old(KeyViews());
      assert HistoryViews() == old(HistoryViews());
    }

    /** Sets the extra ticks of the call-site counter under `name` in place. */
    method SetExtraElapsedTicks(name: string, extraTicks: int)
      requires Valid() && name in performanceCounterCache
      modifies performanceCounterCache[name]
      ensures Valid()
      ensures Model() == old(Model()).(siteCache := old(Model()).siteCache[
                name := WithExtraTicks(old(Model()).siteCache[name], extraTicks)])
    {
      var c := performanceCounterCache[name];
      c.extraElapsedTicks := extraTicks;
      assert SiteViews() == old(SiteViews())[name := c.View()];
      assert KeyViews() == old(KeyViews());
      assert HistoryViews() == old(HistoryViews());
    }

    /** Stops the call-site counter under `name` in place and returns what its
        `Stop` returned. */
    method StopSiteCounter(name: string) returns (elapsed: int)
      requires Valid() && name in performanceCounterCache
      modifies performanceCounterCache[name]
      ensures Valid()
      ensures (Model().siteCache[name], elapsed) == CounterStop(old(Model()).siteCache[name], clock)
      ensures Model() == old(Model()).(siteCache := old(Model()).siteCache[name := Model().siteCache[name]])
    {
      var c := performanceCounterCache[name];
      elapsed := c.Stop(clock);
      assert SiteViews() == old(SiteViews())[name := c.View()];
      assert KeyViews() == old(KeyViews());
      assert HistoryViews() == old(HistoryViews());
    }

    /** `StartPerformance(filePath, methodName, extraElapsedTicks)` called on
        the thread `threadId`. */
    method StartPerformanceAtSite(filePath: string, methodName: string, threadId: int, extraElapsedTicks: int)
      requires Valid()
      modifies this`performanceCounterCache, this`log, SiteCounterFrame(SiteKey(filePath, threadId))
      ensures Valid() && Model() == StartAtSite(old(Model()), filePath, methodName, threadId, extraElapsedTicks)
    {
      var name := SiteKey(filePath, threadId);
      if name in performanceCounterCache {
        if !performanceCounterCache[name].IsRunning() {
          RestartSiteCounter(name, extraElapsedTicks);
        } else {
          WriteWarning(StartedTwice, performanceCounterCache[name].shortName);
        }
      } else {
        ghost var e0 := Model();
        AddSiteCounter(filePath, methodName, threadId);
        ghost var e1 := Model();
        SetExtraElapsedTicks(name, extraElapsedTicks);
        StartAtSiteSplits(e0, filePath, methodName, threadId, extraElapsedTicks, e1, Model());
      }
    }

    /** The objects a stop at the call site keyed `name` may change. */
    ghost function SiteStopFrame(name: string): set<object>
      reads this
    {
      if name in performanceCounterCache then
        {performanceCounterCache[name]} + HistoryFrame(performanceCounterCache[name].shortName)
      else {}
    }

    /** The stop of the running call-site counter: `StopSiteCounter`, then `Report`. */
    method StopRunningSiteCounter(filePath: string, methodName: string, threadId: int, extraElapsedTicks: int)
      requires Valid()
      requires SiteKey(filePath, threadId) in performanceCounterCache
      requires performanceCounterCache[SiteKey(filePath, threadId)].running
      modifies this`performanceCounterHistory, this`log, SiteStopFrame(SiteKey(filePath, threadId))
      ensures Valid() && Model() == StopAtSite(old(Model()), filePath, methodName, threadId, extraElapsedTicks)
    {
      var name := SiteKey(filePath, threadId);
      var c := performanceCounterCache[name];
      ghost var e0 := Model();
      var extra := c.extraElapsedTicks + extraElapsedTicks;
      SetExtraElapsedTicks(name, extra);
      ghost var e1 := Model();
      var elapsed := StopSiteCounter(name);
      ghost var e2 := Model();
      ghost var v := c.View();
      assert v == e2.siteCache[name] && v.filePath == c.filePath && v.methodName == c.methodName;
      Report(c, elapsed, SiteTimer(c.filePath, c.methodName));
      StopAtSiteSplits(e0, filePath, methodName, threadId, extraElapsedTicks, extra, e1, e2, elapsed, Model());
    }

    /** `StopPerformance(filePath, methodName, extraElapsedTicks)` called on
        the thread `threadId`. */
    method StopPerformanceAtSite(filePath: string, methodName: string, threadId: int, extraElapsedTicks: int)
      requires Valid()
      modifies this`performanceCounterHistory, this`log, SiteStopFrame(SiteKey(filePath, threadId))
      ensures Valid() && Model() == StopAtSite(old(Model()), filePath, methodName, threadId, extraElapsedTicks)
    {
      var name := SiteKey(filePath, threadId);
      if name in performanceCounterCache {
        if performanceCounterCache[name].IsRunning() {
          StopRunningSiteCounter(filePath, methodName, threadId, extraElapsedTicks);
        } else {
          WriteWarning(StoppedBeforeStart, name);
        }
      } else {
        WriteWarning(StoppedBeforeStart, name);
      }
    }
  }
}
