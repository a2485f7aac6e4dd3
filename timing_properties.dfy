/** What the timing engine promises, proved about the functions of TimingModel:
    the state machine of one counter, the warning paths that change nothing but
    the log, the cache-key quirk, and the history map as exact sums over the
    successful stops of any run. */
module TimingProperties {
  import opened Wrappers
  import opened Text
  import opened TimingModel

  // ---------------------------------------------------------------------------
  // Starting a timer

  /** Starting an absent custom key inserts a running counter named after the
      key, reading zero ticks, and touches nothing else. */
  lemma StartByKeyCreates(e: Engine, key: string)
    requires key !in e.keyCache
    ensures var e' := StartByKey(e, key);
      && e'.keyCache.Keys == e.keyCache.Keys + {key}
      && e'.keyCache[key].name == key && e'.keyCache[key].shortName == key
      && e'.keyCache[key].watch.running && LastElapsedTicks(e'.keyCache[key], e.clock) == 0
      && e'.keyCache[key].extraTicks == 0
      && (forall k :: k in e.keyCache ==> e'.keyCache[k] == e.keyCache[k])
      && e' == e.(keyCache := e'.keyCache)
  {
  }

  /** Starting an absent call site inserts, under the file-file-thread key, a
      running counter named file + method + thread with short name
      file + method, reading zero stopwatch ticks and carrying the extra ticks. */
  lemma StartAtSiteCreates(e: Engine, filePath: string, methodName: string, threadId: int, extraTicks: int)
    requires SiteKey(filePath, threadId) !in e.siteCache
    ensures var e' := StartAtSite(e, filePath, methodName, threadId, extraTicks);
      var name := SiteKey(filePath, threadId);
      && e'.siteCache.Keys == e.siteCache.Keys + {name}
      && e'.siteCache[name].name == filePath + methodName + IntToString(threadId)
      && e'.siteCache[name].shortName == filePath + methodName
      && e'.siteCache[name].watch.running && WatchTicks(e'.siteCache[name].watch, e.clock) == 0
      && e'.siteCache[name].extraTicks == extraTicks
      && (forall k :: k in e.siteCache ==> e'.siteCache[k] == e.siteCache[k])
      && e' == e.(siteCache := e'.siteCache)
  {
  }

  /** Starting a stopped custom key restarts its counter in place: the
      stopwatch runs again from zero, the names and the extra ticks are kept,
      and no other counter, no history entry and no log line changes. */
  lemma StartByKeyRestarts(e: Engine, key: string)
    requires key in e.keyCache && !e.keyCache[key].watch.running
    ensures var e' := StartByKey(e, key);
      && e'.keyCache.Keys == e.keyCache.Keys
      && e'.keyCache[key] == e.keyCache[key].(watch := e'.keyCache[key].watch)
      && e'.keyCache[key].watch.running && WatchTicks(e'.keyCache[key].watch, e.clock) == 0
      && (forall k :: k in e.keyCache && k != key ==> e'.keyCache[k] == e.keyCache[k])
      && e' == e.(keyCache := e'.keyCache)
  {
  }

  /** Starting a stopped call site restarts its counter in place and sets its
      extra ticks to the new amount: the names and the site are kept, and no
      other counter, no history entry and no log line changes. */
  lemma StartAtSiteRestarts(e: Engine, filePath: string, methodName: string, threadId: int, extraTicks: int)
    requires var name := SiteKey(filePath, threadId);
      name in e.siteCache && !e.siteCache[name].watch.running
    ensures var e' := StartAtSite(e, filePath, methodName, threadId, extraTicks);
      var name := SiteKey(filePath, threadId);
      && e'.siteCache.Keys == e.siteCache.Keys
      && e'.siteCache[name] == e.siteCache[name].(watch := e'.siteCache[name].watch, extraTicks := extraTicks)
      && e'.siteCache[name].watch.running && WatchTicks(e'.siteCache[name].watch, e.clock) == 0
      && (forall k :: k in e.siteCache && k != name ==> e'.siteCache[k] == e.siteCache[k])
      && e' == e.(siteCache := e'.siteCache)
  {
  }

  /** Created or restarted, a custom-key timer stopped `d` ticks later measures
      exactly `d`: a restart forgets the earlier interval. The start writes no line. */
  lemma KeyTimerMeasuresLastInterval(e: Engine, key: string, d: nat)
    requires Consistent(e)
    requires key !in e.keyCache || !e.keyCache[key].watch.running
    ensures StartByKey(e, key).log == e.log
    ensures Measured(Advance(StartByKey(e, key), d), StopKey(key)) == Some(Measurement(key, d))
  {
  }

  /** Created or restarted, a call-site timer measures the ticks since the start
      plus the extra ticks given to the start and to the stop. */
  lemma SiteTimerMeasuresLastInterval(e: Engine, filePath: string, methodName: string, threadId: int,
                                      startExtra: int, stopExtra: int, d: nat)
    requires var name := SiteKey(filePath, threadId);
      name !in e.siteCache || !e.siteCache[name].watch.running
    ensures StartAtSite(e, filePath, methodName, threadId, startExtra).log == e.log
    ensures var name := SiteKey(filePath, threadId);
      var shortName := if name in e.siteCache then e.siteCache[name].shortName else filePath + methodName;
      Measured(Advance(StartAtSite(e, filePath, methodName, threadId, startExtra), d),
               StopSite(filePath, methodName, threadId, stopExtra))
      == Some(Measurement(shortName, d + startExtra + stopExtra))
  {
  }

  /** A second start of a running custom-key timer writes one warning and
      changes nothing else, so the eventual stop measures from the first start. */
  lemma DuplicateKeyStartOnlyWarns(e: Engine, key: string, d: nat)
    requires key in e.keyCache && e.keyCache[key].watch.running
    ensures StartByKey(e, key) == e.(log := e.log + [Warn(StartedTwice, key)])
    ensures Measured(Advance(StartByKey(e, key), d), StopKey(key)) == Measured(Advance(e, d), StopKey(key))
  {
  }

  /** The same for a call site; the warning names the running counter's short name. */
  lemma DuplicateSiteStartOnlyWarns(e: Engine, filePath: string, methodName: string, threadId: int,
                                    extraTicks: int, stopExtra: int, d: nat)
    requires var name := SiteKey(filePath, threadId);
      name in e.siteCache && e.siteCache[name].watch.running
    ensures StartAtSite(e, filePath, methodName, threadId, extraTicks)
         == e.(log := e.log + [Warn(StartedTwice, e.siteCache[SiteKey(filePath, threadId)].shortName)])
    ensures var stop := StopSite(filePath, methodName, threadId, stopExtra);
      Measured(Advance(StartAtSite(e, filePath, methodName, threadId, extraTicks), d), stop)
      == Measured(Advance(e, d), stop)
  {
  }

  // ---------------------------------------------------------------------------
  // The call-site key

  /** The method name is not part of the site key: a second method of the same
      file on the same thread finds the first method's running counter, gets a
      warning naming the first method, and its stop is booked under the first
      method's short name. */
  lemma SiteKeyIgnoresMethodName(e: Engine, filePath: string, first: string, second: string,
                                 threadId: int, x: int, y: int, z: int, d: nat)
    requires SiteKey(filePath, threadId) !in e.siteCache
    ensures var e1 := StartAtSite(e, filePath, first, threadId, x);
      var e2 := StartAtSite(e1, filePath, second, threadId, y);
      && e2 == e1.(log := e1.log + [Warn(StartedTwice, filePath + first)])
      && Measured(Advance(e2, d), StopSite(filePath, second, threadId, z))
         == Some(Measurement(filePath + first, d + x + z))
  {
  }

  /** Within one file, different threads use different site keys. */
  lemma ThreadsSeparateSiteKeys(filePath: string, t1: int, t2: int)
    requires t1 != t2
    ensures SiteKey(filePath, t1) != SiteKey(filePath, t2)
  {
    if SiteKey(filePath, t1) == SiteKey(filePath, t2) {
      SamePrefixCancels(filePath + filePath, IntToString(t1), IntToString(t2));
      IntToStringInjective(t1, t2);
    }
  }

  /** File path and method name are joined without a separator, so two
      different call sites can share one short name and one history entry. */
  lemma ShortNamesCanCollide(threadId: int, now: nat)
    ensures var a := SiteCounter("ab", "c", threadId, now);
      var b := SiteCounter("a", "bc", threadId, now);
      a.filePath != b.filePath && a.shortName == b.shortName
  {
    assert "ab" + "c" == "a" + "bc";
  }

  // ---------------------------------------------------------------------------
  // Stopping a timer

  /** Stopping an absent or stopped custom key writes one warning naming the
      key and changes nothing else. */
  lemma StopByKeyWithoutStartWarns(e: Engine, key: string)
    requires key !in e.keyCache || !e.keyCache[key].watch.running
    ensures StopByKey(e, key) == e.(log := e.log + [Warn(StoppedBeforeStart, key)])
    ensures Measured(e, StopKey(key)) == None
  {
  }

  /** Stopping an absent or stopped call site writes one warning naming the
      site key and changes nothing else. */
  lemma StopAtSiteWithoutStartWarns(e: Engine, filePath: string, methodName: string, threadId: int, extraTicks: int)
    requires var name := SiteKey(filePath, threadId);
      name !in e.siteCache || !e.siteCache[name].watch.running
    ensures StopAtSite(e, filePath, methodName, threadId, extraTicks)
         == e.(log := e.log + [Warn(StoppedBeforeStart, SiteKey(filePath, threadId))])
    ensures Measured(e, StopSite(filePath, methodName, threadId, extraTicks)) == None
  {
  }

  /** Stopping a running custom key stops that counter, measures its stopwatch
      ticks plus its extra ticks, adds that same value to its short name's
      history, and logs the figures of this call and of the updated entry. */
  lemma StopByKeyRecords(e: Engine, key: string)
    requires key in e.keyCache && e.keyCache[key].watch.running
    ensures var e' := StopByKey(e, key);
      var c := e.keyCache[key];
      var ticks := WatchTicks(c.watch, e.clock) + c.extraTicks;
      && e'.keyCache.Keys == e.keyCache.Keys
      && !e'.keyCache[key].watch.running
      && (forall t: nat :: LastElapsedTicks(e'.keyCache[key], t) == ticks)
      && (forall k :: k in e.keyCache && k != key ==> e'.keyCache[k] == e.keyCache[k])
      && e'.siteCache == e.siteCache
      && Measured(e, StopKey(key)) == Some(Measurement(c.shortName, ticks))
      && e'.history == AddHistory(e.history, c.shortName, ticks).0
      && e'.log == e.log + [Info(c.shortName, CsDiv(ticks, e.frequencyMs),
                                 CountIn(e.history, c.shortName) + 1,
                                 CsDiv(TotalIn(e.history, c.shortName) + ticks, e.frequencyMs))]
  {
  }

  /** Stopping a running call site first adds the stop's extra ticks to the
      counter, then does as StopByKeyRecords; the line names file and method. */
  lemma StopAtSiteRecords(e: Engine, filePath: string, methodName: string, threadId: int, extraTicks: int)
    requires var name := SiteKey(filePath, threadId);
      name in e.siteCache && e.siteCache[name].watch.running
    ensures var name := SiteKey(filePath, threadId);
      var e' := StopAtSite(e, filePath, methodName, threadId, extraTicks);
      var c := e.siteCache[name];
      var ticks := WatchTicks(c.watch, e.clock) + c.extraTicks + extraTicks;
      && e'.siteCache.Keys == e.siteCache.Keys
      && !e'.siteCache[name].watch.running
      && e'.siteCache[name].extraTicks == c.extraTicks + extraTicks
      && (forall t: nat :: LastElapsedTicks(e'.siteCache[name], t) == ticks)
      && (forall k :: k in e.siteCache && k != name ==> e'.siteCache[k] == e.siteCache[k])
      && e'.keyCache == e.keyCache
      && Measured(e, StopSite(filePath, methodName, threadId, extraTicks)) == Some(Measurement(c.shortName, ticks))
      && e'.history == AddHistory(e.history, c.shortName, ticks).0
      && e'.log == e.log + [Info(c.filePath + " " + c.methodName, CsDiv(ticks, e.frequencyMs),
                                 CountIn(e.history, c.shortName) + 1,
                                 CsDiv(TotalIn(e.history, c.shortName) + ticks, e.frequencyMs))]
  {
  }

  // ---------------------------------------------------------------------------
  // Any step

  /** A step folds exactly what it measured into the history, and nothing when
      it measured nothing. */
  lemma StepFoldsMeasurement(e: Engine, op: Op)
    ensures var m := Measured(e, op);
      Step(e, op).history == if m.Some? then AddHistory(e.history, m.value.shortName, m.value.ticks).0 else e.history
  {
    match op
    case StopKey(k) =>
      if k in e.keyCache && e.keyCache[k].watch.running { StopByKeyRecords(e, k); }
    case StopSite(f, m, t, x) =>
      if SiteKey(f, t) in e.siteCache && e.siteCache[SiteKey(f, t)].watch.running {
        StopAtSiteRecords(e, f, m, t, x);
      }
    case _ =>
  }

  /** No step removes a counter or a history entry, or a line of the log. */
  lemma StepKeepsEntries(e: Engine, op: Op)
    ensures var e' := Step(e, op);
      && e.keyCache.Keys <= e'.keyCache.Keys
      && e.siteCache.Keys <= e'.siteCache.Keys
      && e.history.Keys <= e'.history.Keys
      && e.clock <= e'.clock
      && e.log <= e'.log
  {
    match op
    case StartKey(k) =>
    case StopKey(k) =>
    case StartSite(f, m, t, x) =>
    case StopSite(f, m, t, x) =>
    case Wait(d) =>
  }

  lemma {:induction false} RunKeepsEntries(e: Engine, ops: seq<Op>)
    ensures var e' := Run(e, ops);
      && e.keyCache.Keys <= e'.keyCache.Keys
      && e.siteCache.Keys <= e'.siteCache.Keys
      && e.history.Keys <= e'.history.Keys
      && e.clock <= e'.clock
      && e.log <= e'.log
  {
    if ops != [] {
      var prefix := ops[..|ops| - 1];
      var mid := Run(e, prefix);
      RunKeepsEntries(e, prefix);
      StepKeepsEntries(mid, ops[|ops| - 1]);
    }
  }

  lemma StartByKeyPreservesConsistent(e: Engine, key: string)
    requires Consistent(e)
    ensures Consistent(StartByKey(e, key))
  {
    var e' := StartByKey(e, key);
    forall j | j in e'.keyCache ensures KeyCounterOk(j, e'.keyCache[j], e'.clock) {
      if j != key { assert e'.keyCache[j] == e.keyCache[j]; }
    }
  }

  lemma StopByKeyPreservesConsistent(e: Engine, key: string)
    requires Consistent(e)
    ensures Consistent(StopByKey(e, key))
  {
    var e' := StopByKey(e, key);
    if key in e.keyCache && e.keyCache[key].watch.running {
      StopByKeyRecords(e, key);
      var c := e.keyCache[key];
      assert KeyCounterOk(key, c, e.clock);
      forall j | j in e'.keyCache ensures KeyCounterOk(j, e'.keyCache[j], e'.clock) {
        if j != key { assert e'.keyCache[j] == e.keyCache[j]; }
      }
      forall j | j in e'.history ensures EntryOk(j, e'.history[j]) {
        if j != key { assert e'.history[j] == e.history[j]; }
      }
    }
  }

  lemma StartAtSitePreservesConsistent(e: Engine, filePath: string, methodName: string, threadId: int, extraTicks: int)
    requires Consistent(e)
    ensures Consistent(StartAtSite(e, filePath, methodName, threadId, extraTicks))
  {
    var e' := StartAtSite(e, filePath, methodName, threadId, extraTicks);
    var name := SiteKey(filePath, threadId);
    forall j | j in e'.siteCache ensures SiteCounterOk(j, e'.siteCache[j], e'.clock) {
      if j != name { assert e'.siteCache[j] == e.siteCache[j]; }
      else if name in e.siteCache { assert SiteCounterOk(j, e.siteCache[j], e.clock); }
    }
  }

  lemma StopAtSitePreservesConsistent(e: Engine, filePath: string, methodName: string, threadId: int, extraTicks: int)
    requires Consistent(e)
    ensures Consistent(StopAtSite(e, filePath, methodName, threadId, extraTicks))
  {
    var e' := StopAtSite(e, filePath, methodName, threadId, extraTicks);
    var name := SiteKey(filePath, threadId);
    if name in e.siteCache && e.siteCache[name].watch.running {
      StopAtSiteRecords(e, filePath, methodName, threadId, extraTicks);
      var c := e.siteCache[name];
      assert SiteCounterOk(name, c, e.clock);
      forall j | j in e'.siteCache ensures SiteCounterOk(j, e'.siteCache[j], e'.clock) {
        if j != name { assert e'.siteCache[j] == e.siteCache[j]; }
      }
      forall j | j in e'.history ensures EntryOk(j, e'.history[j]) {
        if j != c.shortName { assert e'.history[j] == e.history[j]; }
      }
    }
  }

  /** Every step keeps the engine's invariant: custom-key counters named after
      their key with no extra ticks, site counters under their own site key,
      history entries named after their key with a count of at least one. */
  lemma StepPreservesConsistent(e: Engine, op: Op)
    requires Consistent(e)
    ensures Consistent(Step(e, op))
  {
    match op
    case StartKey(k) => StartByKeyPreservesConsistent(e, k);
    case StopKey(k) => StopByKeyPreservesConsistent(e, k);
    case StartSite(f, m, t, x) => StartAtSitePreservesConsistent(e, f, m, t, x);
    case StopSite(f, m, t, x) => StopAtSitePreservesConsistent(e, f, m, t, x);
    case Wait(d) =>
      var e' := Advance(e, d);
      assert forall j :: j in e'.keyCache ==> KeyCounterOk(j, e'.keyCache[j], e.clock);
      assert forall j :: j in e'.siteCache ==> SiteCounterOk(j, e'.siteCache[j], e.clock);
  }

  lemma {:induction false} RunPreservesConsistent(e: Engine, ops: seq<Op>)
    requires Consistent(e)
    ensures Consistent(Run(e, ops))
  {
    if ops != [] {
      RunPreservesConsistent(e, ops[..|ops| - 1]);
      StepPreservesConsistent(Run(e, ops[..|ops| - 1]), ops[|ops| - 1]);
    }
  }

  lemma InitialIsConsistent(frequencyMs: Positive)
    ensures Consistent(Initial(frequencyMs))
  {
  }

  // ---------------------------------------------------------------------------
  // The history as exact sums

  /** Over any run, the count of every short name grows by the number of
      successful stops with that short name, and its total by the sum of the
      ticks those stops returned. Both cache paths feed the one map. */
  lemma {:induction false} HistoryCountsStops(e: Engine, ops: seq<Op>, shortName: string)
    ensures CountIn(Run(e, ops).history, shortName)
         == CountIn(e.history, shortName) + StopsOf(Measurements(e, ops), shortName)
    ensures TotalIn(Run(e, ops).history, shortName)
         == TotalIn(e.history, shortName) + TicksOf(Measurements(e, ops), shortName)
  {
    if ops != [] {
      var prefix := ops[..|ops| - 1];
      var before := Run(e, prefix);
      var op := ops[|ops| - 1];
      var m := Measured(before, op);
      HistoryCountsStops(e, prefix, shortName);
      StepFoldsMeasurement(before, op);
      FoldCounts(before.history, Run(e, ops).history, m, shortName);
      AppendMeasured(Measurements(e, prefix), Measurements(e, ops), m, shortName);
    }
  }

  /** Folding one optional measurement into a history adds one to the count
      and its ticks to the total of its own short name, and nothing elsewhere. */
  lemma FoldCounts(h: map<string, HistoryEntry>, h': map<string, HistoryEntry>, m: Option<Measurement>, shortName: string)
    requires h' == if m.Some? then AddHistory(h, m.value.shortName, m.value.ticks).0 else h
    ensures CountIn(h', shortName) == CountIn(h, shortName) + (if m.Some? && m.value.shortName == shortName then 1 else 0)
    ensures TotalIn(h', shortName) == TotalIn(h, shortName) + (if m.Some? && m.value.shortName == shortName then m.value.ticks else 0)
  {
  }

  /** Appending one optional measurement to a list adds it to the counts. */
  lemma AppendMeasured(ms: seq<Measurement>, all: seq<Measurement>, m: Option<Measurement>, shortName: string)
    requires all == ms + (if m.Some? then [m.value] else [])
    ensures StopsOf(all, shortName) == StopsOf(ms, shortName) + (if m.Some? && m.value.shortName == shortName then 1 else 0)
    ensures TicksOf(all, shortName) == TicksOf(ms, shortName) + (if m.Some? && m.value.shortName == shortName then m.value.ticks else 0)
  {
    if m.Some? {
      assert all[..|all| - 1] == ms;
    } else {
      assert all == ms;
    }
  }

  /** From the state after the static constructor, the history holds exactly
      the short names that some successful stop measured, each with its count
      and total of those stops. */
  lemma HistoryFromStart(frequencyMs: Positive, ops: seq<Op>, shortName: string)
    ensures var ms := Measurements(Initial(frequencyMs), ops);
      var h := Run(Initial(frequencyMs), ops).history;
      && (shortName in h <==> StopsOf(ms, shortName) > 0)
      && CountIn(h, shortName) == StopsOf(ms, shortName)
      && TotalIn(h, shortName) == TicksOf(ms, shortName)
  {
    HistoryCountsStops(Initial(frequencyMs), ops, shortName);
    InitialIsConsistent(frequencyMs);
    RunPreservesConsistent(Initial(frequencyMs), ops);
  }

  // ---------------------------------------------------------------------------
  // Totals never decrease when no negative extra ticks are passed

  predicate SiteExtrasNonNegative(e: Engine) {
    forall k :: k in e.siteCache ==> e.siteCache[k].extraTicks >= 0
  }

  predicate ExtraNonNegative(op: Op) {
    (op.StartSite? || op.StopSite?) ==> op.extraTicks >= 0
  }

  /** No step gives a call-site counter negative extra ticks unless it is
      passed a negative amount. */
  lemma StepKeepsExtrasNonNegative(e: Engine, op: Op)
    requires SiteExtrasNonNegative(e) && ExtraNonNegative(op)
    ensures SiteExtrasNonNegative(Step(e, op))
  {
    match op
    case StartSite(f, m, t, x) =>
      var e' := StartAtSite(e, f, m, t, x);
      forall k | k in e'.siteCache ensures e'.siteCache[k].extraTicks >= 0 {
        if k != SiteKey(f, t) { assert e'.siteCache[k] == e.siteCache[k]; }
      }
    case StopSite(f, m, t, x) =>
      var e' := StopAtSite(e, f, m, t, x);
      forall k | k in e'.siteCache ensures e'.siteCache[k].extraTicks >= 0 {
        if k != SiteKey(f, t) { assert e'.siteCache[k] == e.siteCache[k]; }
      }
    case _ =>
  }

  /** With no negative extra ticks, every measurement is non-negative, so no
      history total ever decreases. */
  lemma TotalsNeverDecrease(e: Engine, op: Op)
    requires Consistent(e) && SiteExtrasNonNegative(e) && ExtraNonNegative(op)
    ensures SiteExtrasNonNegative(Step(e, op))
    ensures Measured(e, op).Some? ==> Measured(e, op).value.ticks >= 0
    ensures forall k :: k in e.history ==>
      k in Step(e, op).history && Step(e, op).history[k].totalTicks >= e.history[k].totalTicks
  {
    StepKeepsExtrasNonNegative(e, op);
    StepFoldsMeasurement(e, op);
    match op
    case StopKey(k) =>
      if k in e.keyCache && e.keyCache[k].watch.running {
        assert KeyCounterOk(k, e.keyCache[k], e.clock);
      }
    case StopSite(f, m, t, x) =>
      var name := SiteKey(f, t);
      if name in e.siteCache && e.siteCache[name].watch.running {
        assert SiteCounterOk(name, e.siteCache[name], e.clock);
      }
    case _ =>
  }
}
