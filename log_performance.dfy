/** The public `Log.PerformanceStart` / `Log.PerformanceStop` overloads: a
    guard on the key object, then a call into `PerformanceHelper`. The key
    object is `None` for null and `Some(s)` where `s` is its `ToString()`; the
    caller's file path and member name are what the compiler fills in for the
    `[CallerFilePath]` and `[CallerMemberName]` parameters; `threadId` is the
    managed id of the calling thread. */
module Log {
  import opened Wrappers
  import opened TimingModel
  import opened TimingProperties
  import opened Performance

  /** `key != null && !string.IsNullOrEmpty(key.ToString())`: exactly the keys
      whose forwarded text is not empty. */
  predicate IsUsableKey(key: Option<string>)
    ensures IsUsableKey(key) <==> KeyText(key) != ""
  {
    key.Some? && key.value != ""
  }

  /** The text the guarded overloads pass on: `key.ToString()`. */
  function KeyText(key: Option<string>): string {
    if key.Some? then key.value else ""
  }

  // ---------------------------------------------------------------------------
  // The four overloads on the helper object

  /** `PerformanceStart(object key)`. */
  method PerformanceStart(helper: PerformanceHelper, key: Option<string>)
    requires helper.Valid()
    modifies helper`performanceCounterCacheByCustomKey, helper`log, helper.KeyCounterFrame(KeyText(key))
    ensures helper.Valid()
    ensures helper.Model() == if IsUsableKey(key) then StartByKey(old(helper.Model()), key.value)
                              else old(helper.Model())
  {
    if key.Some? && key.value != "" {
      helper.StartPerformance(key.value);
    }
  }

  /** `PerformanceStop(object key)`. */
  method PerformanceStop(helper: PerformanceHelper, key: Option<string>)
    requires helper.Valid()
    modifies helper`performanceCounterHistory, helper`log, helper.KeyStopFrame(KeyText(key))
    ensures helper.Valid()
    ensures helper.Model() == if IsUsableKey(key) then StopByKey(old(helper.Model()), key.value)
                              else old(helper.Model())
  {
    if key.Some? && key.value != "" {
      helper.StopPerformance(key.value);
    }
  }

  /** `PerformanceStart([CallerFilePath] filePath, [CallerMemberName] methodName)`:
      the helper's default extra ticks, 0. */
  method PerformanceStartAtSite(helper: PerformanceHelper, filePath: string, methodName: string, threadId: int)
    requires helper.Valid()
    modifies helper`performanceCounterCache, helper`log, helper.SiteCounterFrame(SiteKey(filePath, threadId))
    ensures helper.Valid()
    ensures helper.Model() == StartAtSite(old(helper.Model()), filePath, methodName, threadId, 0)
  {
    helper.StartPerformanceAtSite(filePath, methodName, threadId, 0);
  }

  /** `PerformanceStop([CallerFilePath] filePath, [CallerMemberName] methodName)`:
      the helper's default extra ticks, 0. */
  method PerformanceStopAtSite(helper: PerformanceHelper, filePath: string, methodName: string, threadId: int)
    requires helper.Valid()
    modifies helper`performanceCounterHistory, helper`log, helper.SiteStopFrame(SiteKey(filePath, threadId))
    ensures helper.Valid()
    ensures helper.Model() == StopAtSite(old(helper.Model()), filePath, methodName, threadId, 0)
  {
    helper.StopPerformanceAtSite(filePath, methodName, threadId, 0);
  }

  // ---------------------------------------------------------------------------
  // Sequences of public calls, as values

  /** A call of one of the public overloads, or time passing between calls. */
  datatype Call =
    | StartByObject(key: Option<string>)
    | StopByObject(key: Option<string>)
    | StartHere(filePath: string, methodName: string, threadId: int)
    | StopHere(filePath: string, methodName: string, threadId: int)
    | Elapse(ticks: nat)

  /** The engine operation a public call forwards to; `None` when the guard
      drops it. */
  function Forwarded(call: Call): (r: Option<Op>)
    ensures r.Some? ==> ExtraNonNegative(r.value)
  {
    match call
    case StartByObject(key) => if IsUsableKey(key) then Some(StartKey(key.value)) else None
    case StopByObject(key) => if IsUsableKey(key) then Some(StopKey(key.value)) else None
    case StartHere(f, m, t) => Some(StartSite(f, m, t, 0))
    case StopHere(f, m, t) => Some(StopSite(f, m, t, 0))
    case Elapse(d) => Some(Wait(d))
  }

  /** The engine after one public call. */
  function Apply(e: Engine, call: Call): Engine {
    match Forwarded(call)
    case None => e
    case Some(op) => Step(e, op)
  }

  /** The engine after a sequence of public calls. */
  function Replay(e: Engine, calls: seq<Call>): Engine
    decreases |calls|
  {
    if calls == [] then e else Apply(Replay(e, calls[..|calls| - 1]), calls[|calls| - 1])
  }

  /** The invariant the public calls keep: the engine's own invariant, and no
      call-site counter with negative extra ticks. It holds initially and after
      every public call, though not only of engines those calls produce. */
  predicate PublicCallInvariant(e: Engine) {
    Consistent(e) && SiteExtrasNonNegative(e)
  }

  /** Every entry of `before` is still in `after`, with a total at least as large. */
  predicate TotalsGrow(before: map<string, HistoryEntry>, after: map<string, HistoryEntry>) {
    forall k :: k in before ==> k in after && after[k].totalTicks >= before[k].totalTicks
  }

  // ---------------------------------------------------------------------------
  // Properties of the public calls

  /** A null key, or one whose text is empty, is dropped by both guarded
      overloads: no counter, no history entry and no log line changes. */
  lemma UnusableKeyDoesNothing(e: Engine, key: Option<string>)
    requires !IsUsableKey(key)
    ensures Apply(e, StartByObject(key)) == e
    ensures Apply(e, StopByObject(key)) == e
  {
  }

  /** A usable key reaches the custom-key path as its text, for both start
      and stop; the call-site overloads pass their arguments on with 0 extra
      ticks. */
  lemma CallsForwardTheirArguments(e: Engine, call: Call)
    ensures call.StartByObject? && IsUsableKey(call.key) ==> Apply(e, call) == StartByKey(e, call.key.value)
    ensures call.StopByObject? && IsUsableKey(call.key) ==> Apply(e, call) == StopByKey(e, call.key.value)
    ensures call.StartHere? ==> Apply(e, call) == StartAtSite(e, call.filePath, call.methodName, call.threadId, 0)
    ensures call.StopHere? ==> Apply(e, call) == StopAtSite(e, call.filePath, call.methodName, call.threadId, 0)
  {
  }

  /** On a fresh engine, a start and a stop with a usable key `d` ticks later
      record one invocation of `d` ticks under the key, and log exactly that
      stop. */
  lemma StartThenStopRecordsOnce(frequencyMs: Positive, key: Option<string>, d: nat)
    requires IsUsableKey(key)
    ensures var e := Replay(Initial(frequencyMs), [StartByObject(key), Elapse(d), StopByObject(key)]);
      && e.history == map[key.value := HistoryEntry(key.value, 1, d)]
      && e.log == [Info(key.value, CsDiv(d, frequencyMs), 1, CsDiv(d, frequencyMs))]
  {
    var calls := [StartByObject(key), Elapse(d), StopByObject(key)];
    var k := key.value;
    var e0 := Initial(frequencyMs);
    var e1 := StartByKey(e0, k);
    var e2 := Advance(e1, d);
    assert Replay(e0, calls[..1]) == e1 by { assert calls[..1][..0] == []; }
    assert Replay(e0, calls[..2]) == e2 by { assert calls[..2][..1] == calls[..1]; }
    assert Replay(e0, calls) == StopByKey(e2, k) by { assert calls[..2] == calls[..|calls| - 1]; }
    StartByKeyCreates(e0, k);
    assert WatchTicks(e2.keyCache[k].watch, e2.clock) == d;
    StopByKeyRecords(e2, k);
    assert AddHistory(map[], k, d).0 == map[k := HistoryEntry(k, 1, d)];
  }

  lemma InitialSatisfiesInvariant(frequencyMs: Positive)
    ensures PublicCallInvariant(Initial(frequencyMs))
  {
    InitialIsConsistent(frequencyMs);
  }

  /** One public call keeps the invariant, and no history total goes
      down: the call-site overloads pass 0 extra ticks, so every measurement is
      non-negative. */
  lemma CallKeepsTotals(e: Engine, call: Call)
    requires PublicCallInvariant(e)
    ensures PublicCallInvariant(Apply(e, call))
    ensures TotalsGrow(e.history, Apply(e, call).history)
  {
    var f := Forwarded(call);
    if f.Some? {
      StepPreservesConsistent(e, f.value);
      TotalsNeverDecrease(e, f.value);
    }
  }

  lemma {:induction false} ReplayKeepsInvariant(e: Engine, calls: seq<Call>)
    requires PublicCallInvariant(e)
    ensures PublicCallInvariant(Replay(e, calls))
  {
    if calls != [] {
      ReplayKeepsInvariant(e, calls[..|calls| - 1]);
      CallKeepsTotals(Replay(e, calls[..|calls| - 1]), calls[|calls| - 1]);
    }
  }

  lemma TotalsGrowTransitive(h0: map<string, HistoryEntry>, h1: map<string, HistoryEntry>, h2: map<string, HistoryEntry>)
    requires TotalsGrow(h0, h1) && TotalsGrow(h1, h2)
    ensures TotalsGrow(h0, h2)
  {
  }

  lemma ReplayAppend(e: Engine, calls: seq<Call>, call: Call)
    ensures Replay(e, calls + [call]) == Apply(Replay(e, calls), call)
  {
    var all := calls + [call];
    assert all[..|all| - 1] == calls;
  }

  /** Through the public calls no history entry disappears and no total ever
      decreases, however many calls follow. */
  lemma {:induction false} TotalsNeverDecreaseThroughLog(e: Engine, calls: seq<Call>, more: seq<Call>)
    requires PublicCallInvariant(e)
    ensures TotalsGrow(Replay(e, calls).history, Replay(e, calls + more).history)
    decreases |more|
  {
    if more == [] {
      assert calls + more == calls;
    } else {
      var front, last := more[..|more| - 1], more[|more| - 1];
      TotalsNeverDecreaseThroughLog(e, calls, front);
      assert calls + more == (calls + front) + [last];
      var mid := Replay(e, calls + front);
      ReplayAppend(e, calls + front, last);
      ReplayKeepsInvariant(e, calls + front);
      CallKeepsTotals(mid, last);
      TotalsGrowTransitive(Replay(e, calls).history, mid.history, Apply(mid, last).history);
    }
  }
}
