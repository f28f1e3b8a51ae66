/**
 * The in-memory metrics store of the chat backend: a capped log of chat
 * interactions, a capped log of errors, and per-day counters keyed by a date
 * string, together with the read-only summary and history queries over them.
 *
 * The clock is not modelled: every logging call receives its ISO timestamp
 * and its `%Y-%m-%d` date key as parameters, and the latency in whole
 * milliseconds.
 */
module Observability {
  import opened Wrappers
  import opened Strings

  const MaxInteractions: nat := 1000
  const MaxErrors: nat := 100
  const QuestionKept: nat := 200
  const AnswerPreviewKept: nat := 100
  const ErrorMessageKept: nat := 500
  const RecentInteractionsShown: nat := 10
  const RecentErrorsShown: nat := 5
  const RecentDaysShown: nat := 7

  /** One chat exchange as stored in the interaction log. */
  datatype Interaction = Interaction(
    timestamp: string,
    sessionId: string,
    question: string,
    answerPreview: string,
    latencyMs: int,
    tokensInput: int,
    tokensOutput: int,
    tokensTotal: int,
    confidence: real,
    model: string,
    wasRefused: bool,
    filterUsed: Option<string>)

  /** One entry of the error log. */
  datatype ErrorRecord = ErrorRecord(
    timestamp: string,
    kind: string,
    message: string,
    context: map<string, string>)

  /** The counters kept for one calendar day. */
  datatype DayStats = DayStats(
    totalQueries: int,
    totalTokens: int,
    totalLatencyMs: int,
    refusedCount: int,
    errorCount: int)

  const ZeroDay := DayStats(0, 0, 0, 0, 0)

  /** The record `log_interaction` builds from its arguments. */
  function NewInteraction(
    timestamp: string, sessionId: string, question: string, answer: string,
    latencyMs: int, tokensInput: int, tokensOutput: int, confidence: real,
    model: string, wasRefused: bool, filterUsed: Option<string>): (r: Interaction)
    ensures r.tokensTotal == tokensInput + tokensOutput
    ensures r.question <= question && |r.question| == Min(|question|, QuestionKept)
    ensures r.answerPreview <= answer && |r.answerPreview| == Min(|answer|, AnswerPreviewKept)
    ensures r.sessionId == sessionId && r.latencyMs == latencyMs && r.wasRefused == wasRefused
    ensures r.timestamp == timestamp && r.model == model && r.filterUsed == filterUsed
    ensures r.tokensInput == tokensInput && r.tokensOutput == tokensOutput && r.confidence == confidence
  {
    Interaction(timestamp, sessionId, Truncate(question, QuestionKept),
      Truncate(answer, AnswerPreviewKept), latencyMs, tokensInput, tokensOutput,
      tokensInput + tokensOutput, confidence, model, wasRefused, filterUsed)
  }

  /** The record `log_error` builds: the message cut to 500 characters, a missing context as `{}`. */
  function NewError(timestamp: string, kind: string, message: string,
                    context: Option<map<string, string>>): (r: ErrorRecord)
    ensures r.message <= message && |r.message| == Min(|message|, ErrorMessageKept)
    ensures r.kind == kind && r.timestamp == timestamp
    ensures context.None? ==> r.context == map[]
    ensures context.Some? ==> r.context == context.value
  {
    ErrorRecord(timestamp, kind, Truncate(message, ErrorMessageKept), context.GetOr(map[]))
  }

  // ---------------------------------------------------------------------
  // The specification of the updates

  /** Append `x`, then drop the oldest entry if the log has grown past `cap`. */
  function Evicting<T>(log: seq<T>, x: T, cap: nat): (r: seq<T>)
    ensures |log| <= |r| <= |log| + 1 && r == (log + [x])[|log| + 1 - |r|..]
    ensures |r| == |log| + 1 <==> |log| < cap
    ensures cap >= 1 ==> r != [] && r[|r| - 1] == x
  {
    var grown := log + [x];
    if |grown| > cap then grown[1..] else grown
  }

  /**
   * On a log within its cap, appending with eviction keeps the newest `cap`
   * entries: the new one last, and when the log was full, everything but
   * the oldest entry, in order.
   */
  lemma EvictingKeepsNewest<T>(log: seq<T>, x: T, cap: nat)
    requires 1 <= cap && |log| <= cap
    ensures Evicting(log, x, cap) == SliceFrom(log + [x], -(cap as int))
    ensures |Evicting(log, x, cap)| == Min(|log| + 1, cap)
    ensures Evicting(log, x, cap)[|Evicting(log, x, cap)| - 1] == x
    ensures |log| < cap ==> Evicting(log, x, cap) == log + [x]
    ensures |log| == cap ==> Evicting(log, x, cap) == log[1..] + [x]
  {
    var grown := log + [x];
    if |log| == cap {
      assert grown[1..] == log[1..] + [x];
    }
  }

  /** The counters `log_interaction` adds to the bucket of `dateKey`, creating a zeroed one if absent. */
  function CountQuery(daily: map<string, DayStats>, dateKey: string,
                      tokens: int, latencyMs: int, refused: bool): (r: map<string, DayStats>)
    ensures r.Keys == daily.Keys + {dateKey}
    ensures forall d :: d in daily && d != dateKey ==> r[d] == daily[d]
    ensures var before := if dateKey in daily then daily[dateKey] else ZeroDay;
      && r[dateKey].totalQueries == before.totalQueries + 1
      && r[dateKey].totalTokens == before.totalTokens + tokens
      && r[dateKey].totalLatencyMs == before.totalLatencyMs + latencyMs
      && r[dateKey].refusedCount == before.refusedCount + (if refused then 1 else 0)
      && r[dateKey].errorCount == before.errorCount
  {
    var b := if dateKey in daily then daily[dateKey] else ZeroDay;
    daily[dateKey := DayStats(b.totalQueries + 1, b.totalTokens + tokens,
      b.totalLatencyMs + latencyMs, b.refusedCount + (if refused then 1 else 0), b.errorCount)]
  }

  /** The error count `log_error` adds: only to an existing bucket, and never a new bucket. */
  function CountError(daily: map<string, DayStats>, dateKey: string): (r: map<string, DayStats>)
    ensures r.Keys == daily.Keys
    ensures forall d :: d in daily && d != dateKey ==> r[d] == daily[d]
    ensures dateKey in daily ==>
      r[dateKey] == daily[dateKey].(errorCount := daily[dateKey].errorCount + 1)
  {
    if dateKey in daily then
      daily[dateKey := daily[dateKey].(errorCount := daily[dateKey].errorCount + 1)]
    else daily
  }

  /** The dictionary's key order after `dateKey` is looked up for update: a new key goes last. */
  function RegisterDay(order: seq<string>, daily: map<string, DayStats>, dateKey: string): (r: seq<string>)
    ensures order <= r
    ensures |r| == |order| + (if dateKey in daily then 0 else 1)
    ensures forall d :: d in r <==> d in order || (d == dateKey && dateKey !in daily)
  {
    if dateKey in daily then order else order + [dateKey]
  }

  /** `order` lists the keys of `daily` once each: the insertion order of the dictionary. */
  ghost predicate DayIndex(order: seq<string>, daily: map<string, DayStats>) {
    && (forall i, j :: 0 <= i < j < |order| ==> order[i] != order[j])
    && (forall i :: 0 <= i < |order| ==> order[i] in daily)
    && (forall d :: d in daily ==> d in order)
  }

  /** A day bucket only exists once a query was counted in it, and refusals are among the queries. */
  ghost predicate DayWellFormed(b: DayStats) {
    1 <= b.totalQueries && 0 <= b.refusedCount <= b.totalQueries && 0 <= b.errorCount
  }

  ghost predicate DaysWellFormed(daily: map<string, DayStats>) {
    forall d :: d in daily ==> DayWellFormed(daily[d])
  }

  /** Counting a query keeps the key order in step with the buckets, and every bucket well formed. */
  lemma CountQueryKeepsDays(order: seq<string>, daily: map<string, DayStats>, dateKey: string,
                            tokens: int, latencyMs: int, refused: bool)
    requires DayIndex(order, daily) && DaysWellFormed(daily)
    ensures DayIndex(RegisterDay(order, daily, dateKey), CountQuery(daily, dateKey, tokens, latencyMs, refused))
    ensures DaysWellFormed(CountQuery(daily, dateKey, tokens, latencyMs, refused))
  {
    var order' := RegisterDay(order, daily, dateKey);
    var daily' := CountQuery(daily, dateKey, tokens, latencyMs, refused);
    forall d | d in daily' ensures d in order' {
      if d != dateKey {
        assert d in order;
      } else {
        assert order'[|order'| - 1] == dateKey || dateKey in order;
      }
    }
  }

  /** Counting an error keeps the key order and every bucket well formed. */
  lemma CountErrorKeepsDays(order: seq<string>, daily: map<string, DayStats>, dateKey: string)
    requires DayIndex(order, daily) && DaysWellFormed(daily)
    ensures DayIndex(order, CountError(daily, dateKey))
    ensures DaysWellFormed(CountError(daily, dateKey))
  {
  }

  // ---------------------------------------------------------------------
  // The store

  /** The three module-level stores, updated in place by the logging calls. */
  class MetricsStore {
    var interactions: seq<Interaction>
    var errors: seq<ErrorRecord>
    var daily: map<string, DayStats>
    /** The keys of `daily` in insertion order (Python dictionaries keep it). */
    var dayOrder: seq<string>

    ghost predicate Valid()
      reads this
    {
      && |interactions| <= MaxInteractions
      && |errors| <= MaxErrors
      && DayIndex(dayOrder, daily)
      && DaysWellFormed(daily)
      && (forall i :: 0 <= i < |interactions| ==>
            interactions[i].tokensTotal == interactions[i].tokensInput + interactions[i].tokensOutput)
    }

    /** The stores as the module starts: all empty. */
    constructor ()
      ensures Valid()
      ensures interactions == [] && errors == [] && daily == map[] && dayOrder == []
    {
      interactions := [];
      errors := [];
      daily := map[];
      dayOrder := [];
    }

    /** `log_interaction`: record one chat exchange and count it in its day. */
    method LogInteraction(
      timestamp: string, dateKey: string, sessionId: string, question: string, answer: string,
      latencyMs: int, tokensInput: int, tokensOutput: int, confidence: real,
      model: string, wasRefused: bool, filterUsed: Option<string>)
      requires Valid()
      modifies this
      ensures Valid()
      ensures interactions == Evicting(old(interactions),
        NewInteraction(timestamp, sessionId, question, answer, latencyMs, tokensInput,
          tokensOutput, confidence, model, wasRefused, filterUsed), MaxInteractions)
      ensures daily == CountQuery(old(daily), dateKey, tokensInput + tokensOutput, latencyMs, wasRefused)
      ensures dayOrder == RegisterDay(old(dayOrder), old(daily), dateKey)
      ensures errors == old(errors)
    {
      var interaction := NewInteraction(timestamp, sessionId, question, answer, latencyMs,
        tokensInput, tokensOutput, confidence, model, wasRefused, filterUsed);
      ghost var expectedLog := Evicting(interactions, interaction, MaxInteractions);
      interactions := interactions + [interaction];
      CountInDay(dateKey, tokensInput + tokensOutput, interaction.latencyMs, wasRefused);
      if |interactions| > MaxInteractions {
        interactions := interactions[1..];
      }
      assert interactions == expectedLog;
    }

    /** The day-bucket part of `log_interaction`: create the bucket if absent, then add to its counters. */
    method CountInDay(dateKey: string, tokens: int, latencyMs: int, refused: bool)
      requires DayIndex(dayOrder, daily) && DaysWellFormed(daily)
      modifies this
      ensures DayIndex(dayOrder, daily) && DaysWellFormed(daily)
      ensures daily == CountQuery(old(daily), dateKey, tokens, latencyMs, refused)
      ensures dayOrder == RegisterDay(old(dayOrder), old(daily), dateKey)
      ensures interactions == old(interactions) && errors == old(errors)
    {
      ghost var before := if dateKey in daily then daily[dateKey] else ZeroDay;
      ghost var expected := CountQuery(daily, dateKey, tokens, latencyMs, refused);
      ghost var expectedOrder := RegisterDay(dayOrder, daily, dateKey);
      ghost var daily0, order0 := daily, dayOrder;
      if dateKey !in daily {
        daily := daily[dateKey := ZeroDay];
        dayOrder := dayOrder + [dateKey];
      }
      var bucket := daily[dateKey];
      assert bucket == before;
      bucket := bucket.(totalQueries := bucket.totalQueries + 1);
      bucket := bucket.(totalTokens := bucket.totalTokens + tokens);
      bucket := bucket.(totalLatencyMs := bucket.totalLatencyMs + latencyMs);
      if refused {
        bucket := bucket.(refusedCount := bucket.refusedCount + 1);
      }
      assert bucket == expected[dateKey];
      daily := daily[dateKey := bucket];
      assert daily == daily0[dateKey := bucket];
      assert daily == expected;
      assert dayOrder == expectedOrder;
      CountQueryKeepsDays(order0, daily0, dateKey, tokens, latencyMs, refused);
    }

    /** `log_error`: record an error and count it in its day if that day already has a bucket. */
    method LogError(timestamp: string, dateKey: string, kind: string, message: string,
                    context: Option<map<string, string>>)
      requires Valid()
      modifies this
      ensures Valid()
      ensures errors == Evicting(old(errors), NewError(timestamp, kind, message, context), MaxErrors)
      ensures daily == CountError(old(daily), dateKey)
      ensures dayOrder == old(dayOrder) && interactions == old(interactions)
    {
      var record := NewError(timestamp, kind, message, context);
      ghost var expectedLog := Evicting(errors, record, MaxErrors);
      ghost var expectedDays := CountError(daily, dateKey);
      errors := errors + [record];
      CountErrorKeepsDays(dayOrder, daily, dateKey);
      if dateKey in daily {
        daily := daily[dateKey := daily[dateKey].(errorCount := daily[dateKey].errorCount + 1)];
      }
      assert daily == expectedDays;
      if |errors| > MaxErrors {
        errors := errors[1..];
      }
      assert errors == expectedLog;
    }

    /** The total tokens the store's summary reports are the input plus output tokens of its records. */
    lemma SummaryTokensOfStore()
      requires Valid()
      ensures Summarize(interactions, errors, daily, dayOrder).totalTokens == TokensUsed(interactions)
    {
      SummaryTotalTokens(interactions, errors, daily, dayOrder);
    }

    /** `clear_metrics`: empty all three stores; always reports success. */
    method Clear() returns (ok: bool)
      modifies this
      ensures Valid()
      ensures interactions == [] && errors == [] && daily == map[] && dayOrder == []
      ensures ok
    {
      interactions := [];
      errors := [];
      daily := map[];
      dayOrder := [];
      ok := true;
    }
  }

  /** Logging an error never adds a day bucket, whatever the date. */
  lemma ErrorNeverCreatesDay(daily: map<string, DayStats>, dateKey: string)
    ensures dateKey !in daily ==> CountError(daily, dateKey) == daily
    ensures |CountError(daily, dateKey)| == |daily|
  {
    assert CountError(daily, dateKey).Keys == daily.Keys;
  }

  // ---------------------------------------------------------------------
  // The summary

  predicate SortedAscending(s: seq<int>) {
    forall i, j :: 0 <= i < j < |s| ==> s[i] <= s[j]
  }

  function Insert(x: int, s: seq<int>): (r: seq<int>)
    requires SortedAscending(s)
    ensures SortedAscending(r)
    ensures multiset(r) == multiset(s) + multiset{x}
  {
    if s == [] || x <= s[0] then [x] + s
    else
      var tail := Insert(x, s[1..]);
      assert s == [s[0]] + s[1..];
      HeadBelowInserted(s, x, tail);
      [s[0]] + tail
  }

  /** The head of a sorted sequence is below everything once a larger value is inserted into its rest. */
  lemma HeadBelowInserted(s: seq<int>, x: int, tail: seq<int>)
    requires SortedAscending(s) && s != [] && s[0] < x
    requires multiset(tail) == multiset(s[1..]) + multiset{x}
    ensures forall k :: 0 <= k < |tail| ==> s[0] <= tail[k]
  {
    forall k | 0 <= k < |tail| ensures s[0] <= tail[k] {
      assert tail[k] in multiset(tail);
      if tail[k] != x {
        assert tail[k] in multiset(s[1..]);
        assert tail[k] in s[1..];
        var m :| 0 <= m < |s| - 1 && s[1..][m] == tail[k];
        assert s[m + 1] == tail[k];
      }
    }
  }

  /** Python `sorted` on integers: the ascending permutation of `s`. */
  function Sort(s: seq<int>): (r: seq<int>)
    ensures SortedAscending(r)
    ensures multiset(r) == multiset(s)
    ensures |r| == |s|
  {
    if s == [] then []
    else
      assert s == [s[0]] + s[1..];
      var r := Insert(s[0], Sort(s[1..]));
      assert |r| == |multiset(r)|;
      r
  }

  function Latencies(log: seq<Interaction>): seq<int> {
    seq(|log|, i requires 0 <= i < |log| => log[i].latencyMs)
  }

  function TokenTotals(log: seq<Interaction>): seq<int> {
    seq(|log|, i requires 0 <= i < |log| => log[i].tokensTotal)
  }

  function Sum(s: seq<int>): int {
    if s == [] then 0 else s[0] + Sum(s[1..])
  }

  function SumConfidence(log: seq<Interaction>): real {
    if log == [] then 0.0 else log[0].confidence + SumConfidence(log[1..])
  }

  function CountRefused(log: seq<Interaction>): nat {
    if log == [] then 0 else (if log[0].wasRefused then 1 else 0) + CountRefused(log[1..])
  }

  /** `len(latencies) // 2`. */
  function P50Index(n: nat): nat {
    n / 2
  }

  /** `int(len(latencies) * 0.95)`, taken as exact integer arithmetic. */
  function P95Index(n: nat): nat {
    n * 95 / 100
  }

  /** For a non-empty sample both percentile indices are in range, p50's never after p95's. */
  lemma PercentileIndicesInRange(n: nat)
    requires n >= 1
    ensures P50Index(n) <= P95Index(n) < n
    ensures n == 20 ==> P95Index(n) == 19
  {
    assert n * 95 < n * 100;
    assert (n / 2) * 100 <= n * 50 <= n * 95;
  }

  function AverageLatency(log: seq<Interaction>): real
    requires log != []
  {
    Sum(Latencies(log)) as real / |log| as real
  }

  /** `latencies[p50_idx]` over the sorted latencies. */
  function P50Latency(log: seq<Interaction>): (r: int)
    requires log != []
    ensures r in Latencies(log)
  {
    SortedElementInSample(Latencies(log), P50Index(|log|));
    Sort(Latencies(log))[P50Index(|log|)]
  }

  /** `latencies[p95_idx] if len(latencies) > 1 else latencies[-1]` over the sorted latencies. */
  function P95Latency(log: seq<Interaction>): (r: int)
    requires log != []
    ensures r in Latencies(log)
  {
    var n := |log|;
    PercentileIndicesInRange(n);
    SortedElementInSample(Latencies(log), if n > 1 then P95Index(n) else n - 1);
    if n > 1 then Sort(Latencies(log))[P95Index(n)] else Sort(Latencies(log))[n - 1]
  }

  /** The percentage of logged interactions that were refused. */
  function RefusedRate(log: seq<Interaction>): real
    requires log != []
  {
    CountRefused(log) as real / |log| as real * 100.0
  }

  /** The dictionary entries for the given keys, in that order. */
  function DayEntries(keys: seq<string>, daily: map<string, DayStats>): seq<(string, DayStats)>
    requires forall i :: 0 <= i < |keys| ==> keys[i] in daily
  {
    seq(|keys|, i requires 0 <= i < |keys| => (keys[i], daily[keys[i]]))
  }

  /** `dict(list(daily_stats.items())[-7:])`: the last seven buckets in insertion order. */
  function RecentDays(dayOrder: seq<string>, daily: map<string, DayStats>): (r: seq<(string, DayStats)>)
    requires forall i :: 0 <= i < |dayOrder| ==> dayOrder[i] in daily
    ensures |r| == Min(RecentDaysShown, |dayOrder|)
    ensures forall i :: 0 <= i < |r| ==>
      var key := dayOrder[|dayOrder| - |r| + i]; r[i] == (key, daily[key])
  {
    var keys := SliceFrom(dayOrder, -(RecentDaysShown as int));
    assert forall i :: 0 <= i < |keys| ==> keys[i] == dayOrder[|dayOrder| - |keys| + i];
    DayEntries(keys, daily)
  }

  /**
   * What `get_metrics_summary` reports: a short form for an empty log, the full
   * form otherwise. The fields the two forms share have the same names.
   */
  datatype MetricsSummary =
    | NoInteractions(
        totalQueries: nat,
        averageLatencyMs: real,
        totalTokens: int,
        recentInteractions: seq<Interaction>,
        dailyStats: seq<(string, DayStats)>,
        errorCount: nat)
    | Snapshot(
        totalQueries: nat,
        averageLatencyMs: real,
        p50LatencyMs: int,
        p95LatencyMs: int,
        totalTokens: int,
        avgTokensPerQuery: real,
        averageConfidence: real,
        refusedRate: real,
        errorCount: nat,
        recentInteractions: seq<Interaction>,
        recentErrors: seq<ErrorRecord>,
        dailyStats: seq<(string, DayStats)>)

  /** `get_metrics_summary` over the store's contents. */
  function Summarize(interactions: seq<Interaction>, errors: seq<ErrorRecord>,
                     daily: map<string, DayStats>, dayOrder: seq<string>): (r: MetricsSummary)
    requires forall i :: 0 <= i < |dayOrder| ==> dayOrder[i] in daily
    ensures r.NoInteractions? <==> interactions == []
    ensures r.totalQueries == |interactions|
    ensures r.errorCount == |errors|
    ensures interactions == [] ==>
      && r.averageLatencyMs == 0.0
      && r.totalTokens == 0
      && r.recentInteractions == []
      && r.dailyStats == []
  {
    if interactions == [] then NoInteractions(0, 0.0, 0, [], [], |errors|)
    else
      var n := |interactions|;
      var totalTokens := Sum(TokenTotals(interactions));
      Snapshot(
        n,
        AverageLatency(interactions),
        P50Latency(interactions),
        P95Latency(interactions),
        totalTokens,
        totalTokens as real / n as real,
        SumConfidence(interactions) / n as real,
        RefusedRate(interactions),
        |errors|,
        NewestFirst(interactions, RecentInteractionsShown),
        NewestFirst(errors, RecentErrorsShown),
        RecentDays(dayOrder, daily))
  }

  // ---------------------------------------------------------------------
  // What the summary promises

  lemma SortedElementInSample(s: seq<int>, k: nat)
    requires k < |s|
    ensures k < |Sort(s)| && Sort(s)[k] in s
  {
    var sorted := Sort(s);
    assert sorted[k] in multiset(sorted);
  }

  /** A value shared by two sequences with the same elements. */
  lemma MemberOfPermutation(a: seq<int>, b: seq<int>, v: int)
    requires multiset(a) == multiset(b) && v in a
    ensures v in b
  {
    assert v in multiset(a);
  }

  /** The last element of a sorted sequence is its largest. */
  lemma SortedLastIsLargest(t: seq<int>, v: int)
    requires SortedAscending(t) && v in t
    ensures v <= t[|t| - 1]
  {
    var j :| 0 <= j < |t| && t[j] == v;
    if j < |t| - 1 {
      assert t[j] <= t[|t| - 1];
    }
  }

  /** The p50 latency never exceeds the p95 latency. */
  lemma P50AtMostP95(log: seq<Interaction>)
    requires log != []
    ensures P50Latency(log) <= P95Latency(log)
  {
    var n := |log|;
    var sorted := Sort(Latencies(log));
    PercentileIndicesInRange(n);
    var k95 := if n > 1 then P95Index(n) else n - 1;
    assert P50Latency(log) == sorted[P50Index(n)];
    assert P95Latency(log) == sorted[k95];
    if P50Index(n) < k95 {
      assert sorted[P50Index(n)] <= sorted[k95];
    }
  }

  /** With twenty interactions, p95 is the largest latency of the sample. */
  lemma P95OfTwentyIsLargest(log: seq<Interaction>)
    requires |log| == 20
    ensures forall i :: 0 <= i < 20 ==> log[i].latencyMs <= P95Latency(log)
  {
    var sample := Latencies(log);
    var sorted := Sort(sample);
    PercentileIndicesInRange(20);
    assert P95Latency(log) == sorted[19];
    forall i | 0 <= i < 20 ensures log[i].latencyMs <= sorted[19] {
      assert sample[i] == log[i].latencyMs;
      MemberOfPermutation(sample, sorted, sample[i]);
      SortedLastIsLargest(sorted, sample[i]);
    }
  }

  /**
   * p50 and p95 are latencies of logged interactions and p50 <= p95; with
   * twenty interactions p95 is the largest latency of the sample.
   */
  lemma PercentilesOfLog(log: seq<Interaction>)
    requires log != []
    ensures P50Latency(log) in Latencies(log)
    ensures P95Latency(log) in Latencies(log)
    ensures P50Latency(log) <= P95Latency(log)
    ensures |log| == 20 ==> forall i :: 0 <= i < 20 ==> log[i].latencyMs <= P95Latency(log)
  {
    P50AtMostP95(log);
    if |log| == 20 {
      P95OfTwentyIsLargest(log);
    }
  }

  /** The summary reports the percentiles of the log, so the properties above hold of it. */
  lemma SummaryPercentiles(interactions: seq<Interaction>, errors: seq<ErrorRecord>,
                           daily: map<string, DayStats>, dayOrder: seq<string>)
    requires interactions != []
    requires forall i :: 0 <= i < |dayOrder| ==> dayOrder[i] in daily
    ensures var r := Summarize(interactions, errors, daily, dayOrder);
      && r.p50LatencyMs in Latencies(interactions)
      && r.p95LatencyMs in Latencies(interactions)
      && r.p50LatencyMs <= r.p95LatencyMs
      && (|interactions| == 20 ==>
            forall i :: 0 <= i < 20 ==> interactions[i].latencyMs <= r.p95LatencyMs)
  {
    var r := Summarize(interactions, errors, daily, dayOrder);
    assert r.p50LatencyMs == P50Latency(interactions);
    assert r.p95LatencyMs == P95Latency(interactions);
    PercentilesOfLog(interactions);
  }

  lemma {:induction false} SumBounds(s: seq<int>, lo: int, hi: int)
    requires forall i :: 0 <= i < |s| ==> lo <= s[i] <= hi
    ensures |s| * lo <= Sum(s) <= |s| * hi
  {
    if s != [] {
      SumBounds(s[1..], lo, hi);
    }
  }

  lemma QuotientBounds(sum: real, n: real, lo: real, hi: real)
    requires n > 0.0 && n * lo <= sum <= n * hi
    ensures lo <= sum / n <= hi
  {
    assert sum / n * n == sum;
  }

  /** Integer bounds on a total carry over to the real-valued mean. */
  lemma MeanBounds(sum: int, n: int, lo: int, hi: int)
    requires n > 0 && n * lo <= sum <= n * hi
    ensures lo as real <= sum as real / n as real <= hi as real
  {
    assert (n * lo) as real == n as real * lo as real;
    assert (n * hi) as real == n as real * hi as real;
    QuotientBounds(sum as real, n as real, lo as real, hi as real);
  }

  /** The mean latency lies within any bounds that hold for every logged latency. */
  lemma AverageLatencyBounds(log: seq<Interaction>, lo: int, hi: int)
    requires log != []
    requires forall i :: 0 <= i < |log| ==> lo <= log[i].latencyMs <= hi
    ensures lo as real <= AverageLatency(log) <= hi as real
  {
    var sample := Latencies(log);
    SumBounds(sample, lo, hi);
    MeanBounds(Sum(sample), |log|, lo, hi);
  }

  /** The summary's average latency lies within any bounds that hold for every logged latency. */
  lemma SummaryAverageLatencyBounds(interactions: seq<Interaction>, errors: seq<ErrorRecord>,
                                    daily: map<string, DayStats>, dayOrder: seq<string>, lo: int, hi: int)
    requires interactions != []
    requires forall i :: 0 <= i < |dayOrder| ==> dayOrder[i] in daily
    requires forall i :: 0 <= i < |interactions| ==> lo <= interactions[i].latencyMs <= hi
    ensures var r := Summarize(interactions, errors, daily, dayOrder);
      lo as real <= r.averageLatencyMs <= hi as real
  {
    var r := Summarize(interactions, errors, daily, dayOrder);
    assert r.averageLatencyMs == AverageLatency(interactions);
    AverageLatencyBounds(interactions, lo, hi);
  }

  lemma {:induction false} SumConfidenceBounds(log: seq<Interaction>, lo: real, hi: real)
    requires forall i :: 0 <= i < |log| ==> lo <= log[i].confidence <= hi
    ensures |log| as real * lo <= SumConfidence(log) <= |log| as real * hi
  {
    if log != [] {
      SumConfidenceBounds(log[1..], lo, hi);
    }
  }

  /** The mean confidence lies within any bounds that hold for every logged confidence. */
  lemma AverageConfidenceBounds(log: seq<Interaction>, lo: real, hi: real)
    requires log != []
    requires forall i :: 0 <= i < |log| ==> lo <= log[i].confidence <= hi
    ensures lo <= SumConfidence(log) / |log| as real <= hi
  {
    SumConfidenceBounds(log, lo, hi);
    QuotientBounds(SumConfidence(log), |log| as real, lo, hi);
  }

  /** The summary's average confidence lies within any bounds that hold for every logged confidence. */
  lemma SummaryAverageConfidenceBounds(interactions: seq<Interaction>, errors: seq<ErrorRecord>,
                                       daily: map<string, DayStats>, dayOrder: seq<string>, lo: real, hi: real)
    requires interactions != []
    requires forall i :: 0 <= i < |dayOrder| ==> dayOrder[i] in daily
    requires forall i :: 0 <= i < |interactions| ==> lo <= interactions[i].confidence <= hi
    ensures var r := Summarize(interactions, errors, daily, dayOrder);
      lo <= r.averageConfidence <= hi
  {
    var r := Summarize(interactions, errors, daily, dayOrder);
    assert r.averageConfidence == SumConfidence(interactions) / |interactions| as real;
    AverageConfidenceBounds(interactions, lo, hi);
  }

  /** The input and output tokens of the logged records, added up. */
  function TokensUsed(log: seq<Interaction>): int {
    if log == [] then 0 else log[0].tokensInput + log[0].tokensOutput + TokensUsed(log[1..])
  }

  /** When every record's total is its input plus its output tokens, so is the sum of the totals. */
  lemma {:induction false} SumTokenTotals(log: seq<Interaction>)
    requires forall i :: 0 <= i < |log| ==> log[i].tokensTotal == log[i].tokensInput + log[i].tokensOutput
    ensures Sum(TokenTotals(log)) == TokensUsed(log)
  {
    if log != [] {
      assert TokenTotals(log)[1..] == TokenTotals(log[1..]);
      SumTokenTotals(log[1..]);
    }
  }

  /**
   * The summary's total tokens are the input plus output tokens of all logged
   * records, as `log_interaction` builds them.
   */
  lemma SummaryTotalTokens(interactions: seq<Interaction>, errors: seq<ErrorRecord>,
                           daily: map<string, DayStats>, dayOrder: seq<string>)
    requires forall i :: 0 <= i < |dayOrder| ==> dayOrder[i] in daily
    requires forall i :: 0 <= i < |interactions| ==>
      interactions[i].tokensTotal == interactions[i].tokensInput + interactions[i].tokensOutput
    ensures Summarize(interactions, errors, daily, dayOrder).totalTokens == TokensUsed(interactions)
  {
    if interactions != [] {
      var r := Summarize(interactions, errors, daily, dayOrder);
      assert r.totalTokens == Sum(TokenTotals(interactions));
      SumTokenTotals(interactions);
    }
  }

  lemma {:induction false} CountRefusedAtMost(log: seq<Interaction>)
    ensures CountRefused(log) <= |log|
  {
    if log != [] {
      CountRefusedAtMost(log[1..]);
    }
  }

  /** Refusals are among the logged queries, so the refused rate is a percentage. */
  lemma SummaryRefusedRate(interactions: seq<Interaction>, errors: seq<ErrorRecord>,
                           daily: map<string, DayStats>, dayOrder: seq<string>)
    requires interactions != []
    requires forall i :: 0 <= i < |dayOrder| ==> dayOrder[i] in daily
    ensures var r := Summarize(interactions, errors, daily, dayOrder);
      0.0 <= r.refusedRate <= 100.0
  {
    var r := Summarize(interactions, errors, daily, dayOrder);
    assert r.refusedRate == RefusedRate(interactions);
    CountRefusedAtMost(interactions);
    MeanBounds(CountRefused(interactions), |interactions|, 0, 1);
  }

  /** The summary's recent interactions are the last ten logged, newest first. */
  lemma SummaryRecentInteractions(interactions: seq<Interaction>, errors: seq<ErrorRecord>,
                                  daily: map<string, DayStats>, dayOrder: seq<string>)
    requires interactions != []
    requires forall i :: 0 <= i < |dayOrder| ==> dayOrder[i] in daily
    ensures var r := Summarize(interactions, errors, daily, dayOrder);
      && |r.recentInteractions| == Min(RecentInteractionsShown, |interactions|)
      && (forall i :: 0 <= i < |r.recentInteractions| ==>
            r.recentInteractions[i] == interactions[|interactions| - 1 - i])
  {
    var r := Summarize(interactions, errors, daily, dayOrder);
    assert r.recentInteractions == NewestFirst(interactions, RecentInteractionsShown);
    NewestFirstWindow(interactions, RecentInteractionsShown);
  }

  /** The summary's recent errors are the last five logged, newest first. */
  lemma SummaryRecentErrors(interactions: seq<Interaction>, errors: seq<ErrorRecord>,
                            daily: map<string, DayStats>, dayOrder: seq<string>)
    requires interactions != []
    requires forall i :: 0 <= i < |dayOrder| ==> dayOrder[i] in daily
    ensures var r := Summarize(interactions, errors, daily, dayOrder);
      && |r.recentErrors| == Min(RecentErrorsShown, |errors|)
      && (forall i :: 0 <= i < |r.recentErrors| ==> r.recentErrors[i] == errors[|errors| - 1 - i])
  {
    var r := Summarize(interactions, errors, daily, dayOrder);
    assert r.recentErrors == NewestFirst(errors, RecentErrorsShown);
    NewestFirstWindow(errors, RecentErrorsShown);
  }

  /**
   * The summary's daily stats are the window `RecentDays` describes: the buckets
   * of the last seven dates, in insertion order.
   */
  lemma SummaryRecentDays(interactions: seq<Interaction>, errors: seq<ErrorRecord>,
                          daily: map<string, DayStats>, dayOrder: seq<string>)
    requires interactions != []
    requires forall i :: 0 <= i < |dayOrder| ==> dayOrder[i] in daily
    ensures Summarize(interactions, errors, daily, dayOrder).dailyStats == RecentDays(dayOrder, daily)
    ensures |Summarize(interactions, errors, daily, dayOrder).dailyStats| == Min(RecentDaysShown, |dayOrder|)
  {
  }

  /** Right after `log_interaction`, the summary shows the new record first. */
  lemma LoggedInteractionShownFirst(interactions: seq<Interaction>, x: Interaction,
                                    errors: seq<ErrorRecord>, daily: map<string, DayStats>,
                                    dayOrder: seq<string>)
    requires |interactions| <= MaxInteractions
    requires forall i :: 0 <= i < |dayOrder| ==> dayOrder[i] in daily
    ensures var r := Summarize(Evicting(interactions, x, MaxInteractions), errors, daily, dayOrder);
      r.Snapshot? && r.recentInteractions != [] && r.recentInteractions[0] == x
  {
    var log := Evicting(interactions, x, MaxInteractions);
    EvictingKeepsNewest(interactions, x, MaxInteractions);
    SummaryRecentInteractions(log, errors, daily, dayOrder);
  }

  // ---------------------------------------------------------------------
  // The history query

  /** The records of one session, in log order. */
  function Matching(log: seq<Interaction>, sessionId: string): (r: seq<Interaction>)
    ensures |r| <= |log|
    ensures forall x :: x in r <==> x in log && x.sessionId == sessionId
  {
    if log == [] then []
    else
      var rest := Matching(log[1..], sessionId);
      assert forall x :: x in log <==> x == log[0] || x in log[1..];
      if log[0].sessionId == sessionId then [log[0]] + rest else rest
  }

  /** Selecting a session's records keeps log order: a record appended to the log is appended to its session's selection. */
  lemma {:induction false} MatchingAppend(log: seq<Interaction>, x: Interaction, sessionId: string)
    ensures Matching(log + [x], sessionId) ==
      Matching(log, sessionId) + (if x.sessionId == sessionId then [x] else [])
  {
    if log != [] {
      assert (log + [x])[1..] == log[1..] + [x];
      MatchingAppend(log[1..], x, sessionId);
    } else {
      assert Matching([x], sessionId) == (if x.sessionId == sessionId then [x] else []) + Matching([], sessionId);
    }
  }

  /** `get_interaction_history`: a non-empty session id selects that session's records. */
  function History(log: seq<Interaction>, sessionId: Option<string>, limit: int): (r: seq<Interaction>)
    ensures |r| <= |log|
    ensures forall i :: 0 <= i < |r| ==> r[i] in Selected(log, sessionId)
  {
    NewestFirstFromSource(Selected(log, sessionId), limit);
    NewestFirst(Selected(log, sessionId), limit)
  }

  /** The records the history draws from: that session's when the id is non-empty, else the whole log. */
  function Selected(log: seq<Interaction>, sessionId: Option<string>): (r: seq<Interaction>)
    ensures |r| <= |log|
    ensures forall x :: x in r <==>
      x in log && (sessionId.Some? && sessionId.value != "" ==> x.sessionId == sessionId.value)
  {
    if sessionId.Some? && sessionId.value != "" then Matching(log, sessionId.value) else log
  }

  /** With a non-empty session id, the history holds only logged records of that session. */
  lemma HistoryOnlySession(log: seq<Interaction>, sessionId: string, limit: int)
    requires sessionId != ""
    ensures forall i :: 0 <= i < |History(log, Some(sessionId), limit)| ==>
      var x := History(log, Some(sessionId), limit)[i]; x.sessionId == sessionId && x in log
  {
    var source := Matching(log, sessionId);
    assert Selected(log, Some(sessionId)) == source;
    NewestFirstFromSource(source, limit);
  }

  /**
   * For a positive limit the history is the newest `limit` selected records,
   * newest first: every matching record when there are no more than `limit`.
   */
  lemma HistoryNewestFirst(log: seq<Interaction>, sessionId: Option<string>, limit: int)
    requires limit >= 1
    ensures |History(log, sessionId, limit)| == Min(limit, |Selected(log, sessionId)|)
    ensures forall i :: 0 <= i < |History(log, sessionId, limit)| ==>
      History(log, sessionId, limit)[i] == Selected(log, sessionId)[|Selected(log, sessionId)| - 1 - i]
  {
    NewestFirstWindow(Selected(log, sessionId), limit);
  }

  /**
   * Python's `[-limit:]` with `limit = 0` is `[0:]`: the whole selection,
   * reversed; a negative limit drops the oldest `-limit` records instead.
   */
  lemma HistoryNonPositiveLimit(log: seq<Interaction>, sessionId: Option<string>, limit: int)
    requires limit <= 0
    ensures |History(log, sessionId, limit)| ==
      if -limit <= |Selected(log, sessionId)| then |Selected(log, sessionId)| + limit else 0
    ensures forall i :: 0 <= i < |History(log, sessionId, limit)| ==>
      History(log, sessionId, limit)[i] == Selected(log, sessionId)[|Selected(log, sessionId)| - 1 - i]
    ensures limit == 0 ==> |History(log, sessionId, limit)| == |Selected(log, sessionId)|
  {
  }

  /** Right after `log_interaction`, that session's history starts with the new record. */
  lemma LoggedInteractionHeadsHistory(log: seq<Interaction>, x: Interaction, limit: int)
    requires |log| <= MaxInteractions && x.sessionId != "" && limit >= 1
    ensures var h := History(Evicting(log, x, MaxInteractions), Some(x.sessionId), limit);
      h != [] && h[0] == x
  {
    var log' := Evicting(log, x, MaxInteractions);
    EvictingKeepsNewest(log, x, MaxInteractions);
    var kept := log'[..|log'| - 1];
    assert log' == kept + [x];
    MatchingAppend(kept, x, x.sessionId);
    HistoryNewestFirst(log', Some(x.sessionId), limit);
  }
}
