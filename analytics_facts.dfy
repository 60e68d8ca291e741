/** The call schedule of api_analytics, its row count, and how update_analytics ends. */
module AnalyticsFacts {
  import opened Wrappers
  import opened Values
  import opened Windows
  import opened Reconciler
  import opened Accounts
  import opened Tasks
  import opened Analytics
  import Chunks
  import RF = ReconcilerFacts

  /** The calls of one metrics chunk: n windows ending at d, d - dm, d - 2 dm, ... */
  function ChunkCalls(ms: seq<string>, d: int, dm: int, n: int): seq<(seq<string>, int)>
    decreases n
  {
    if n <= 0 then [] else [(ms, d)] + ChunkCalls(ms, d - dm, dm, n - 1)
  }

  /** The calls of all chunks, each starting again from today. */
  function Schedule(cs: seq<seq<string>>, today: int, dm: int, n: int): seq<(seq<string>, int)>
  {
    if |cs| == 0 then [] else ChunkCalls(cs[0], today, dm, n) + Schedule(cs[1..], today, dm, n)
  }

  /** The rows delivered by the given calls, a failed request counting as none. */
  function Rows(s: Sweep, dm: int, calls: seq<(seq<string>, int)>): int
  {
    if |calls| == 0 then 0
    else
      var p := PageOf(s, calls[0].1, dm, calls[0].0);
      (if p.Ok? then |p.value| else 0) + Rows(s, dm, calls[1..])
  }

  lemma {:induction false} RowsAppend(s: Sweep, dm: int, a: seq<(seq<string>, int)>, b: seq<(seq<string>, int)>)
    ensures Rows(s, dm, a + b) == Rows(s, dm, a) + Rows(s, dm, b)
  {
    if |a| > 0 {
      assert (a + b)[1..] == a[1..] + b;
      RowsAppend(s, dm, a[1..], b);
    } else {
      assert a + b == b;
    }
  }

  /** The k-th call of a chunk asks for the window ending at d - k * days_max. */
  lemma {:induction false} ChunkCallsAt(ms: seq<string>, d: int, dm: int, n: int)
    ensures |ChunkCalls(ms, d, dm, n)| == Max(n, 0)
    ensures forall k :: 0 <= k < |ChunkCalls(ms, d, dm, n)| ==> ChunkCalls(ms, d, dm, n)[k] == (ms, d - k * dm)
    decreases n
  {
    if n > 0 {
      ChunkCallsAt(ms, d - dm, dm, n - 1);
      var c := ChunkCalls(ms, d, dm, n);
      forall k | 1 <= k < |c| ensures c[k] == (ms, d - k * dm) {
        assert c[k] == ChunkCalls(ms, d - dm, dm, n - 1)[k - 1];
        assert d - dm - (k - 1) * dm == d - k * dm;
      }
    }
  }

  /** A finished chunk made exactly its periods' calls. */
  lemma {:induction false} ChunkRunCalls(s: Sweep, t: Table, ms: seq<string>, d: int, dm: int, left: int, total: int,
                                         calls: seq<(seq<string>, int)>)
    requires ChunkRun(s, t, ms, d, dm, left, total, calls).Finished?
    ensures ChunkRun(s, t, ms, d, dm, left, total, calls).value.calls == calls + ChunkCalls(ms, d, dm, left)
    decreases left
  {
    if left > 0 {
      var page := PageOf(s, d, dm, ms).value;
      var rest := ChunkCalls(ms, d - dm, dm, left - 1);
      assert ChunkCalls(ms, d, dm, left) == [(ms, d)] + rest;
      assert calls + [(ms, d)] + rest == calls + ([(ms, d)] + rest);
      if |page| > 0 {
        ChunkRunCalls(s, s.write(t, page).value, ms, d - dm, dm, left - 1, total + |page|, calls + [(ms, d)]);
      } else {
        ChunkRunCalls(s, t, ms, d - dm, dm, left - 1, total, calls + [(ms, d)]);
      }
    }
  }

  /** A finished chunk counted the rows its calls delivered. */
  lemma {:induction false} ChunkRunTotal(s: Sweep, t: Table, ms: seq<string>, d: int, dm: int, left: int, total: int,
                                         calls: seq<(seq<string>, int)>)
    requires ChunkRun(s, t, ms, d, dm, left, total, calls).Finished?
    ensures ChunkRun(s, t, ms, d, dm, left, total, calls).value.total == total + Rows(s, dm, ChunkCalls(ms, d, dm, left))
    decreases left
  {
    if left > 0 {
      var page := PageOf(s, d, dm, ms).value;
      var rest := ChunkCalls(ms, d - dm, dm, left - 1);
      assert ChunkCalls(ms, d, dm, left) == [(ms, d)] + rest;
      RowsAppend(s, dm, [(ms, d)], rest);
      assert Rows(s, dm, [(ms, d)]) == |page|;
      if |page| > 0 {
        ChunkRunTotal(s, s.write(t, page).value, ms, d - dm, dm, left - 1, total + |page|, calls + [(ms, d)]);
      } else {
        ChunkRunTotal(s, t, ms, d - dm, dm, left - 1, total, calls + [(ms, d)]);
      }
    }
  }

  /** In a finished chunk every request was answered or failed with ErrorRequest. */
  lemma {:induction false} ChunkRunAnswered(s: Sweep, t: Table, ms: seq<string>, d: int, dm: int, left: int, total: int,
                                            calls: seq<(seq<string>, int)>)
    requires ChunkRun(s, t, ms, d, dm, left, total, calls).Finished?
    ensures forall c :: c in ChunkCalls(ms, d, dm, left) ==> PageOf(s, c.1, dm, ms).Ok?
    decreases left
  {
    if left > 0 {
      var page := PageOf(s, d, dm, ms).value;
      if |page| > 0 {
        ChunkRunAnswered(s, s.write(t, page).value, ms, d - dm, dm, left - 1, total + |page|, calls + [(ms, d)]);
      } else {
        ChunkRunAnswered(s, t, ms, d - dm, dm, left - 1, total, calls + [(ms, d)]);
      }
    }
  }

  /** A finished sweep made the whole schedule and counted every delivered row. */
  lemma {:induction false} ChunksRun(s: Sweep, t: Table, cs: seq<seq<string>>, n: int, dm: int, total: int,
                                     calls: seq<(seq<string>, int)>)
    requires MetricChunks(s, t, cs, n, dm, total, calls).Finished?
    ensures var p := MetricChunks(s, t, cs, n, dm, total, calls).value;
      && p.calls == calls + Schedule(cs, s.today, dm, n)
      && p.total == total + Rows(s, dm, Schedule(cs, s.today, dm, n))
    decreases |cs|
  {
    if |cs| > 0 {
      ChunkRunCalls(s, t, cs[0], s.today, dm, n, total, calls);
      ChunkRunTotal(s, t, cs[0], s.today, dm, n, total, calls);
      var e := ChunkRun(s, t, cs[0], s.today, dm, n, total, calls).value;
      ChunksRun(s, e.table, cs[1..], n, dm, e.total, e.calls);
      RowsAppend(s, dm, ChunkCalls(cs[0], s.today, dm, n), Schedule(cs[1..], s.today, dm, n));
    }
  }

  /** The calls of each chunk, chunk by chunk. */
  function PerChunk(cs: seq<seq<string>>, today: int, dm: int, n: int): (r: seq<seq<(seq<string>, int)>>)
    ensures |r| == |cs|
    ensures forall i :: 0 <= i < |cs| ==> r[i] == ChunkCalls(cs[i], today, dm, n)
  {
    seq(|cs|, i requires 0 <= i < |cs| => ChunkCalls(cs[i], today, dm, n))
  }

  /** The schedule is the chunks' calls one chunk after the other, max(n, 0) for each. */
  lemma {:induction false} ScheduleAt(cs: seq<seq<string>>, today: int, dm: int, n: int)
    ensures Schedule(cs, today, dm, n) == Chunks.Concat(PerChunk(cs, today, dm, n))
    ensures |Schedule(cs, today, dm, n)| == |cs| * Max(n, 0)
  {
    if |cs| > 0 {
      ScheduleAt(cs[1..], today, dm, n);
      ChunkCallsAt(cs[0], today, dm, n);
      assert PerChunk(cs, today, dm, n)[1..] == PerChunk(cs[1..], today, dm, n);
      assert |cs| * Max(n, 0) == Max(n, 0) + (|cs| - 1) * Max(n, 0);
    }
  }

  /** A finished api_analytics run: days_max is not zero, it made for every metrics chunk,
      one chunk after the other, max(ceil(days / days_max), 0) calls whose windows start
      again at today (ChunkCallsAt gives the k-th), every request was answered or failed
      with ErrorRequest, and total_rows counts the rows delivered. */
  lemma AnalyticsSchedule(s: Sweep, t: Table, days: int, daysStep: Option<int>)
    requires ApiAnalytics(s, t, days, daysStep).Finished?
    ensures var dm := DaysMax(days, daysStep, s.apiLimit);
      var n := Max(CeilDiv(days, dm), 0);
      var cs := Chunks.Chunks(s.metrics, s.metricLimit);
      var p := ApiAnalytics(s, t, days, daysStep).value;
      && dm != 0
      && p.calls == Chunks.Concat(PerChunk(cs, s.today, dm, n))
      && |p.calls| == |cs| * n
      && (forall c :: c in p.calls ==> PageOf(s, c.1, dm, c.0).Ok?)
      && p.total == Rows(s, dm, p.calls)
  {
    var dm := DaysMax(days, daysStep, s.apiLimit);
    var n := Windows.Periods(days, dm).value;
    var cs := Chunks.Chunks(s.metrics, s.metricLimit);
    ChunksRun(s, t, cs, n, dm, 0, []);
    ChunksAnswered(s, t, cs, n, dm, 0, []);
    var m := Max(n, 0);
    ScheduleClamp(cs, s.today, dm, n);
    ScheduleAt(cs, s.today, dm, m);
    assert PerChunk(cs, s.today, dm, n) == PerChunk(cs, s.today, dm, m) by {
      forall i | 0 <= i < |cs| ensures ChunkCalls(cs[i], s.today, dm, n) == ChunkCalls(cs[i], s.today, dm, m) {
        ChunkCallsClamp(cs[i], s.today, dm, n);
      }
    }
  }

  /** In a finished sweep every request was answered or failed with ErrorRequest. */
  lemma {:induction false} ChunksAnswered(s: Sweep, t: Table, cs: seq<seq<string>>, n: int, dm: int, total: int,
                                          calls: seq<(seq<string>, int)>)
    requires MetricChunks(s, t, cs, n, dm, total, calls).Finished?
    ensures forall c :: c in Schedule(cs, s.today, dm, n) ==> PageOf(s, c.1, dm, c.0).Ok?
    decreases |cs|
  {
    if |cs| > 0 {
      ChunkRunAnswered(s, t, cs[0], s.today, dm, n, total, calls);
      ChunkCallsAt(cs[0], s.today, dm, n);
      var e := ChunkRun(s, t, cs[0], s.today, dm, n, total, calls).value;
      ChunksAnswered(s, e.table, cs[1..], n, dm, e.total, e.calls);
    }
  }

  // ---------------------------------------------------------------- the store reached

  /** The table reached by the given calls' pages, written in order, each in its own
      transaction: an empty page writes nothing, and the first call or write that fails
      stops the writes with its exception. */
  function SweptThrough(s: Sweep, dm: int, t: Table, calls: seq<(seq<string>, int)>): Committed<Table>
    decreases |calls|
  {
    if |calls| == 0 then Committed(t, None)
    else
      var p := PageOf(s, calls[0].1, dm, calls[0].0);
      if p.Err? then Committed(t, Some(p.error))
      else if |p.value| == 0 then SweptThrough(s, dm, t, calls[1..])
      else
        var w := s.write(t, p.value);
        if w.Err? then Committed(t, Some(w.error))
        else SweptThrough(s, dm, w.value, calls[1..])
  }

  /** Calls that all went through can be written first and the rest after. */
  lemma {:induction false} SweptAppend(s: Sweep, dm: int, t: Table, a: seq<(seq<string>, int)>, b: seq<(seq<string>, int)>)
    requires SweptThrough(s, dm, t, a).error.None?
    ensures SweptThrough(s, dm, t, a + b) == SweptThrough(s, dm, SweptThrough(s, dm, t, a).store, b)
    decreases |a|
  {
    if |a| == 0 {
      assert a + b == b;
    } else {
      assert (a + b)[0] == a[0] && (a + b)[1..] == a[1..] + b;
      var p := PageOf(s, a[0].1, dm, a[0].0);
      if |p.value| == 0 {
        SweptAppend(s, dm, t, a[1..], b);
      } else {
        SweptAppend(s, dm, s.write(t, p.value).value, a[1..], b);
      }
    }
  }

  /** However a chunk ends, its table is the one its calls' pages reach, and it ends
      normally exactly when none of those calls or writes failed. */
  lemma {:induction false} ChunkRunStore(s: Sweep, t: Table, ms: seq<string>, d: int, dm: int, left: int, total: int,
                                         calls: seq<(seq<string>, int)>)
    ensures var e := ChunkRun(s, t, ms, d, dm, left, total, calls);
      && |calls| <= |e.value.calls| && e.value.calls[..|calls|] == calls
      && var c := SweptThrough(s, dm, t, e.value.calls[|calls|..]);
      && e.value.table == c.store
      && (e.Finished? <==> c.error.None?)
    decreases left
  {
    var e := ChunkRun(s, t, ms, d, dm, left, total, calls);
    if left > 0 {
      var asked := calls + [(ms, d)];
      var p := PageOf(s, d, dm, ms);
      if p.Ok? && (|p.value| == 0 || s.write(t, p.value).Ok?) {
        var t' := if |p.value| == 0 then t else s.write(t, p.value).value;
        var total' := if |p.value| == 0 then total else total + |p.value|;
        ChunkRunStore(s, t', ms, d - dm, dm, left - 1, total', asked);
        assert e.value.calls[..|calls|] == e.value.calls[..|asked|][..|calls|];
        assert e.value.calls[|calls|..] == [(ms, d)] + e.value.calls[|asked|..];
      } else {
        assert e.value.calls[|calls|..] == [(ms, d)];
      }
    } else {
      assert e.value.calls[|calls|..] == [];
    }
  }

  /** However the sweep ends, its table is the one its calls' pages reach, and it ends
      normally exactly when none of those calls or writes failed. */
  lemma {:induction false} MetricChunksStore(s: Sweep, t: Table, cs: seq<seq<string>>, n: int, dm: int, total: int,
                                             calls: seq<(seq<string>, int)>)
    ensures var e := MetricChunks(s, t, cs, n, dm, total, calls);
      && |calls| <= |e.value.calls| && e.value.calls[..|calls|] == calls
      && var c := SweptThrough(s, dm, t, e.value.calls[|calls|..]);
      && e.value.table == c.store
      && (e.Finished? <==> c.error.None?)
    decreases |cs|
  {
    var e := MetricChunks(s, t, cs, n, dm, total, calls);
    if |cs| > 0 {
      var e0 := ChunkRun(s, t, cs[0], s.today, dm, n, total, calls);
      ChunkRunStore(s, t, cs[0], s.today, dm, n, total, calls);
      if e0.Finished? {
        MetricChunksStore(s, e0.value.table, cs[1..], n, dm, e0.value.total, e0.value.calls);
        var mid := e0.value.calls;
        var a := mid[|calls|..];
        var b := e.value.calls[|mid|..];
        assert e.value.calls[..|calls|] == mid[..|calls|];
        assert e.value.calls[|calls|..] == a + b;
        SweptAppend(s, dm, t, a, b);
      }
    } else {
      assert e.value.calls[|calls|..] == [];
    }
  }

  /** api_analytics, however it ends: a zero days_max fails before any call; otherwise the
      table is the one the calls' pages reach, and the run ends normally exactly when
      none of its calls or writes failed. */
  lemma AnalyticsStore(s: Sweep, t: Table, days: int, daysStep: Option<int>)
    ensures var dm := DaysMax(days, daysStep, s.apiLimit);
      var e := ApiAnalytics(s, t, days, daysStep);
      var c := SweptThrough(s, dm, t, e.value.calls);
      && (Windows.Periods(days, dm).Err? ==> e == OtherError(Tally(t, [], 0)))
      && e.value.table == c.store
      && (Windows.Periods(days, dm).Ok? ==> (e.Finished? <==> c.error.None?))
  {
    var dm := DaysMax(days, daysStep, s.apiLimit);
    var n := Windows.Periods(days, dm);
    if n.Ok? {
      MetricChunksStore(s, t, Chunks.Chunks(s.metrics, s.metricLimit), n.value, dm, 0, []);
      var e := ApiAnalytics(s, t, days, daysStep);
      assert e.value.calls[0..] == e.value.calls;
    }
  }

  /** A non-positive period count makes no call, just as zero periods do. */
  lemma ChunkCallsClamp(ms: seq<string>, d: int, dm: int, n: int)
    ensures ChunkCalls(ms, d, dm, n) == ChunkCalls(ms, d, dm, Max(n, 0))
  {
  }

  lemma {:induction false} ScheduleClamp(cs: seq<seq<string>>, today: int, dm: int, n: int)
    ensures Schedule(cs, today, dm, n) == Schedule(cs, today, dm, Max(n, 0))
  {
    if |cs| > 0 {
      ScheduleClamp(cs[1..], today, dm, n);
      ChunkCallsClamp(cs[0], today, dm, n);
    }
  }

  /** Each chunk's windows reach back at least days days and by less than one window more;
      a single window suffices exactly when days is within days_limit. */
  lemma AnalyticsCoverage(days: int, daysStep: Option<int>, apiLimit: nat)
    requires days > 0 && DaysMax(days, daysStep, apiLimit) > 0
    ensures var dm := DaysMax(days, daysStep, apiLimit);
      var n := CeilDiv(days, dm);
      && n >= 1 && (n - 1) * dm < days <= n * dm
      && (n == 1 <==> days <= DaysLimit(daysStep, apiLimit))
  {
    var dm := DaysMax(days, daysStep, apiLimit);
    PeriodsCover(days, dm);
    var n := CeilDiv(days, dm);
    if n == 1 {
      assert days <= dm;
    } else {
      MulGrows(n - 1, dm);
    }
  }

  lemma MulGrows(a: int, b: int)
    requires a >= 1 && b >= 0
    ensures a * b >= b
  {
  }

  /** days_step is used only below API_LIMIT_DAYS; a larger or missing step means the API limit. */
  lemma DaysStepRule(days: int, daysStep: Option<int>, apiLimit: nat)
    ensures daysStep.Some? && daysStep.value < apiLimit ==> DaysMax(days, daysStep, apiLimit) == Min(days, daysStep.value)
    ensures (daysStep.None? || daysStep.value >= apiLimit) ==> DaysMax(days, daysStep, apiLimit) == Min(days, apiLimit)
    ensures DaysMax(days, daysStep, apiLimit) <= days && DaysMax(days, daysStep, apiLimit) <= apiLimit
  {
  }

  /** days = 0, or days_step = 0 below a positive limit, divides by zero. */
  lemma ZeroWindowFails(s: Sweep, t: Table, days: int, daysStep: Option<int>)
    requires (days == 0 && DaysLimit(daysStep, s.apiLimit) >= 0)
          || (days >= 0 && daysStep == Some(0) && s.apiLimit > 0)
    ensures ApiAnalytics(s, t, days, daysStep) == OtherError(Tally(t, [], 0))
  {
  }

  /** A request that fails with ErrorRequest is skipped and the sweep goes on: when every
      request fails so, the run finishes with the table untouched and no rows. */
  lemma {:induction false} FailedRequestsSkipped(s: Sweep, t: Table, ms: seq<string>, d: int, dm: int, left: int,
                                                 total: int, calls: seq<(seq<string>, int)>)
    requires forall d', dm', ms' :: s.fetch(d', dm', ms') == Err(RequestError)
    ensures ChunkRun(s, t, ms, d, dm, left, total, calls).Finished?
    ensures ChunkRun(s, t, ms, d, dm, left, total, calls).value.table == t
    ensures ChunkRun(s, t, ms, d, dm, left, total, calls).value.total == total
    decreases left
  {
    if left > 0 {
      assert PageOf(s, d, dm, ms) == Ok([]);
      FailedRequestsSkipped(s, t, ms, d - dm, dm, left - 1, total, calls + [(ms, d)]);
    }
  }

  /** Any other API exception ends the sweep at once with that exception, the table as the
      earlier pages left it and the failed call recorded. */
  lemma OtherApiErrorStops(s: Sweep, t: Table, ms: seq<string>, d: int, dm: int, left: int, total: int,
                           calls: seq<(seq<string>, int)>, e: Error)
    requires left > 0 && e != RequestError && s.fetch(d, dm, ms) == Err(e)
    ensures ChunkRun(s, t, ms, d, dm, left, total, calls) == ApiError(e, Tally(t, calls + [(ms, d)], total))
  {
  }

  /** update_analytics succeeds exactly when the sweep finishes; a rejected key is switched
      off and a throttled one kept; the table is the one the sweep reached, the pages
      written before a failure included. */
  lemma AnalyticsTaskOutcome(keyId: nat, keys: seq<ApiKey>, shops: map<nat, Shop>, now: int,
                             s: Sweep, t: Table, days: int, daysStep: Option<int>)
    requires GetKey(keys, shops, Some(keyId), now).Ok?
    ensures var key := GetKey(keys, shops, Some(keyId), now).value;
      var e := ApiAnalytics(s, t, days, daysStep);
      var r := UpdateAnalytics(Some(keyId), keys, shops, now, s, t, days, daysStep);
      && r.Ok? && r.value.key.Some?
      && (r.value.result.Success? <==> e.Finished?)
      && (e.ApiError? && e.e == RateLimit ==> r.value.result == Failure(Raised(RateLimit)) && r.value.key == Some(key))
      && (e.ApiError? && e.e == BadApiKey ==> r.value.key == Some(key.(isActive := false)))
      && r.value.table == SweptThrough(s, DaysMax(days, daysStep, s.apiLimit), t, e.value.calls).store
  {
    AnalyticsStore(s, t, days, daysStep);
  }

  // ---------------------------------------------------------------- the writer the sync task uses

  /** The sweep writes a page as api_analytics does: analytics2db for the shop. */
  ghost predicate RealWriter(s: Sweep, env: Env, schema: set<string>, shop: nat)
  {
    forall t: Table, page: seq<Record> :: s.write(t, page) == AnalyticsWriter(env, schema, shop)(t, page)
  }

  /** Every page the sweep writes deletes no row and leaves other shops' rows alone. */
  ghost predicate Keeping(s: Sweep, shop: nat)
  {
    forall t: Table, page: seq<Record> :: ValidTable(t) && s.write(t, page).Ok? ==>
      RF.KeepsOthers(t, s.write(t, page).value, shop)
  }

  lemma RealWriterKeeping(s: Sweep, env: Env, schema: set<string>, shop: nat)
    requires RealWriter(s, env, schema, shop)
    ensures Keeping(s, shop)
  {
    forall t: Table, page: seq<Record> | ValidTable(t) && s.write(t, page).Ok?
      ensures RF.KeepsOthers(t, s.write(t, page).value, shop)
    {
      RF.ReconcileKeepsOthers(AnalyticsCall(env, schema, shop, page), t, shop);
    }
  }

  /** One period of a metrics chunk: the loop goes on from the written table or from the
      table it had, or ends where it began. */
  lemma ChunkRunStep(s: Sweep, t: Table, ms: seq<string>, dateTo: int, dm: int, left: int, total: int,
                     calls: seq<(seq<string>, int)>)
    requires left > 0
    ensures var p := PageOf(s, dateTo, dm, ms);
      var e := ChunkRun(s, t, ms, dateTo, dm, left, total, calls);
      && (p.Err? ==> e.value.table == t)
      && (p.Ok? && |p.value| > 0 && s.write(t, p.value).Err? ==> e.value.table == t)
      && (p.Ok? && |p.value| > 0 && s.write(t, p.value).Ok? ==>
            e == ChunkRun(s, s.write(t, p.value).value, ms, dateTo - dm, dm, left - 1, total + |p.value|, calls + [(ms, dateTo)]))
      && (p.Ok? && |p.value| == 0 ==>
            e == ChunkRun(s, t, ms, dateTo - dm, dm, left - 1, total, calls + [(ms, dateTo)]))
  {
  }

  /** However a metrics chunk ends, it has deleted no row and left other shops' rows alone. */
  lemma {:induction false} ChunkRunKeepsOthers(s: Sweep, shop: nat, t: Table, ms: seq<string>, dateTo: int, dm: int,
                                               left: int, total: int, calls: seq<(seq<string>, int)>)
    requires Keeping(s, shop) && ValidTable(t)
    ensures RF.KeepsOthers(t, ChunkRun(s, t, ms, dateTo, dm, left, total, calls).value.table, shop)
    decreases left
  {
    if left <= 0 {
      RF.KeepsOthersRefl(t, shop);
      return;
    }
    ChunkRunStep(s, t, ms, dateTo, dm, left, total, calls);
    var p := PageOf(s, dateTo, dm, ms);
    var asked := calls + [(ms, dateTo)];
    if p.Err? || (|p.value| > 0 && s.write(t, p.value).Err?) {
      RF.KeepsOthersRefl(t, shop);
    } else if |p.value| > 0 {
      var t1 := s.write(t, p.value).value;
      assert RF.KeepsOthers(t, t1, shop);
      ChunkRunKeepsOthers(s, shop, t1, ms, dateTo - dm, dm, left - 1, total + |p.value|, asked);
      RF.KeepsOthersTrans(t, t1, ChunkRun(s, t1, ms, dateTo - dm, dm, left - 1, total + |p.value|, asked).value.table, shop);
    } else {
      ChunkRunKeepsOthers(s, shop, t, ms, dateTo - dm, dm, left - 1, total, asked);
    }
  }

  lemma {:induction false} MetricChunksKeepOthers(s: Sweep, shop: nat, t: Table, cs: seq<seq<string>>, n: int, dm: int,
                                                  total: int, calls: seq<(seq<string>, int)>)
    requires Keeping(s, shop) && ValidTable(t)
    ensures RF.KeepsOthers(t, MetricChunks(s, t, cs, n, dm, total, calls).value.table, shop)
    decreases |cs|
  {
    if |cs| == 0 {
      RF.KeepsOthersRefl(t, shop);
    } else {
      var e := ChunkRun(s, t, cs[0], s.today, dm, n, total, calls);
      ChunkRunKeepsOthers(s, shop, t, cs[0], s.today, dm, n, total, calls);
      if e.Finished? {
        MetricChunksKeepOthers(s, shop, e.value.table, cs[1..], n, dm, e.value.total, e.value.calls);
        RF.KeepsOthersTrans(t, e.value.table, MetricChunks(s, e.value.table, cs[1..], n, dm, e.value.total, e.value.calls).value.table, shop);
      }
    }
  }

  /** update_analytics for a key of the shop, with pages written by analytics2db, deletes no
      row and changes no row of another shop, however it ends. */
  lemma AnalyticsTaskKeepsOthers(keyId: nat, keys: seq<ApiKey>, shops: map<nat, Shop>, now: int,
                                 s: Sweep, t: Table, days: int, daysStep: Option<int>,
                                 env: Env, schema: set<string>, shop: nat)
    requires GetKey(keys, shops, Some(keyId), now).Ok?
    requires GetKey(keys, shops, Some(keyId), now).value.shop == Some(shop)
    requires RealWriter(s, env, schema, shop) && ValidTable(t)
    ensures RF.KeepsOthers(t, UpdateAnalytics(Some(keyId), keys, shops, now, s, t, days, daysStep).value.table, shop)
  {
    RealWriterKeeping(s, env, schema, shop);
    var dm := DaysMax(days, daysStep, s.apiLimit);
    var n := Windows.Periods(days, dm);
    if n.Err? {
      RF.KeepsOthersRefl(t, shop);
    } else {
      MetricChunksKeepOthers(s, shop, t, Chunks.Chunks(s.metrics, s.metricLimit), n.value, dm, 0, []);
    }
  }
}
