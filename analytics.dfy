/** api_analytics, analytics2db and the update_analytics task of
    backend/mp/tasks/update_analytics.py. */
module Analytics {
  import opened Wrappers
  import opened Values
  import opened Windows
  import opened Reconciler
  import opened Accounts
  import opened Tasks
  import Chunks

  /** api.analytics(dt=date_to, days=days_max, metrics=metrics) */
  type MetricFetch = (int, int, seq<string>) -> Result<seq<Record>>

  /** What a non-empty page does to the Analytics table. */
  type TableWriter = (Table, seq<Record>) -> Result<Table>

  /** The fixed inputs of one run: the API, the page writer, today, API_LIMIT_DAYS,
      METRICS and API_LIMIT_METRICS. */
  datatype Sweep = Sweep(fetch: MetricFetch, write: TableWriter, today: int, apiLimit: nat,
                         metrics: seq<string>, metricLimit: nat)

  /** The table the run reached, the (metrics, date_to) of every call made, and total_rows. */
  datatype Tally = Tally(table: Table, calls: seq<(seq<string>, int)>, total: int)

  /** days_limit: days_step when it is given and below API_LIMIT_DAYS, else API_LIMIT_DAYS. */
  function DaysLimit(daysStep: Option<int>, apiLimit: nat): int
  {
    if daysStep.Some? && daysStep.value < apiLimit then daysStep.value else apiLimit
  }

  /** days_max = min(days, days_limit) */
  function DaysMax(days: int, daysStep: Option<int>, apiLimit: nat): int
  {
    Min(days, DaysLimit(daysStep, apiLimit))
  }

  /** One call, an ErrorRequest read as an empty page. */
  function PageOf(s: Sweep, dateTo: int, dm: int, ms: seq<string>): Result<seq<Record>>
  {
    var p := s.fetch(dateTo, dm, ms);
    if p.Err? && p.error == RequestError then Ok([]) else p
  }

  /** The remaining periods of one metrics chunk, from date_to on; analytics2db writes a
      page in one transaction, so a page that fails to be written leaves the table as the
      pages before it left it. */
  function ChunkRun(s: Sweep, t: Table, ms: seq<string>, dateTo: int, dm: int, left: int, total: int,
                   calls: seq<(seq<string>, int)>): End<Tally>
    decreases left
  {
    if left <= 0 then Finished(Tally(t, calls, total))
    else
      var asked := calls + [(ms, dateTo)];
      var p := PageOf(s, dateTo, dm, ms);
      if p.Err? then ApiError(p.error, Tally(t, asked, total))
      else if |p.value| > 0 then
        var w := s.write(t, p.value);
        if w.Err? then OtherError(Tally(t, asked, total))
        else ChunkRun(s, w.value, ms, dateTo - dm, dm, left - 1, total + |p.value|, asked)
      else ChunkRun(s, t, ms, dateTo - dm, dm, left - 1, total, asked)
  }

  /** The remaining metrics chunks, each starting again from today. */
  function MetricChunks(s: Sweep, t: Table, cs: seq<seq<string>>, n: int, dm: int, total: int,
                        calls: seq<(seq<string>, int)>): End<Tally>
    decreases |cs|
  {
    if |cs| == 0 then Finished(Tally(t, calls, total))
    else
      var e := ChunkRun(s, t, cs[0], s.today, dm, n, total, calls);
      if e.Finished? then MetricChunks(s, e.value.table, cs[1..], n, dm, e.value.total, e.value.calls)
      else e
  }

  /** api_analytics(shop, api, days, days_step) */
  function ApiAnalytics(s: Sweep, t: Table, days: int, daysStep: Option<int>): End<Tally>
  {
    var dm := DaysMax(days, daysStep, s.apiLimit);
    var n := Windows.Periods(days, dm);
    if n.Err? then OtherError(Tally(t, [], 0))
    else MetricChunks(s, t, Chunks.Chunks(s.metrics, s.metricLimit), n.value, dm, 0, [])
  }

  /** analytics2db(data, shop): the page reconciled by (date, sku) within the shop. */
  function AnalyticsCall(env: Env, schema: set<string>, shop: nat, data: seq<Record>): Call
  {
    Call(env, data, ["date", "sku"], schema, None, Some(shop))
  }

  function AnalyticsWriter(env: Env, schema: set<string>, shop: nat): TableWriter
  {
    (t: Table, data: seq<Record>) =>
      var o := Reconcile(AnalyticsCall(env, schema, shop, data), t);
      if o.Ok? then Ok(o.value.table) else Err(o.error)
  }

  // ---------------------------------------------------------------- the loops

  method AnalyticsToDb(env: Env, schema: set<string>, shop: nat, t: Table, data: seq<Record>) returns (r: Result<Table>)
    ensures Agrees(r, AnalyticsWriter(env, schema, shop)(t, data))
  {
    var o := BulkInsertUpdate(AnalyticsCall(env, schema, shop, data), t);
    if o.Err? {
      return Err(o.error);
    }
    return Ok(o.value.table);
  }

  /** The inner loop over range(total_periods) for one metrics chunk. */
  method ChunkRunM(s: Sweep, t: Table, ms: seq<string>, dm: int, n: int, total0: int,
                  calls0: seq<(seq<string>, int)>) returns (res: End<Tally>)
    ensures res == ChunkRun(s, t, ms, s.today, dm, n, total0, calls0)
  {
    var dateTo := s.today;
    var cur := t;
    var total := total0;
    var calls := calls0;
    var k := 0;
    while k < n
      invariant ChunkRun(s, t, ms, s.today, dm, n, total0, calls0) == ChunkRun(s, cur, ms, dateTo, dm, n - k, total, calls)
      decreases n - k
    {
      var p := PageOf(s, dateTo, dm, ms);
      calls := calls + [(ms, dateTo)];
      if p.Err? {
        return ApiError(p.error, Tally(cur, calls, total));
      }
      if |p.value| > 0 {
        var w := s.write(cur, p.value);
        if w.Err? {
          return OtherError(Tally(cur, calls, total));
        }
        cur := w.value;
        total := total + |p.value|;
      }
      dateTo := dateTo - dm;
      k := k + 1;
    }
    return Finished(Tally(cur, calls, total));
  }

  /** api_analytics: the outer loop over chunks(METRICS, API_LIMIT_METRICS). */
  method ApiAnalyticsM(s: Sweep, t: Table, days: int, daysStep: Option<int>) returns (res: End<Tally>)
    ensures res == ApiAnalytics(s, t, days, daysStep)
  {
    var dm := DaysMax(days, daysStep, s.apiLimit);
    var n := Windows.Periods(days, dm);
    if n.Err? {
      return OtherError(Tally(t, [], 0));
    }
    var cs := Chunks.Chunks(s.metrics, s.metricLimit);
    var cur := t;
    var total := 0;
    var calls: seq<(seq<string>, int)> := [];
    for i := 0 to |cs|
      invariant MetricChunks(s, t, cs, n.value, dm, 0, []) == MetricChunks(s, cur, cs[i..], n.value, dm, total, calls)
    {
      assert cs[i..][0] == cs[i] && cs[i..][1..] == cs[i + 1..];
      var e := ChunkRunM(s, cur, cs[i], dm, n.value, total, calls);
      if !e.Finished? {
        return e;
      }
      cur := e.value.table;
      total := e.value.total;
      calls := e.value.calls;
    }
    return Finished(Tally(cur, calls, total));
  }

  // ---------------------------------------------------------------- the sync task

  /** What update_analytics leaves: the key, the table, and the result. */
  datatype AnalyticsTask = AnalyticsTask(key: Option<ApiKey>, table: Table, result: TaskResult)

  /** update_analytics(apikey_id, days, days_step): an exception from get_key escapes. */
  function UpdateAnalytics(keyId: Option<nat>, keys: seq<ApiKey>, shops: map<nat, Shop>, now: int,
                           s: Sweep, t: Table, days: int, daysStep: Option<int>): Result<AnalyticsTask>
  {
    if keyId.None? then Ok(AnalyticsTask(None, t, Failure(EmptyKey)))
    else
      var key :- GetKey(keys, shops, keyId, now);
      var e := ApiAnalytics(s, t, days, daysStep);
      var (key', result) := Settle(key, e);
      Ok(AnalyticsTask(Some(key'), e.value.table, result))
  }

  method UpdateAnalyticsM(keyId: Option<nat>, keys: seq<ApiKey>, shops: map<nat, Shop>, now: int,
                          s: Sweep, t: Table, days: int, daysStep: Option<int>) returns (res: Result<AnalyticsTask>)
    ensures res == UpdateAnalytics(keyId, keys, shops, now, s, t, days, daysStep)
  {
    if keyId.None? {
      return Ok(AnalyticsTask(None, t, Failure(EmptyKey)));
    }
    var key := GetKey(keys, shops, keyId, now);
    if key.Err? {
      return Err(key.error);
    }
    var e := ApiAnalyticsM(s, t, days, daysStep);
    var (key', result) := Settle(key.value, e);
    return Ok(AnalyticsTask(Some(key'), e.value.table, result));
  }
}
