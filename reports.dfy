/** create_campaign_report, new_report and remove_old_report of
    backend/mp/tasks/create_campaign_report.py: report requests are made for the shop's
    campaigns, in windows of days_max going back from today and chunks of campaign ids, and
    each is queued as a pending Report unless the same request is already waiting. */
module Reports {
  import opened Wrappers
  import opened Values
  import opened Windows
  import opened Accounts
  import opened Tasks
  import Chunks
  import Campaigns

  const ReportOldDays: int := 3
  const MaxStatisticsPeriod: int := 60

  /** A Report row: uuid, state and response are unset (None) until the API gives them;
      the instants are seconds. */
  datatype Report = Report(shop: nat, uuid: Option<string>, state: Option<string>, isParsed: bool,
                           conditions: string, response: Option<string>, createdAt: int, updatedAt: int)

  /** The Report table: rows by primary key, and the key the next row gets. */
  datatype ReportTable = ReportTable(rows: map<nat, Report>, nextId: nat)

  predicate ValidReports(t: ReportTable)
  {
    forall id :: id in t.rows ==> id < t.nextId
  }

  // ---------------------------------------------------------------- get_or_create

  /** The filter of get_or_create(conditions=..., is_parsed=False, shop=...). */
  predicate Pending(r: Report, conditions: string, shop: nat)
  {
    r.conditions == conditions && !r.isParsed && r.shop == shop
  }

  /** The pending rows below id n with those conditions, ascending. */
  function PendingIds(rows: map<nat, Report>, n: nat, conditions: string, shop: nat): (ids: seq<nat>)
    ensures forall id :: id in ids <==> id < n && id in rows && Pending(rows[id], conditions, shop)
  {
    if n == 0 then []
    else PendingIds(rows, n - 1, conditions, shop) + (if n - 1 in rows && Pending(rows[n - 1], conditions, shop) then [n - 1] else [])
  }

  /** The number of reports waiting with those conditions. */
  function PendingCount(t: ReportTable, conditions: string, shop: nat): nat
  {
    |PendingIds(t.rows, t.nextId, conditions, shop)|
  }

  /** A report as get_or_create creates it: no uuid, no state, unparsed. */
  function NewReportRow(shop: nat, conditions: string, now: int): Report
  {
    Report(shop, None, None, false, conditions, None, now, now)
  }

  /** Report.objects.get_or_create(conditions=..., is_parsed=False, shop=...) */
  function GetOrCreateReport(t: ReportTable, conditions: string, shop: nat, now: int): Result<ReportTable>
  {
    var n := PendingCount(t, conditions, shop);
    if n > 1 then Err(MultipleObjects)
    else if n == 1 then Ok(t)
    else Ok(ReportTable(t.rows[t.nextId := NewReportRow(shop, conditions, now)], t.nextId + 1))
  }

  // ---------------------------------------------------------------- the campaigns

  /** updated_at__gt=date.today() - timedelta(days=days): after midnight of that day; an
      unset updated_at never matches. */
  predicate UpdatedAfter(v: Value, day: int)
  {
    v.VDateTime? && v.instant > day * SecondsPerDay
  }

  /** The campaign filter: the shop's, and below five days only the running ones or those
      updated within the last days. */
  predicate Selected(row: Record, shop: nat, days: int, today: int)
  {
    && Get(row, "shop") == VRef(shop)
    && (days >= 5 || Get(row, "state") == VStr(Campaigns.Running) || UpdatedAfter(Get(row, "updated_at"), today - days))
  }

  function SelectedIds(campaigns: map<int, Record>, shop: nat, days: int, today: int): set<int>
  {
    set id | id in campaigns && Selected(campaigns[id], shop, days, today)
  }

  /** A non-empty set has an element. */
  lemma Inhabited(s: set<int>)
    requires s != {}
    ensures exists x :: x in s
  {
    if forall x :: x !in s {
      assert false;
    }
  }

  lemma {:induction false} HasMin(s: set<int>)
    requires s != {}
    ensures exists m :: m in s && forall z :: z in s ==> m <= z
  {
    Inhabited(s);
    var x :| x in s;
    if s != {x} {
      HasMin(s - {x});
      var y :| y in s - {x} && forall z :: z in s - {x} ==> y <= z;
      var w := if x < y then x else y;
      forall z | z in s
        ensures w <= z
      {
        if z != x {
          assert z in s - {x};
        }
      }
    } else {
      assert forall z :: z in s ==> x <= z;
    }
  }

  function SetMin(s: set<int>): (m: int)
    requires s != {}
    ensures m in s && forall x :: x in s ==> m <= x
  {
    HasMin(s);
    var m :| m in s && forall x :: x in s ==> m <= x;
    m
  }

  /** The least element in front of the sorted rest is the sorted whole. */
  lemma SortedCons(s: set<int>, m: int, rest: seq<int>)
    requires m in s && forall x :: x in s ==> m <= x
    requires |rest| == |s - {m}| && forall x :: x in rest <==> x in s - {m}
    requires forall i, j :: 0 <= i < j < |rest| ==> rest[i] < rest[j]
    ensures |[m] + rest| == |s| && forall x :: x in [m] + rest <==> x in s
    ensures forall i, j :: 0 <= i < j < |[m] + rest| ==> ([m] + rest)[i] < ([m] + rest)[j]
  {
    var r := [m] + rest;
    forall i, j | 0 <= i < j < |r|
      ensures r[i] < r[j]
    {
      assert r[j] == rest[j - 1] && rest[j - 1] in rest;
      if i > 0 {
        assert r[i] == rest[i - 1];
      }
    }
  }

  /** sorted(list(q)) */
  function SortedIds(s: set<int>): (r: seq<int>)
    ensures |r| == |s| && forall x :: x in r <==> x in s
    ensures forall i, j :: 0 <= i < j < |r| ==> r[i] < r[j]
    decreases |s|
  {
    if s == {} then []
    else
      var m := SetMin(s);
      var rest := SortedIds(s - {m});
      SortedCons(s, m, rest);
      [m] + rest
  }

  // ---------------------------------------------------------------- the requests

  /** api.report_campaigns_create(dt=date_to, days=days_max, campaign_ids=ids) */
  type ReportRequest = (int, int, seq<int>) -> Result<Value>

  /** One request as made: its dt, its days and its campaign ids. */
  type Request = (int, int, seq<int>)

  /** The fixed inputs of one run: the API call, json.dumps(report, sort_keys=True),
      LIMIT_DAYS, LIMIT_CAMPAIGNS, today and now. */
  datatype Maker = Maker(request: ReportRequest, dumps: Value -> string, limitDays: int, limitCampaigns: int,
                         today: int, now: int)

  /** The reports after the run, and the requests made in order (a failed one included). */
  datatype Queued = Queued(reports: ReportTable, calls: seq<Request>)

  /** days = days if days < MAX_STATISTICS_PERIOD else MAX_STATISTICS_PERIOD */
  function CappedDays(days: int): (d: int)
    ensures d <= MaxStatisticsPeriod && (d == days || d == MaxStatisticsPeriod)
    ensures days <= MaxStatisticsPeriod ==> d == days
  {
    if days < MaxStatisticsPeriod then days else MaxStatisticsPeriod
  }

  /** The inner loop over chunks(campaign_ids, LIMIT_CAMPAIGNS) for one date_to. Every
      get_or_create commits on its own, so a failure keeps the reports queued before it. */
  function ChunkRun(m: Maker, shop: nat, q: Queued, cs: seq<seq<int>>, dateTo: int, dm: int): Committed<Queued>
    decreases |cs|
  {
    if |cs| == 0 then Committed(q, None)
    else
      var asked := q.calls + [(dateTo, dm, cs[0])];
      var report := m.request(dateTo, dm, cs[0]);
      if report.Err? then Committed(Queued(q.reports, asked), Some(report.error))
      else
        var t := GetOrCreateReport(q.reports, m.dumps(report.value), shop, m.now);
        if t.Err? then Committed(Queued(q.reports, asked), Some(t.error))
        else ChunkRun(m, shop, Queued(t.value, asked), cs[1..], dateTo, dm)
  }

  /** The remaining periods, date_to stepping back days_max each time. */
  function PeriodRun(m: Maker, shop: nat, q: Queued, cs: seq<seq<int>>, dateTo: int, dm: int, left: int): Committed<Queued>
    decreases left
  {
    if left <= 0 then Committed(q, None)
    else
      var c := ChunkRun(m, shop, q, cs, dateTo, dm);
      if c.error.Some? then c
      else PeriodRun(m, shop, c.store, cs, dateTo - dm, dm, left - 1)
  }

  /** days_max = days if days < LIMIT_DAYS else LIMIT_DAYS */
  function DaysMax(days: int, limitDays: int): int
  {
    if days < limitDays then days else limitDays
  }

  /** new_report(shop, api, days) */
  function NewReport(m: Maker, shop: nat, campaigns: map<int, Record>, t: ReportTable, days: int): Committed<Queued>
  {
    var d := CappedDays(days);
    var ids := SortedIds(SelectedIds(campaigns, shop, d, m.today));
    if |ids| == 0 then Committed(Queued(t, []), None)
    else
      var dm := DaysMax(d, m.limitDays);
      var n := Windows.Periods(d, dm);
      if n.Err? then Committed(Queued(t, []), Some(n.error))
      else PeriodRun(m, shop, Queued(t, []), Chunks.Chunks(ids, m.limitCampaigns), m.today, dm, n.value)
  }

  /** Is a report of that shop old: created at or before now - REPORT_OLD_DAYS days. */
  predicate Old(r: Report, shop: nat, now: int)
  {
    r.shop == shop && r.createdAt <= now - ReportOldDays * SecondsPerDay
  }

  /** remove_old_report(shop) */
  function RemoveOldReport(t: ReportTable, shop: nat, now: int): ReportTable
  {
    ReportTable(map id | id in t.rows && !Old(t.rows[id], shop, now) :: t.rows[id], t.nextId)
  }

  // ---------------------------------------------------------------- the sync task

  datatype ReportTask = ReportTask(reports: ReportTable, result: TaskResult)

  /** create_campaign_report(apikey_id=..., days=...): get_key is unguarded; any exception
      of new_report or remove_old_report fails the sync task with its message, keeping the
      reports new_report queued before it and removing no old one. */
  function CreateCampaignReport(keyId: Option<nat>, keys: seq<ApiKey>, shops: map<nat, Shop>, m: Maker,
                                campaigns: map<int, Record>, t: ReportTable, days: Option<int>): (r: Result<ReportTask>)
    ensures keyId.None? ==> r == Ok(ReportTask(t, Failure(EmptyKey)))
    ensures r.Err? ==> keyId.Some? && r.error == DoesNotExist
    ensures r.Ok? && keyId.Some? ==>
      && GetKey(keys, shops, keyId, m.now).Ok?
      && var shop := GetKey(keys, shops, keyId, m.now).value.shop.value;
         var run := NewReport(m, shop, campaigns, t, DaysOr(days));
         && (r.value.result == Success <==> run.error.None?)
         && (run.error.None? ==> r.value.reports == RemoveOldReport(run.store.reports, shop, m.now))
         && (run.error.Some? ==> r.value == ReportTask(run.store.reports, Failure(OtherFailure)))
  {
    if keyId.None? then Ok(ReportTask(t, Failure(EmptyKey)))
    else
      var key :- GetKey(keys, shops, keyId, m.now);
      var run := NewReport(m, key.shop.value, campaigns, t, DaysOr(days));
      if run.error.None? then Ok(ReportTask(RemoveOldReport(run.store.reports, key.shop.value, m.now), Success))
      else Ok(ReportTask(run.store.reports, Failure(OtherFailure)))
  }

  // ---------------------------------------------------------------- the loops

  method ChunkRunM(m: Maker, shop: nat, q0: Queued, cs: seq<seq<int>>, dateTo: int, dm: int) returns (res: Committed<Queued>)
    ensures res == ChunkRun(m, shop, q0, cs, dateTo, dm)
  {
    var q := q0;
    for i := 0 to |cs|
      invariant ChunkRun(m, shop, q0, cs, dateTo, dm) == ChunkRun(m, shop, q, cs[i..], dateTo, dm)
    {
      assert cs[i..][0] == cs[i] && cs[i..][1..] == cs[i + 1..];
      var asked := q.calls + [(dateTo, dm, cs[i])];
      var report := m.request(dateTo, dm, cs[i]);
      if report.Err? {
        return Committed(Queued(q.reports, asked), Some(report.error));
      }
      var t := GetOrCreateReport(q.reports, m.dumps(report.value), shop, m.now);
      if t.Err? {
        return Committed(Queued(q.reports, asked), Some(t.error));
      }
      q := Queued(t.value, asked);
    }
    assert cs[|cs|..] == [];
    return Committed(q, None);
  }

  method NewReportM(m: Maker, shop: nat, campaigns: map<int, Record>, t: ReportTable, days: int) returns (res: Committed<Queued>)
    ensures res == NewReport(m, shop, campaigns, t, days)
  {
    var d := CappedDays(days);
    var ids := SortedIds(SelectedIds(campaigns, shop, d, m.today));
    if |ids| == 0 {
      return Committed(Queued(t, []), None);
    }
    var dm := DaysMax(d, m.limitDays);
    var n := Windows.Periods(d, dm);
    if n.Err? {
      return Committed(Queued(t, []), Some(n.error));
    }
    res := PeriodRunM(m, shop, Queued(t, []), Chunks.Chunks(ids, m.limitCampaigns), dm, n.value);
  }

  /** The period loop from today: date_to = date_from after each period. */
  method PeriodRunM(m: Maker, shop: nat, q0: Queued, cs: seq<seq<int>>, dm: int, n: int) returns (res: Committed<Queued>)
    ensures res == PeriodRun(m, shop, q0, cs, m.today, dm, n)
  {
    var q := q0;
    var dateTo := m.today;
    var k := 0;
    while k < n
      invariant PeriodRun(m, shop, q0, cs, m.today, dm, n) == PeriodRun(m, shop, q, cs, dateTo, dm, n - k)
      decreases n - k
    {
      var r := ChunkRunM(m, shop, q, cs, dateTo, dm);
      if r.error.Some? {
        return r;
      }
      q := r.store;
      dateTo := dateTo - dm;
      k := k + 1;
    }
    return Committed(q, None);
  }

  method CreateCampaignReportM(keyId: Option<nat>, keys: seq<ApiKey>, shops: map<nat, Shop>, m: Maker,
                               campaigns: map<int, Record>, t: ReportTable, days: Option<int>) returns (res: Result<ReportTask>)
    ensures res == CreateCampaignReport(keyId, keys, shops, m, campaigns, t, days)
  {
    if keyId.None? {
      return Ok(ReportTask(t, Failure(EmptyKey)));
    }
    var key := GetKey(keys, shops, keyId, m.now);
    if key.Err? {
      return Err(key.error);
    }
    var q := NewReportM(m, key.value.shop.value, campaigns, t, DaysOr(days));
    if q.error.Some? {
      return Ok(ReportTask(q.store.reports, Failure(OtherFailure)));
    }
    return Ok(ReportTask(RemoveOldReport(q.store.reports, key.value.shop.value, m.now), Success));
  }
}
