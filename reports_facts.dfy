/** Properties of new_report: which campaigns are asked for, the schedule of requests it
    makes, that a request already waiting is never queued twice, so that running it again
    changes nothing, and what remove_old_report keeps. */
module ReportsFacts {
  import opened Wrappers
  import opened Values
  import opened Windows
  import Chunks
  import Campaigns
  import opened Reports

  // ---------------------------------------------------------------- the campaigns

  /** From five days on, every campaign of the shop is asked for; below that, the running
      ones and those updated after the start of the window; never another shop's. */
  lemma SelectionByDays(campaigns: map<int, Record>, shop: nat, days: int, today: int, id: int)
    ensures id in SelectedIds(campaigns, shop, days, today) ==> id in campaigns && Get(campaigns[id], "shop") == VRef(shop)
    ensures days >= 5 && id in campaigns && Get(campaigns[id], "shop") == VRef(shop) ==> id in SelectedIds(campaigns, shop, days, today)
    ensures id in campaigns && Get(campaigns[id], "shop") == VRef(shop) && Get(campaigns[id], "state") == VStr(Campaigns.Running)
            ==> id in SelectedIds(campaigns, shop, days, today)
    ensures days < 5 && id in SelectedIds(campaigns, shop, days, today) ==>
            Get(campaigns[id], "state") == VStr(Campaigns.Running) || UpdatedAfter(Get(campaigns[id], "updated_at"), today - days)
  {
  }

  /** campaign_ids holds each selected id once, in ascending order. */
  lemma IdsSorted(campaigns: map<int, Record>, shop: nat, days: int, today: int)
    ensures var ids := SortedIds(SelectedIds(campaigns, shop, days, today));
      && (forall id :: id in ids <==> id in SelectedIds(campaigns, shop, days, today))
      && (forall i, j :: 0 <= i < j < |ids| ==> ids[i] < ids[j])
  {
  }

  /** Without a selected campaign nothing is requested and nothing is queued. */
  lemma NoCampaignsNoRequests(m: Maker, shop: nat, campaigns: map<int, Record>, t: ReportTable, days: int)
    requires SelectedIds(campaigns, shop, CappedDays(days), m.today) == {}
    ensures NewReport(m, shop, campaigns, t, days) == Committed(Queued(t, []), None)
  {
  }

  // ---------------------------------------------------------------- the schedule

  /** The requests of one date_to: one per chunk, in order. */
  function ChunkCalls(cs: seq<seq<int>>, dateTo: int, dm: int): (r: seq<Request>)
    ensures |r| == |cs|
    ensures forall i :: 0 <= i < |cs| ==> r[i] == (dateTo, dm, cs[i])
    decreases |cs|
  {
    if |cs| == 0 then [] else [(dateTo, dm, cs[0])] + ChunkCalls(cs[1..], dateTo, dm)
  }

  /** The requests of n periods from date_to, each stepping back days_max. */
  function Schedule(cs: seq<seq<int>>, dateTo: int, dm: int, n: int): seq<Request>
    decreases n
  {
    if n <= 0 then [] else ChunkCalls(cs, dateTo, dm) + Schedule(cs, dateTo - dm, dm, n - 1)
  }

  lemma {:induction false} ScheduleLength(cs: seq<seq<int>>, dateTo: int, dm: int, n: nat)
    ensures |Schedule(cs, dateTo, dm, n)| == n * |cs|
    decreases n
  {
    if n > 0 {
      ScheduleLength(cs, dateTo - dm, dm, n - 1);
      assert n * |cs| == (n - 1) * |cs| + |cs|;
    }
  }

  lemma MulStep(p: int, c: int)
    ensures p * c == (p - 1) * c + c
  {
  }

  /** The requests period by period: period p asks for every chunk ending days_max * p days
      before date_to. */
  function PerPeriod(cs: seq<seq<int>>, dateTo: int, dm: int, n: nat): (r: seq<seq<Request>>)
    ensures |r| == n
    ensures forall p :: 0 <= p < n ==> r[p] == ChunkCalls(cs, dateTo - p * dm, dm)
    decreases n
  {
    if n == 0 then []
    else
      var rest := PerPeriod(cs, dateTo - dm, dm, n - 1);
      PeriodShift(dateTo, dm, n);
      [ChunkCalls(cs, dateTo, dm)] + rest
  }

  lemma PeriodShift(dateTo: int, dm: int, n: nat)
    ensures forall p :: 1 <= p < n ==> dateTo - dm - (p - 1) * dm == dateTo - p * dm
  {
    forall p | 1 <= p < n
      ensures dateTo - dm - (p - 1) * dm == dateTo - p * dm
    {
      MulStep(p, dm);
    }
  }

  /** The schedule is the periods' requests one period after the other. */
  lemma {:induction false} ScheduleByPeriod(cs: seq<seq<int>>, dateTo: int, dm: int, n: nat)
    ensures Schedule(cs, dateTo, dm, n) == Chunks.Concat(PerPeriod(cs, dateTo, dm, n))
    decreases n
  {
    if n > 0 {
      ScheduleByPeriod(cs, dateTo - dm, dm, n - 1);
      assert PerPeriod(cs, dateTo, dm, n)[1..] == PerPeriod(cs, dateTo - dm, dm, n - 1);
    }
  }

  // ---------------------------------------------------------------- get_or_create

  /** Rows at or above n do not change what PendingIds sees below n. */
  lemma {:induction false} PendingIdsFrame(rows: map<nat, Report>, k: nat, r: Report, n: nat, conditions: string, shop: nat)
    requires n <= k
    ensures PendingIds(rows[k := r], n, conditions, shop) == PendingIds(rows, n, conditions, shop)
    decreases n
  {
    if n > 0 {
      PendingIdsFrame(rows, k, r, n - 1, conditions, shop);
    }
  }

  /** One row added at next_id is pending under its own conditions and shop only. */
  lemma AddedCount(t: ReportTable, r: Report, conditions: string, shop: nat)
    ensures PendingCount(ReportTable(t.rows[t.nextId := r], t.nextId + 1), conditions, shop)
            == PendingCount(t, conditions, shop) + (if Pending(r, conditions, shop) then 1 else 0)
  {
    PendingIdsFrame(t.rows, t.nextId, r, t.nextId, conditions, shop);
  }

  /** t' keeps every row of t, keys below its own next id, and every report waiting alone in
      t still waits alone in t'. */
  ghost predicate Grows(t: ReportTable, t': ReportTable)
  {
    && ValidReports(t')
    && t.nextId <= t'.nextId
    && (forall id :: id in t.rows ==> id in t'.rows && t'.rows[id] == t.rows[id])
    && (forall c, s :: PendingCount(t, c, s) == 1 ==> PendingCount(t', c, s) == 1)
  }

  lemma GrowsTrans(t: ReportTable, t': ReportTable, t'': ReportTable)
    requires Grows(t, t') && Grows(t', t'')
    ensures Grows(t, t'')
  {
  }

  /** get_or_create fails when the request waits more than once; otherwise it leaves the
      request waiting exactly once, adding a row only when none was waiting. */
  lemma GetOrCreateFacts(t: ReportTable, conditions: string, shop: nat, now: int)
    requires ValidReports(t)
    ensures GetOrCreateReport(t, conditions, shop, now).Err? <==> PendingCount(t, conditions, shop) > 1
    ensures PendingCount(t, conditions, shop) == 1 ==> GetOrCreateReport(t, conditions, shop, now) == Ok(t)
    ensures GetOrCreateReport(t, conditions, shop, now).Ok? ==>
      && Grows(t, GetOrCreateReport(t, conditions, shop, now).value)
      && PendingCount(GetOrCreateReport(t, conditions, shop, now).value, conditions, shop) == 1
  {
    if PendingCount(t, conditions, shop) == 0 {
      var r := NewReportRow(shop, conditions, now);
      var t' := ReportTable(t.rows[t.nextId := r], t.nextId + 1);
      assert GetOrCreateReport(t, conditions, shop, now) == Ok(t');
      AddedCount(t, r, conditions, shop);
      forall c, s | PendingCount(t, c, s) == 1
        ensures PendingCount(t', c, s) == 1
      {
        AddedCount(t, r, c, s);
      }
    }
  }

  // ---------------------------------------------------------------- the run

  /** Every chunk's request of that date_to succeeds and waits exactly once in t. */
  ghost predicate ChunkServed(m: Maker, shop: nat, t: ReportTable, cs: seq<seq<int>>, dateTo: int, dm: int)
  {
    forall i :: 0 <= i < |cs| ==>
      && m.request(dateTo, dm, cs[i]).Ok?
      && PendingCount(t, m.dumps(m.request(dateTo, dm, cs[i]).value), shop) == 1
  }

  /** ChunkServed for each of n periods from date_to. */
  ghost predicate Served(m: Maker, shop: nat, t: ReportTable, cs: seq<seq<int>>, dateTo: int, dm: int, n: int)
    decreases n
  {
    n <= 0 || (ChunkServed(m, shop, t, cs, dateTo, dm) && Served(m, shop, t, cs, dateTo - dm, dm, n - 1))
  }

  lemma {:induction false} ServedGrows(m: Maker, shop: nat, t: ReportTable, t': ReportTable, cs: seq<seq<int>>, dateTo: int, dm: int, n: int)
    requires Served(m, shop, t, cs, dateTo, dm, n) && Grows(t, t')
    ensures Served(m, shop, t', cs, dateTo, dm, n)
    decreases n
  {
    if n > 0 {
      ServedGrows(m, shop, t, t', cs, dateTo - dm, dm, n - 1);
    }
  }

  /** The first chunk's request succeeded and its report was found or queued: the loop goes on
      with the rest of the chunks. */
  lemma ChunkStep(m: Maker, shop: nat, q: Queued, cs: seq<seq<int>>, dateTo: int, dm: int, t: ReportTable)
    requires |cs| > 0 && m.request(dateTo, dm, cs[0]).Ok?
    requires GetOrCreateReport(q.reports, m.dumps(m.request(dateTo, dm, cs[0]).value), shop, m.now) == Ok(t)
    ensures ChunkRun(m, shop, q, cs, dateTo, dm) == ChunkRun(m, shop, Queued(t, q.calls + [(dateTo, dm, cs[0])]), cs[1..], dateTo, dm)
  {
  }

  /** The first chunk's request and those of the rest. */
  lemma ChunkCallsCons(calls: seq<Request>, cs: seq<seq<int>>, dateTo: int, dm: int)
    requires |cs| > 0
    ensures calls + [(dateTo, dm, cs[0])] + ChunkCalls(cs[1..], dateTo, dm) == calls + ChunkCalls(cs, dateTo, dm)
  {
    assert ChunkCalls(cs, dateTo, dm) == [(dateTo, dm, cs[0])] + ChunkCalls(cs[1..], dateTo, dm);
  }

  /** Serving the first chunk and the rest serves them all. */
  lemma ChunkServedCons(m: Maker, shop: nat, t: ReportTable, cs: seq<seq<int>>, dateTo: int, dm: int)
    requires |cs| > 0 && m.request(dateTo, dm, cs[0]).Ok?
    requires PendingCount(t, m.dumps(m.request(dateTo, dm, cs[0]).value), shop) == 1
    requires ChunkServed(m, shop, t, cs[1..], dateTo, dm)
    ensures ChunkServed(m, shop, t, cs, dateTo, dm)
  {
    forall i | 0 < i < |cs|
      ensures m.request(dateTo, dm, cs[i]).Ok? && PendingCount(t, m.dumps(m.request(dateTo, dm, cs[i]).value), shop) == 1
    {
      assert cs[i] == cs[1..][i - 1];
    }
  }

  /** Serving all the chunks serves the rest. */
  lemma ChunkServedTail(m: Maker, shop: nat, t: ReportTable, cs: seq<seq<int>>, dateTo: int, dm: int)
    requires |cs| > 0 && ChunkServed(m, shop, t, cs, dateTo, dm)
    ensures ChunkServed(m, shop, t, cs[1..], dateTo, dm)
  {
    forall i | 0 <= i < |cs[1..]|
      ensures m.request(dateTo, dm, cs[1..][i]).Ok? && PendingCount(t, m.dumps(m.request(dateTo, dm, cs[1..][i]).value), shop) == 1
    {
      assert cs[1..][i] == cs[i + 1];
    }
  }

  /** A successful chunk loop grows the table, serves every chunk, and makes one request per
      chunk. */
  lemma {:induction false} ChunkRunServes(m: Maker, shop: nat, q: Queued, cs: seq<seq<int>>, dateTo: int, dm: int)
    requires ValidReports(q.reports)
    requires ChunkRun(m, shop, q, cs, dateTo, dm).error.None?
    ensures var q' := ChunkRun(m, shop, q, cs, dateTo, dm).store;
      && Grows(q.reports, q'.reports)
      && ChunkServed(m, shop, q'.reports, cs, dateTo, dm)
      && q'.calls == q.calls + ChunkCalls(cs, dateTo, dm)
    decreases |cs|
  {
    if |cs| == 0 {
      assert q.calls + ChunkCalls(cs, dateTo, dm) == q.calls;
    } else {
      var c := m.dumps(m.request(dateTo, dm, cs[0]).value);
      GetOrCreateFacts(q.reports, c, shop, m.now);
      var t := GetOrCreateReport(q.reports, c, shop, m.now).value;
      var q1 := Queued(t, q.calls + [(dateTo, dm, cs[0])]);
      ChunkStep(m, shop, q, cs, dateTo, dm, t);
      ChunkRunServes(m, shop, q1, cs[1..], dateTo, dm);
      var q' := ChunkRun(m, shop, q1, cs[1..], dateTo, dm).store;
      GrowsTrans(q.reports, t, q'.reports);
      ChunkServedCons(m, shop, q'.reports, cs, dateTo, dm);
      ChunkCallsCons(q.calls, cs, dateTo, dm);
    }
  }

  /** A successful period loop grows the table, serves every period, and makes the schedule's
      requests. */
  lemma {:induction false} PeriodRunServes(m: Maker, shop: nat, q: Queued, cs: seq<seq<int>>, dateTo: int, dm: int, n: int)
    requires ValidReports(q.reports)
    requires PeriodRun(m, shop, q, cs, dateTo, dm, n).error.None?
    ensures var q' := PeriodRun(m, shop, q, cs, dateTo, dm, n).store;
      && Grows(q.reports, q'.reports)
      && Served(m, shop, q'.reports, cs, dateTo, dm, n)
      && q'.calls == q.calls + Schedule(cs, dateTo, dm, n)
    decreases n
  {
    if n <= 0 {
      assert q.calls + Schedule(cs, dateTo, dm, n) == q.calls;
    } else {
      PeriodHead(m, shop, q, cs, dateTo, dm, n);
      ChunkRunServes(m, shop, q, cs, dateTo, dm);
      var q1 := ChunkRun(m, shop, q, cs, dateTo, dm).store;
      PeriodRunServes(m, shop, q1, cs, dateTo - dm, dm, n - 1);
      var q' := PeriodRun(m, shop, q1, cs, dateTo - dm, dm, n - 1).store;
      PeriodServesStep(m, shop, q, q1, q', cs, dateTo, dm, n);
    }
  }

  /** A served first period followed by n - 1 served periods are n served periods. */
  lemma PeriodServesStep(m: Maker, shop: nat, q: Queued, q1: Queued, q': Queued, cs: seq<seq<int>>, dateTo: int, dm: int, n: int)
    requires n > 0
    requires Grows(q.reports, q1.reports) && ChunkServed(m, shop, q1.reports, cs, dateTo, dm)
    requires q1.calls == q.calls + ChunkCalls(cs, dateTo, dm)
    requires Grows(q1.reports, q'.reports) && Served(m, shop, q'.reports, cs, dateTo - dm, dm, n - 1)
    requires q'.calls == q1.calls + Schedule(cs, dateTo - dm, dm, n - 1)
    ensures Grows(q.reports, q'.reports)
    ensures Served(m, shop, q'.reports, cs, dateTo, dm, n)
    ensures q'.calls == q.calls + Schedule(cs, dateTo, dm, n)
  {
    GrowsTrans(q.reports, q1.reports, q'.reports);
    ChunkServedGrows(m, shop, q1.reports, q'.reports, cs, dateTo, dm);
    ServedCons(m, shop, q'.reports, cs, dateTo, dm, n);
    ScheduleCons(q.calls, cs, dateTo, dm, n);
  }

  lemma ServedCons(m: Maker, shop: nat, t: ReportTable, cs: seq<seq<int>>, dateTo: int, dm: int, n: int)
    requires n > 0 && ChunkServed(m, shop, t, cs, dateTo, dm) && Served(m, shop, t, cs, dateTo - dm, dm, n - 1)
    ensures Served(m, shop, t, cs, dateTo, dm, n)
  {
  }

  lemma ScheduleCons(calls: seq<Request>, cs: seq<seq<int>>, dateTo: int, dm: int, n: int)
    requires n > 0
    ensures calls + Schedule(cs, dateTo, dm, n) == calls + ChunkCalls(cs, dateTo, dm) + Schedule(cs, dateTo - dm, dm, n - 1)
  {
  }

  lemma ChunkServedGrows(m: Maker, shop: nat, t: ReportTable, t': ReportTable, cs: seq<seq<int>>, dateTo: int, dm: int)
    requires ChunkServed(m, shop, t, cs, dateTo, dm) && Grows(t, t')
    ensures ChunkServed(m, shop, t', cs, dateTo, dm)
  {
  }

  /** A period loop that succeeds got through its first period. */
  lemma PeriodHead(m: Maker, shop: nat, q: Queued, cs: seq<seq<int>>, dateTo: int, dm: int, n: int)
    requires n > 0 && PeriodRun(m, shop, q, cs, dateTo, dm, n).error.None?
    ensures ChunkRun(m, shop, q, cs, dateTo, dm).error.None?
    ensures PeriodRun(m, shop, q, cs, dateTo, dm, n)
         == PeriodRun(m, shop, ChunkRun(m, shop, q, cs, dateTo, dm).store, cs, dateTo - dm, dm, n - 1)
  {
  }

  /** However the chunk loop ends it removes and changes no report; one that fails has made
      the requests up to and including the failing one, and every request before it waits
      exactly once. */
  lemma {:induction false} ChunkRunStops(m: Maker, shop: nat, q: Queued, cs: seq<seq<int>>, dateTo: int, dm: int)
    requires ValidReports(q.reports)
    ensures Grows(q.reports, ChunkRun(m, shop, q, cs, dateTo, dm).store.reports)
    ensures var r := ChunkRun(m, shop, q, cs, dateTo, dm);
      r.error.Some? ==> exists i :: (0 <= i < |cs|
        && r.store.calls == q.calls + ChunkCalls(cs[..i + 1], dateTo, dm)
        && ChunkServed(m, shop, r.store.reports, cs[..i], dateTo, dm))
    decreases |cs|
  {
    var r := ChunkRun(m, shop, q, cs, dateTo, dm);
    if |cs| > 0 {
      var report := m.request(dateTo, dm, cs[0]);
      var c := if report.Ok? then m.dumps(report.value) else [];
      GetOrCreateFacts(q.reports, c, shop, m.now);
      if report.Ok? && GetOrCreateReport(q.reports, c, shop, m.now).Ok? {
        var t := GetOrCreateReport(q.reports, c, shop, m.now).value;
        var q1 := Queued(t, q.calls + [(dateTo, dm, cs[0])]);
        ChunkStep(m, shop, q, cs, dateTo, dm, t);
        ChunkRunStops(m, shop, q1, cs[1..], dateTo, dm);
        GrowsTrans(q.reports, t, r.store.reports);
        if r.error.Some? {
          var rest := cs[1..];
          var j :| 0 <= j < |rest|
            && r.store.calls == q1.calls + ChunkCalls(rest[..j + 1], dateTo, dm)
            && ChunkServed(m, shop, r.store.reports, rest[..j], dateTo, dm);
          LaterChunkFails(m, shop, q.calls, r.store, cs, dateTo, dm, j);
        }
      } else {
        assert r.store == Queued(q.reports, q.calls + [(dateTo, dm, cs[0])]);
        FirstChunkFails(m, shop, q.calls, r.store, cs, dateTo, dm);
      }
    }
  }

  lemma FirstChunkFails(m: Maker, shop: nat, calls: seq<Request>, q': Queued, cs: seq<seq<int>>, dateTo: int, dm: int)
    requires |cs| > 0 && q'.calls == calls + [(dateTo, dm, cs[0])]
    ensures q'.calls == calls + ChunkCalls(cs[..0 + 1], dateTo, dm)
    ensures ChunkServed(m, shop, q'.reports, cs[..0], dateTo, dm)
  {
    assert ChunkCalls(cs[..0 + 1], dateTo, dm) == [(dateTo, dm, cs[0])];
  }

  /** The failure j chunks into the rest is j + 1 chunks into the whole. */
  lemma LaterChunkFails(m: Maker, shop: nat, calls: seq<Request>, q': Queued, cs: seq<seq<int>>, dateTo: int, dm: int, j: nat)
    requires j + 1 < |cs| && m.request(dateTo, dm, cs[0]).Ok?
    requires PendingCount(q'.reports, m.dumps(m.request(dateTo, dm, cs[0]).value), shop) == 1
    requires q'.calls == calls + [(dateTo, dm, cs[0])] + ChunkCalls(cs[1..][..j + 1], dateTo, dm)
    requires ChunkServed(m, shop, q'.reports, cs[1..][..j], dateTo, dm)
    ensures q'.calls == calls + ChunkCalls(cs[..(j + 1) + 1], dateTo, dm)
    ensures ChunkServed(m, shop, q'.reports, cs[..j + 1], dateTo, dm)
  {
    var pre := cs[..j + 2];
    assert pre[0] == cs[0] && pre[1..] == cs[1..][..j + 1];
    ChunkCallsCons(calls, pre, dateTo, dm);
    var served := cs[..j + 1];
    assert served[0] == cs[0] && served[1..] == cs[1..][..j];
    ChunkServedCons(m, shop, q'.reports, served, dateTo, dm);
  }

  /** However the period loop ends it removes and changes no report; one that fails has
      made every request of the periods before the failing one, all still waiting. */
  lemma {:induction false} PeriodRunStops(m: Maker, shop: nat, q: Queued, cs: seq<seq<int>>, dateTo: int, dm: int, n: int)
    requires ValidReports(q.reports)
    ensures Grows(q.reports, PeriodRun(m, shop, q, cs, dateTo, dm, n).store.reports)
    ensures var r := PeriodRun(m, shop, q, cs, dateTo, dm, n);
      r.error.Some? ==> exists k :: (0 <= k < n
        && Served(m, shop, r.store.reports, cs, dateTo, dm, k)
        && q.calls + Schedule(cs, dateTo, dm, k) <= r.store.calls)
    decreases n
  {
    var r := PeriodRun(m, shop, q, cs, dateTo, dm, n);
    if n > 0 {
      var c := ChunkRun(m, shop, q, cs, dateTo, dm);
      if c.error.Some? {
        ChunkRunStops(m, shop, q, cs, dateTo, dm);
        var i :| 0 <= i < |cs|
          && c.store.calls == q.calls + ChunkCalls(cs[..i + 1], dateTo, dm)
          && ChunkServed(m, shop, c.store.reports, cs[..i], dateTo, dm);
        FirstPeriodFails(m, shop, q, cs, dateTo, dm, n, i);
      } else {
        ChunkRunServes(m, shop, q, cs, dateTo, dm);
        var q1 := c.store;
        PeriodNext(m, shop, q, cs, dateTo, dm, n);
        PeriodRunStops(m, shop, q1, cs, dateTo - dm, dm, n - 1);
        GrowsTrans(q.reports, q1.reports, r.store.reports);
        if r.error.Some? {
          var k :| 0 <= k < n - 1
            && Served(m, shop, r.store.reports, cs, dateTo - dm, dm, k)
            && q1.calls + Schedule(cs, dateTo - dm, dm, k) <= r.store.calls;
          LaterPeriodFails(m, shop, q.calls, q1, r.store, cs, dateTo, dm, k);
        }
      }
    }
  }

  lemma FirstPeriodFails(m: Maker, shop: nat, q: Queued, cs: seq<seq<int>>, dateTo: int, dm: int, n: int, i: nat)
    requires n > 0 && i < |cs|
    requires ChunkRun(m, shop, q, cs, dateTo, dm).error.Some?
    requires ChunkRun(m, shop, q, cs, dateTo, dm).store.calls == q.calls + ChunkCalls(cs[..i + 1], dateTo, dm)
    ensures var r := PeriodRun(m, shop, q, cs, dateTo, dm, n);
      && r == ChunkRun(m, shop, q, cs, dateTo, dm)
      && Served(m, shop, r.store.reports, cs, dateTo, dm, 0)
      && q.calls + Schedule(cs, dateTo, dm, 0) <= r.store.calls
  {
    assert q.calls + Schedule(cs, dateTo, dm, 0) == q.calls;
  }

  /** After a first period that succeeds, the loop goes on from its queue. */
  lemma PeriodNext(m: Maker, shop: nat, q: Queued, cs: seq<seq<int>>, dateTo: int, dm: int, n: int)
    requires n > 0 && ChunkRun(m, shop, q, cs, dateTo, dm).error.None?
    ensures PeriodRun(m, shop, q, cs, dateTo, dm, n)
         == PeriodRun(m, shop, ChunkRun(m, shop, q, cs, dateTo, dm).store, cs, dateTo - dm, dm, n - 1)
  {
  }

  /** The failure k periods into the rest is k + 1 periods into the whole. */
  lemma LaterPeriodFails(m: Maker, shop: nat, calls: seq<Request>, q1: Queued, q': Queued, cs: seq<seq<int>>, dateTo: int, dm: int, k: int)
    requires k >= 0
    requires ChunkServed(m, shop, q1.reports, cs, dateTo, dm) && Grows(q1.reports, q'.reports)
    requires q1.calls == calls + ChunkCalls(cs, dateTo, dm)
    requires Served(m, shop, q'.reports, cs, dateTo - dm, dm, k)
    requires q1.calls + Schedule(cs, dateTo - dm, dm, k) <= q'.calls
    ensures Served(m, shop, q'.reports, cs, dateTo, dm, k + 1)
    ensures calls + Schedule(cs, dateTo, dm, k + 1) <= q'.calls
  {
    ChunkServedGrows(m, shop, q1.reports, q'.reports, cs, dateTo, dm);
    ServedCons(m, shop, q'.reports, cs, dateTo, dm, k + 1);
    ScheduleCons(calls, cs, dateTo, dm, k + 1);
  }

  /** When every chunk's request already waits, the chunk loop makes the same requests and
      changes no report. */
  lemma {:induction false} ChunkRunRerun(m: Maker, shop: nat, q: Queued, cs: seq<seq<int>>, dateTo: int, dm: int)
    requires ChunkServed(m, shop, q.reports, cs, dateTo, dm)
    ensures ChunkRun(m, shop, q, cs, dateTo, dm) == Committed(Queued(q.reports, q.calls + ChunkCalls(cs, dateTo, dm)), None)
    decreases |cs|
  {
    if |cs| == 0 {
      assert q.calls + ChunkCalls(cs, dateTo, dm) == q.calls;
    } else {
      var q1 := Queued(q.reports, q.calls + [(dateTo, dm, cs[0])]);
      ChunkStep(m, shop, q, cs, dateTo, dm, q.reports);
      ChunkServedTail(m, shop, q.reports, cs, dateTo, dm);
      ChunkRunRerun(m, shop, q1, cs[1..], dateTo, dm);
      ChunkCallsCons(q.calls, cs, dateTo, dm);
    }
  }

  /** One period of the loop: after the chunk loop succeeds, the rest starts from its queue. */
  lemma PeriodStep(m: Maker, shop: nat, q: Queued, q1: Queued, cs: seq<seq<int>>, dateTo: int, dm: int, n: int)
    requires n > 0 && ChunkRun(m, shop, q, cs, dateTo, dm) == Committed(q1, None)
    ensures PeriodRun(m, shop, q, cs, dateTo, dm, n) == PeriodRun(m, shop, q1, cs, dateTo - dm, dm, n - 1)
  {
  }

  /** One period of the rerun: the chunk loop changes no report, so the rest starts from
      the same reports with the chunk's requests made. */
  lemma PeriodRerunStep(m: Maker, shop: nat, q: Queued, cs: seq<seq<int>>, dateTo: int, dm: int, n: int)
    requires n > 0 && ChunkServed(m, shop, q.reports, cs, dateTo, dm)
    requires var q1 := Queued(q.reports, q.calls + ChunkCalls(cs, dateTo, dm));
      PeriodRun(m, shop, q1, cs, dateTo - dm, dm, n - 1) == Committed(Queued(q.reports, q1.calls + Schedule(cs, dateTo - dm, dm, n - 1)), None)
    ensures PeriodRun(m, shop, q, cs, dateTo, dm, n) == Committed(Queued(q.reports, q.calls + Schedule(cs, dateTo, dm, n)), None)
  {
    var q1 := Queued(q.reports, q.calls + ChunkCalls(cs, dateTo, dm));
    ChunkRunRerun(m, shop, q, cs, dateTo, dm);
    PeriodStep(m, shop, q, q1, cs, dateTo, dm, n);
    assert q1.calls + Schedule(cs, dateTo - dm, dm, n - 1) == q.calls + Schedule(cs, dateTo, dm, n);
  }

  lemma {:induction false} PeriodRunRerun(m: Maker, shop: nat, q: Queued, cs: seq<seq<int>>, dateTo: int, dm: int, n: int)
    requires Served(m, shop, q.reports, cs, dateTo, dm, n)
    ensures PeriodRun(m, shop, q, cs, dateTo, dm, n) == Committed(Queued(q.reports, q.calls + Schedule(cs, dateTo, dm, n)), None)
    decreases n
  {
    if n <= 0 {
      assert q.calls + Schedule(cs, dateTo, dm, n) == q.calls;
    } else {
      PeriodRunRerun(m, shop, Queued(q.reports, q.calls + ChunkCalls(cs, dateTo, dm)), cs, dateTo - dm, dm, n - 1);
      PeriodRerunStep(m, shop, q, cs, dateTo, dm, n);
    }
  }

  // ---------------------------------------------------------------- new_report

  /** A successful new_report makes the schedule's requests over the chunks of the sorted ids,
      leaves every request waiting exactly once, and adds reports without changing any. */
  lemma NewReportSchedule(m: Maker, shop: nat, campaigns: map<int, Record>, t: ReportTable, days: int)
    requires ValidReports(t)
    requires NewReport(m, shop, campaigns, t, days).error.None?
    ensures var q := NewReport(m, shop, campaigns, t, days).store;
      var d := CappedDays(days);
      var ids := SortedIds(SelectedIds(campaigns, shop, d, m.today));
      var dm := DaysMax(d, m.limitDays);
      && Grows(t, q.reports)
      && (|ids| == 0 ==> q.calls == [])
      && (|ids| > 0 ==>
            && Periods(d, dm).Ok?
            && q.calls == Schedule(Chunks.Chunks(ids, m.limitCampaigns), m.today, dm, Periods(d, dm).value)
            && Served(m, shop, q.reports, Chunks.Chunks(ids, m.limitCampaigns), m.today, dm, Periods(d, dm).value))
  {
    var d := CappedDays(days);
    var ids := SortedIds(SelectedIds(campaigns, shop, d, m.today));
    if |ids| > 0 {
      var dm := DaysMax(d, m.limitDays);
      PeriodRunServes(m, shop, Queued(t, []), Chunks.Chunks(ids, m.limitCampaigns), m.today, dm, Periods(d, dm).value);
      assert [] + Schedule(Chunks.Chunks(ids, m.limitCampaigns), m.today, dm, Periods(d, dm).value)
          == Schedule(Chunks.Chunks(ids, m.limitCampaigns), m.today, dm, Periods(d, dm).value);
    }
  }

  /** What a failed period loop from an empty queue over t leaves in q: no report of t is
      removed or changed, and some number k of whole periods, fewer than n, made their
      requests first, which all still wait. */
  ghost predicate KeptBeforeFailure(m: Maker, shop: nat, t: ReportTable, cs: seq<seq<int>>, dm: int, n: int, q: Queued)
  {
    && Grows(t, q.reports)
    && exists k :: (0 <= k < n
         && Served(m, shop, q.reports, cs, m.today, dm, k)
         && Schedule(cs, m.today, dm, k) <= q.calls)
  }

  /** A new_report that fails keeps every report it queued: no report is removed or
      changed, and the periods finished before the failing one made their requests, which
      all still wait. */
  lemma NewReportFails(m: Maker, shop: nat, campaigns: map<int, Record>, t: ReportTable, days: int)
    requires ValidReports(t)
    requires NewReport(m, shop, campaigns, t, days).error.Some?
    ensures var q := NewReport(m, shop, campaigns, t, days).store;
      var d := CappedDays(days);
      var ids := SortedIds(SelectedIds(campaigns, shop, d, m.today));
      var dm := DaysMax(d, m.limitDays);
      && |ids| > 0
      && (Periods(d, dm).Err? ==> q == Queued(t, []))
      && (Periods(d, dm).Ok? ==>
            KeptBeforeFailure(m, shop, t, Chunks.Chunks(ids, m.limitCampaigns), dm, Periods(d, dm).value, q))
  {
    var d := CappedDays(days);
    var ids := SortedIds(SelectedIds(campaigns, shop, d, m.today));
    var dm := DaysMax(d, m.limitDays);
    var cs := Chunks.Chunks(ids, m.limitCampaigns);
    if Periods(d, dm).Ok? {
      var n := Periods(d, dm).value;
      assert NewReport(m, shop, campaigns, t, days) == PeriodRun(m, shop, Queued(t, []), cs, m.today, dm, n);
      FreshRunFails(m, shop, t, cs, dm, n);
    }
  }

  /** The period loop from an empty queue, failing. */
  lemma FreshRunFails(m: Maker, shop: nat, t: ReportTable, cs: seq<seq<int>>, dm: int, n: int)
    requires ValidReports(t)
    requires PeriodRun(m, shop, Queued(t, []), cs, m.today, dm, n).error.Some?
    ensures KeptBeforeFailure(m, shop, t, cs, dm, n, PeriodRun(m, shop, Queued(t, []), cs, m.today, dm, n).store)
  {
    var q := PeriodRun(m, shop, Queued(t, []), cs, m.today, dm, n).store;
    PeriodRunStops(m, shop, Queued(t, []), cs, m.today, dm, n);
    var k :| 0 <= k < n
      && Served(m, shop, q.reports, cs, m.today, dm, k)
      && [] + Schedule(cs, m.today, dm, k) <= q.calls;
    assert [] + Schedule(cs, m.today, dm, k) == Schedule(cs, m.today, dm, k);
  }

  /** Running new_report again right after a successful run makes the same requests, queues
      nothing new and changes no report: a waiting request is never queued twice. */
  lemma NewReportIdempotent(m: Maker, shop: nat, campaigns: map<int, Record>, t: ReportTable, days: int)
    requires ValidReports(t)
    requires NewReport(m, shop, campaigns, t, days).error.None?
    ensures var q := NewReport(m, shop, campaigns, t, days).store;
      ValidReports(q.reports) && NewReport(m, shop, campaigns, q.reports, days) == Committed(q, None)
  {
    var q := NewReport(m, shop, campaigns, t, days).store;
    var d := CappedDays(days);
    var ids := SortedIds(SelectedIds(campaigns, shop, d, m.today));
    if |ids| > 0 {
      var dm := DaysMax(d, m.limitDays);
      var cs := Chunks.Chunks(ids, m.limitCampaigns);
      var n := Periods(d, dm).value;
      PeriodRunServes(m, shop, Queued(t, []), cs, m.today, dm, n);
      PeriodRunRerun(m, shop, Queued(q.reports, []), cs, m.today, dm, n);
    }
  }

  /** Every request's range is days_max long and the periods together cover the capped days. */
  lemma PeriodsCoverDays(m: Maker, days: int)
    requires 0 < days && 0 < m.limitDays
    ensures var d := CappedDays(days);
      var dm := DaysMax(d, m.limitDays);
      && 0 < dm <= m.limitDays
      && Periods(d, dm).Ok?
      && Periods(d, dm).value >= 1
      && Periods(d, dm).value * dm >= d
  {
    var d := CappedDays(days);
    PeriodsCover(d, DaysMax(d, m.limitDays));
  }

  // ---------------------------------------------------------------- remove_old_report

  /** remove_old_report drops exactly the shop's reports created at or before now minus
      three days, and changes no other row. */
  lemma RemoveOldFacts(t: ReportTable, shop: nat, now: int)
    ensures var t' := RemoveOldReport(t, shop, now);
      && t'.nextId == t.nextId
      && (forall id :: id in t'.rows <==> id in t.rows && !Old(t.rows[id], shop, now))
      && (forall id :: id in t'.rows ==> t'.rows[id] == t.rows[id])
      && (ValidReports(t) ==> ValidReports(t'))
  {
  }

  /** A report created within the last three days, or another shop's, survives. */
  lemma RemoveOldKeepsFresh(t: ReportTable, shop: nat, now: int, id: nat)
    requires id in t.rows && (t.rows[id].shop != shop || t.rows[id].createdAt > now - 3 * SecondsPerDay)
    ensures id in RemoveOldReport(t, shop, now).rows
  {
  }

  /** Removing twice removes nothing more. */
  lemma RemoveOldIdempotent(t: ReportTable, shop: nat, now: int)
    ensures RemoveOldReport(RemoveOldReport(t, shop, now), shop, now) == RemoveOldReport(t, shop, now)
  {
  }
}
