/** The window schedule api_orders follows and the sync task's handling of its failures. */
module OrderRunFacts {
  import opened Wrappers
  import opened Values
  import opened Windows
  import opened Accounts
  import opened Tasks
  import opened Orders
  import opened OrderRuns
  import opened Reconciler
  import Chunks
  import RF = ReconcilerFacts

  /** The rows of the pages fetched at the given dates. */
  function PageSum(fetch: Fetch, dates: seq<int>, dm: int): int
  {
    if |dates| == 0 then 0
    else (if fetch(dates[0], dm).Ok? then |fetch(dates[0], dm).value| else 0) + PageSum(fetch, dates[1..], dm)
  }

  /** The k-th call from date_to d asks for d - k * days_max, and there are at most left of them. */
  lemma {:induction false} PagesDates(r: Run, db: OrderDb, d: int, dm: int, left: int, total: int, calls: seq<int>)
    requires Pages(r, db, d, dm, left, total, calls).Finished?
    ensures var p := Pages(r, db, d, dm, left, total, calls).value;
      && |calls| <= |p.calls| <= |calls| + Max(left, 0)
      && p.calls[..|calls|] == calls
      && forall k :: |calls| <= k < |p.calls| ==> p.calls[k] == d - (k - |calls|) * dm
    decreases left
  {
    if left > 0 {
      var page := r.fetch(d, dm).value;
      if |page| > 0 {
        var db' := r.write(db, page).store;
        PagesDates(r, db', d - dm, dm, left - 1, total + |page|, calls + [d]);
        var p := Pages(r, db, d, dm, left, total, calls).value;
        assert p.calls[..|calls| + 1] == calls + [d];
        assert p.calls[..|calls|] == (calls + [d])[..|calls|];
        forall k | |calls| < k < |p.calls| ensures p.calls[k] == d - (k - |calls|) * dm {
          assert p.calls[k] == d - dm - (k - |calls| - 1) * dm;
        }
      }
    }
  }

  /** Every page asked for was delivered, all but the last were non-empty, and a run that
      made fewer calls than periods stopped on an empty page. */
  lemma {:induction false} PagesStop(r: Run, db: OrderDb, d: int, dm: int, left: int, total: int, calls: seq<int>)
    requires Pages(r, db, d, dm, left, total, calls).Finished?
    ensures var p := Pages(r, db, d, dm, left, total, calls).value;
      && |calls| <= |p.calls|
      && (forall k :: |calls| <= k < |p.calls| ==> r.fetch(p.calls[k], dm).Ok?)
      && (forall k :: |calls| <= k < |p.calls| - 1 ==> |r.fetch(p.calls[k], dm).value| > 0)
      && (|p.calls| < |calls| + left ==> |p.calls| > |calls| && r.fetch(p.calls[|p.calls| - 1], dm) == Ok([]))
    decreases left
  {
    if left > 0 {
      var page := r.fetch(d, dm).value;
      if |page| > 0 {
        var db' := r.write(db, page).store;
        PagesStop(r, db', d - dm, dm, left - 1, total + |page|, calls + [d]);
        PagesDates(r, db', d - dm, dm, left - 1, total + |page|, calls + [d]);
      }
    }
  }

  lemma {:induction false} PageSumAppend(fetch: Fetch, a: seq<int>, b: seq<int>, dm: int)
    ensures PageSum(fetch, a + b, dm) == PageSum(fetch, a, dm) + PageSum(fetch, b, dm)
  {
    if |a| > 0 {
      assert (a + b)[1..] == a[1..] + b;
      PageSumAppend(fetch, a[1..], b, dm);
    } else {
      assert a + b == b;
    }
  }

  /** total_rows is the number of rows of the pages fetched. */
  lemma {:induction false} PagesTotal(r: Run, db: OrderDb, d: int, dm: int, left: int, total: int, calls: seq<int>)
    requires Pages(r, db, d, dm, left, total, calls).Finished?
    ensures var p := Pages(r, db, d, dm, left, total, calls).value;
      |calls| <= |p.calls| && p.total == total + PageSum(r.fetch, p.calls[|calls|..], dm)
    decreases left
  {
    PagesDates(r, db, d, dm, left, total, calls);
    var p := Pages(r, db, d, dm, left, total, calls).value;
    if left > 0 {
      var page := r.fetch(d, dm).value;
      if |page| > 0 {
        var db' := r.write(db, page).store;
        PagesTotal(r, db', d - dm, dm, left - 1, total + |page|, calls + [d]);
        PagesDates(r, db', d - dm, dm, left - 1, total + |page|, calls + [d]);
        assert p.calls[|calls|..] == [d] + p.calls[|calls| + 1..];
        PageSumAppend(r.fetch, [d], p.calls[|calls| + 1..], dm);
      } else {
        assert p.calls[|calls|..] == [d];
      }
    } else {
      assert p.calls[|calls|..] == [];
    }
  }

  /** The schedule of a finished api_orders run: at most ceil(days / days_max) calls, the
      k-th for today - k * days_max, so each window [date_to - days_max, date_to] starts on
      the day the next one ends; every page but the last non-empty, a short run ended by
      an empty page, and total_rows the sum of the pages' rows. */
  lemma ApiOrdersSchedule(r: Run, db: OrderDb, days: int)
    requires ApiOrders(r, db, days).Finished?
    ensures var h := Horizon(days, OldestOpenDay(db.orders, r.shop), r.today, r.apiLimit);
      var dm := Min(h, r.apiLimit);
      var p := ApiOrders(r, db, days).value;
      && dm != 0
      && |p.calls| <= Max(CeilDiv(h, dm), 0)
      && (forall k :: 0 <= k < |p.calls| ==> p.calls[k] == r.today - k * dm)
      && (forall k :: 0 <= k < |p.calls| - 1 ==> p.calls[k + 1] == p.calls[k] - dm)
      && (forall k :: 0 <= k < |p.calls| ==> r.fetch(p.calls[k], dm).Ok?)
      && (forall k :: 0 <= k < |p.calls| - 1 ==> |r.fetch(p.calls[k], dm).value| > 0)
      && (|p.calls| < CeilDiv(h, dm) ==> |p.calls| > 0 && r.fetch(p.calls[|p.calls| - 1], dm) == Ok([]))
      && p.total == PageSum(r.fetch, p.calls, dm)
  {
    var h := Horizon(days, OldestOpenDay(db.orders, r.shop), r.today, r.apiLimit);
    var dm := Min(h, r.apiLimit);
    var n := Periods(h, dm).value;
    PagesDates(r, db, r.today, dm, n, 0, []);
    PagesStop(r, db, r.today, dm, n, 0, []);
    PagesTotal(r, db, r.today, dm, n, 0, []);
    var p := ApiOrders(r, db, days).value;
    assert p.calls[0..] == p.calls;
    forall k | 0 <= k < |p.calls| - 1 ensures p.calls[k + 1] == p.calls[k] - dm {
      assert p.calls[k + 1] == r.today - (k + 1) * dm;
    }
  }

  /** A shop without open orders is fetched over 360 days. */
  lemma EmptyShopYear(days: int, today: int, apiLimit: nat)
    ensures Horizon(days, None, today, apiLimit) == 360
  {
  }

  /** Otherwise the horizon is the larger of the requested days and the oldest open
      order's age capped at API_LIMIT_DAYS. */
  lemma HorizonWidens(days: int, oldest: int, today: int, apiLimit: nat)
    ensures var h := Horizon(days, Some(oldest), today, apiLimit);
      && h >= days && h >= Min(today - oldest, apiLimit)
      && (h == days || h == Min(today - oldest, apiLimit))
      && (today - oldest >= apiLimit && days <= apiLimit ==> h == apiLimit)
  {
  }

  /** A zero horizon (days = 0 and an open order created today) divides by zero. */
  lemma ZeroHorizonFails(r: Run, db: OrderDb, days: int)
    requires Horizon(days, OldestOpenDay(db.orders, r.shop), r.today, r.apiLimit) == 0
    ensures ApiOrders(r, db, days) == OtherError(Pass(db, [], 0))
  {
  }

  /** With a positive API limit, only a zero horizon divides by zero. */
  lemma PositiveHorizonPeriods(r: Run, db: OrderDb, days: int)
    requires r.apiLimit > 0 && Horizon(days, OldestOpenDay(db.orders, r.shop), r.today, r.apiLimit) > 0
    ensures Periods(Horizon(days, OldestOpenDay(db.orders, r.shop), r.today, r.apiLimit),
                    Min(Horizon(days, OldestOpenDay(db.orders, r.shop), r.today, r.apiLimit), r.apiLimit)).Ok?
  {
  }

  // ---------------------------------------------------------------- the store reached

  /** The chunk writes of one page stop at the first chunk that fails: the store is the
      one the chunks before it reach plus what the failing chunk itself committed. */
  lemma {:induction false} WriteChunksStops(write: Writer, db: OrderDb, cs: seq<seq<Record>>)
    ensures var c := WriteChunks(write, db, cs);
      exists i :: 0 <= i <= |cs| && WriteChunks(write, db, cs[..i]).error.None?
        && (c.error.None? <==> i == |cs|)
        && (i == |cs| ==> c == WriteChunks(write, db, cs[..i]))
        && (i < |cs| ==> c == write(WriteChunks(write, db, cs[..i]).store, cs[i]))
    decreases |cs|
  {
    var c := WriteChunks(write, db, cs);
    if |cs| == 0 {
      assert cs[..0] == cs;
    } else {
      var w := write(db, cs[0]);
      if w.error.Some? {
        assert WriteChunks(write, db, cs[..0]) == Committed(db, None);
      } else {
        var rest := cs[1..];
        WriteChunksStops(write, w.store, rest);
        var j :| 0 <= j <= |rest| && WriteChunks(write, w.store, rest[..j]).error.None?
          && (c.error.None? <==> j == |rest|)
          && (j == |rest| ==> c == WriteChunks(write, w.store, rest[..j]))
          && (j < |rest| ==> c == write(WriteChunks(write, w.store, rest[..j]).store, rest[j]));
        var pre := cs[..j + 1];
        assert pre[0] == cs[0] && pre[1..] == rest[..j];
        if j == |rest| {
          assert pre == cs;
        } else {
          assert rest[j] == cs[j + 1];
        }
      }
    }
  }

  /** The store reached by writing, in order, the pages fetched at the given dates: it
      stops at the first failed call and the first empty page, and a failed write keeps
      what it committed. */
  function PagesThrough(r: Run, db: OrderDb, dates: seq<int>, dm: int): OrderDb
    decreases |dates|
  {
    if |dates| == 0 then db
    else
      var page := r.fetch(dates[0], dm);
      if page.Err? || |page.value| == 0 then db
      else
        var w := r.write(db, page.value);
        if w.error.Some? then w.store else PagesThrough(r, w.store, dates[1..], dm)
  }

  /** However the window loop ends, its store is the one its pages, written in order,
      reach: a failure keeps everything committed before it. */
  lemma {:induction false} PagesStore(r: Run, db: OrderDb, d: int, dm: int, left: int, total: int, calls: seq<int>)
    ensures var p := Pages(r, db, d, dm, left, total, calls).value;
      && |calls| <= |p.calls| && p.calls[..|calls|] == calls
      && p.db == PagesThrough(r, db, p.calls[|calls|..], dm)
    decreases left
  {
    var p := Pages(r, db, d, dm, left, total, calls).value;
    if left > 0 {
      var page := r.fetch(d, dm);
      var asked := calls + [d];
      if page.Ok? && |page.value| > 0 && r.write(db, page.value).error.None? {
        var w := r.write(db, page.value);
        PagesStore(r, w.store, d - dm, dm, left - 1, total + |page.value|, asked);
        assert p.calls[..|calls|] == p.calls[..|asked|][..|calls|];
        assert p.calls[|calls|..] == [d] + p.calls[|asked|..];
      } else {
        assert p.calls[|calls|..] == [d];
      }
    } else {
      assert p.calls[|calls|..] == [];
    }
  }

  /** api_orders, however it ends: a zero horizon fails before any call; otherwise the store
      is the one its pages, written in order, reach. */
  lemma OrdersStore(r: Run, db: OrderDb, days: int)
    ensures var h := Horizon(days, OldestOpenDay(db.orders, r.shop), r.today, r.apiLimit);
      var dm := Min(h, r.apiLimit);
      var e := ApiOrders(r, db, days);
      && (Periods(h, dm).Err? ==> e == OtherError(Pass(db, [], 0)))
      && e.value.db == PagesThrough(r, db, e.value.calls, dm)
  {
    var h := Horizon(days, OldestOpenDay(db.orders, r.shop), r.today, r.apiLimit);
    var dm := Min(h, r.apiLimit);
    if Periods(h, dm).Ok? {
      PagesStore(r, db, r.today, dm, Periods(h, dm).value, 0, []);
      var e := ApiOrders(r, db, days);
      assert e.value.calls[0..] == e.value.calls;
    }
  }

  /** A key the API rejects while fetching FBO orders is switched off and FBS is not
      fetched; the FBO pages written before the rejection stay. */
  lemma RejectedKeyStopsTask(keyId: nat, keys: seq<ApiKey>, shops: map<nat, Shop>, now: int,
                             fbo: Run, fboDb: OrderDb, fbs: Run, fbsDb: OrderDb, days: int)
    requires GetKey(keys, shops, Some(keyId), now).Ok?
    requires ApiOrders(fbo, fboDb, days).ApiError? && ApiOrders(fbo, fboDb, days).e == BadApiKey
    ensures var t := UpdateOrders(Some(keyId), keys, shops, now, fbo, fboDb, fbs, fbsDb, days);
      && t.Ok? && t.value.key.Some? && !t.value.key.value.isActive
      && t.value.result == Failure(Raised(BadApiKey))
      && t.value.fbs == fbsDb
      && t.value.fbo == ApiOrders(fbo, fboDb, days).value.db
  {
  }

  /** Whatever the outcome, each order store is the one its run reached: FBO's as its pages
      reach it, FBS's likewise when FBO finished, and untouched otherwise. */
  lemma OrdersTaskStores(keyId: nat, keys: seq<ApiKey>, shops: map<nat, Shop>, now: int,
                         fbo: Run, fboDb: OrderDb, fbs: Run, fbsDb: OrderDb, days: int)
    requires GetKey(keys, shops, Some(keyId), now).Ok?
    ensures var first := ApiOrders(fbo, fboDb, days);
      var second := ApiOrders(fbs, fbsDb, days);
      var t := UpdateOrders(Some(keyId), keys, shops, now, fbo, fboDb, fbs, fbsDb, days);
      var fboDm := Min(Horizon(days, OldestOpenDay(fboDb.orders, fbo.shop), fbo.today, fbo.apiLimit), fbo.apiLimit);
      var fbsDm := Min(Horizon(days, OldestOpenDay(fbsDb.orders, fbs.shop), fbs.today, fbs.apiLimit), fbs.apiLimit);
      && t.Ok?
      && t.value.fbo == PagesThrough(fbo, fboDb, first.value.calls, fboDm)
      && (first.Finished? ==> t.value.fbs == PagesThrough(fbs, fbsDb, second.value.calls, fbsDm))
      && (!first.Finished? ==> t.value.fbs == fbsDb)
  {
    OrdersStore(fbo, fboDb, days);
    OrdersStore(fbs, fbsDb, days);
  }

  /** The sync task succeeds exactly when the key is found and both runs finish. */
  lemma TaskSucceeds(keyId: Option<nat>, keys: seq<ApiKey>, shops: map<nat, Shop>, now: int,
                     fbo: Run, fboDb: OrderDb, fbs: Run, fbsDb: OrderDb, days: int)
    requires UpdateOrders(keyId, keys, shops, now, fbo, fboDb, fbs, fbsDb, days).Ok?
    ensures UpdateOrders(keyId, keys, shops, now, fbo, fboDb, fbs, fbsDb, days).value.result == Success
      <==> keyId.Some? && ApiOrders(fbo, fboDb, days).Finished? && ApiOrders(fbs, fbsDb, days).Finished?
  {
  }

  // ---------------------------------------------------------------- the writer the sync task uses

  /** The run writes a page as api_orders does for the model: orders2db for the shop on each
      chunk of ORDER_CHUNK_SIZE orders. */
  ghost predicate RealWriter(r: Run, ctx: Ctx, kind: Kind)
  {
    && ctx.shop == r.shop && ctx.kind == kind
    && forall db, page :: r.write(db, page) == PageWriter(ctx)(db, page)
  }

  /** Every page the run writes deletes no order and leaves other shops' orders alone. */
  ghost predicate Keeping(r: Run)
  {
    forall db: OrderDb, page: seq<Record> :: ValidTable(db.orders) ==> RF.KeepsOthers(db.orders, r.write(db, page).store.orders, r.shop)
  }

  /** orders2db deletes no order and changes no order of another shop, up to its failure. */
  lemma OrdersToDbKeepsOthers(ctx: Ctx, db: OrderDb, orders: seq<Record>)
    requires ValidTable(db.orders)
    ensures RF.KeepsOthers(db.orders, OrdersToDb(ctx, db, orders).store.orders, ctx.shop)
  {
    var c := OrderCall(ctx, orders);
    if Reconcile(c, db.orders).Ok? {
      RF.ReconcileKeepsOthers(c, db.orders, ctx.shop);
    } else {
      RF.KeepsOthersRefl(db.orders, ctx.shop);
    }
  }

  lemma {:induction false} WriteChunksKeepsOthers(ctx: Ctx, db: OrderDb, cs: seq<seq<Record>>)
    requires ValidTable(db.orders)
    ensures RF.KeepsOthers(db.orders, WriteChunks(ChunkWriter(ctx), db, cs).store.orders, ctx.shop)
    decreases |cs|
  {
    if |cs| == 0 {
      RF.KeepsOthersRefl(db.orders, ctx.shop);
    } else {
      var w := OrdersToDb(ctx, db, cs[0]);
      assert ChunkWriter(ctx)(db, cs[0]) == w;
      OrdersToDbKeepsOthers(ctx, db, cs[0]);
      if w.error.None? {
        WriteChunksKeepsOthers(ctx, w.store, cs[1..]);
        RF.KeepsOthersTrans(db.orders, w.store.orders, WriteChunks(ChunkWriter(ctx), w.store, cs[1..]).store.orders, ctx.shop);
      }
    }
  }

  lemma RealWriterKeeping(r: Run, ctx: Ctx, kind: Kind)
    requires RealWriter(r, ctx, kind)
    ensures Keeping(r)
  {
    forall db: OrderDb, page: seq<Record> | ValidTable(db.orders)
      ensures RF.KeepsOthers(db.orders, r.write(db, page).store.orders, r.shop)
    {
      WriteChunksKeepsOthers(ctx, db, Chunks.Chunks(page, OrderChunkSize));
    }
  }

  /** One iteration of the window loop: it goes on from the written store, or ends there or
      where it began. */
  lemma PagesStep(r: Run, db: OrderDb, dateTo: int, dm: int, left: int, total: int, calls: seq<int>)
    requires left > 0
    ensures var page := r.fetch(dateTo, dm);
      var p := Pages(r, db, dateTo, dm, left, total, calls).value;
      && (page.Err? || |page.value| == 0 ==> p.db == db)
      && (page.Ok? && |page.value| > 0 ==>
            var w := r.write(db, page.value);
            if w.error.None? then
              Pages(r, db, dateTo, dm, left, total, calls)
                == Pages(r, w.store, dateTo - dm, dm, left - 1, total + |page.value|, calls + [dateTo])
            else p.db == w.store)
  {
  }

  /** However the window loop ends, it has deleted no order and left other shops' orders alone. */
  lemma {:induction false} PagesKeepOthers(r: Run, db: OrderDb, dateTo: int, dm: int, left: int, total: int, calls: seq<int>)
    requires Keeping(r) && ValidTable(db.orders)
    ensures RF.KeepsOthers(db.orders, Pages(r, db, dateTo, dm, left, total, calls).value.db.orders, r.shop)
    decreases left
  {
    if left <= 0 {
      RF.KeepsOthersRefl(db.orders, r.shop);
      return;
    }
    PagesStep(r, db, dateTo, dm, left, total, calls);
    var page := r.fetch(dateTo, dm);
    if page.Err? || |page.value| == 0 {
      RF.KeepsOthersRefl(db.orders, r.shop);
    } else {
      var w := r.write(db, page.value);
      assert RF.KeepsOthers(db.orders, w.store.orders, r.shop);
      if w.error.None? {
        var rest := Pages(r, w.store, dateTo - dm, dm, left - 1, total + |page.value|, calls + [dateTo]);
        PagesKeepOthers(r, w.store, dateTo - dm, dm, left - 1, total + |page.value|, calls + [dateTo]);
        RF.KeepsOthersTrans(db.orders, w.store.orders, rest.value.db.orders, r.shop);
      }
    }
  }

  /** api_orders deletes no order and changes no order of another shop. */
  lemma ApiOrdersKeepOthers(r: Run, db: OrderDb, days: int)
    requires Keeping(r) && ValidTable(db.orders)
    ensures RF.KeepsOthers(db.orders, ApiOrders(r, db, days).value.db.orders, r.shop)
  {
    var h := Horizon(days, OldestOpenDay(db.orders, r.shop), r.today, r.apiLimit);
    var dm := Min(h, r.apiLimit);
    var n := Periods(h, dm);
    if n.Err? {
      RF.KeepsOthersRefl(db.orders, r.shop);
    } else {
      PagesKeepOthers(r, db, r.today, dm, n.value, 0, []);
    }
  }

  /** update_orders for a key of the shop, with FBO and FBS written by orders2db, deletes no
      order and changes no order of another shop in either table, however it ends. */
  lemma OrdersTaskKeepsOthers(keyId: nat, keys: seq<ApiKey>, shops: map<nat, Shop>, now: int,
                              fbo: Run, fboCtx: Ctx, fboDb: OrderDb, fbs: Run, fbsCtx: Ctx, fbsDb: OrderDb, days: int)
    requires GetKey(keys, shops, Some(keyId), now).Ok?
    requires GetKey(keys, shops, Some(keyId), now).value.shop == Some(fbo.shop) && fbs.shop == fbo.shop
    requires RealWriter(fbo, fboCtx, FBO) && RealWriter(fbs, fbsCtx, FBS)
    requires ValidTable(fboDb.orders) && ValidTable(fbsDb.orders)
    ensures var t := UpdateOrders(Some(keyId), keys, shops, now, fbo, fboDb, fbs, fbsDb, days).value;
      && RF.KeepsOthers(fboDb.orders, t.fbo.orders, fbo.shop)
      && RF.KeepsOthers(fbsDb.orders, t.fbs.orders, fbs.shop)
  {
    RealWriterKeeping(fbo, fboCtx, FBO);
    RealWriterKeeping(fbs, fbsCtx, FBS);
    ApiOrdersKeepOthers(fbo, fboDb, days);
    ApiOrdersKeepOthers(fbs, fbsDb, days);
    RF.KeepsOthersRefl(fbsDb.orders, fbs.shop);
  }
}
