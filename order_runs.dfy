/** api_orders and the update_orders task of backend/mp/tasks/update_orders.py: the
    horizon, the backwards window loop and the sync task around it. */
module OrderRuns {
  import opened Wrappers
  import opened Values
  import opened Windows
  import opened Chunks
  import opened Reconciler
  import opened Accounts
  import opened Tasks
  import opened Orders

  const OrderChunkSize: nat := 3000

  /** The horizon used when the shop has no open order. */
  const EmptyHorizon: int := 360

  /** api.fbo_fbs(dt=date_to, days=days_max): one page of orders, or the API's exception. */
  type Fetch = (int, int) -> Result<seq<Record>>

  /** An open order of the shop: not delivered or cancelled, with a creation time. */
  predicate OpenOrder(row: Record, shop: nat)
  {
    && Get(row, "shop") == VRef(shop)
    && Get(row, "status") != VStr("delivered") && Get(row, "status") != VStr("cancelled")
    && Get(row, "created_at").VDateTime?
  }

  /** Min("created_at") over the open orders with keys below n. */
  function OldestUpTo(rows: map<nat, Record>, n: nat, shop: nat): (r: Option<int>)
    ensures r.None? <==> forall id :: id < n && id in rows ==> !OpenOrder(rows[id], shop)
    ensures r.Some? ==> forall id :: id < n && id in rows && OpenOrder(rows[id], shop) ==>
      r.value <= Get(rows[id], "created_at").instant
    ensures r.Some? ==> exists id :: (id < n && id in rows && OpenOrder(rows[id], shop)
      && r.value == Get(rows[id], "created_at").instant)
  {
    if n == 0 then None
    else
      var m := OldestUpTo(rows, n - 1, shop);
      if n - 1 in rows && OpenOrder(rows[n - 1], shop) then
        var t := Get(rows[n - 1], "created_at").instant;
        if m.Some? && m.value <= t then m else Some(t)
      else m
  }

  /** The day of the oldest open order, if any. */
  function OldestOpenDay(t: Table, shop: nat): Option<int>
  {
    var m := OldestUpTo(t.rows, t.nextId, shop);
    if m.Some? then Some(DayOf(m.value)) else None
  }

  /** The widened horizon: 360 days for a shop without open orders, otherwise the
      requested days or the age of the oldest open order (capped at the API limit),
      whichever is larger. */
  function Horizon(days: int, oldest: Option<int>, today: int, apiLimit: nat): int
  {
    if oldest.None? then EmptyHorizon
    else Max(days, Min(today - oldest.value, apiLimit))
  }

  /** What a non-empty page does to the store: the writes it committed, and the
      exception that stopped them, if any. */
  type Writer = (OrderDb, seq<Record>) -> Committed<OrderDb>

  /** The fixed inputs of one api_orders run: the shop, the API, how a page is written,
      today and API_LIMIT_DAYS. */
  datatype Run = Run(shop: nat, fetch: Fetch, write: Writer, today: int, apiLimit: nat)

  /** The store the run reached, the dates asked for, and total_rows. */
  datatype Pass = Pass(db: OrderDb, calls: seq<int>, total: int)

  /** for data_chunk in chunks(orders, ORDER_CHUNK_SIZE): orders2db(data_chunk, shop, model);
      a failing chunk keeps what it and the chunks before it committed. */
  function WriteChunks(write: Writer, db: OrderDb, cs: seq<seq<Record>>): Committed<OrderDb>
    decreases |cs|
  {
    if |cs| == 0 then Committed(db, None)
    else
      var w := write(db, cs[0]);
      if w.error.Some? then w
      else WriteChunks(write, w.store, cs[1..])
  }

  /** orders2db as a writer of one chunk. */
  function ChunkWriter(ctx: Ctx): Writer
  {
    (db: OrderDb, chunk: seq<Record>) => OrdersToDb(ctx, db, chunk)
  }

  /** The remaining iterations of the window loop, from date_to on with left periods still
      in the range. */
  function Pages(r: Run, db: OrderDb, dateTo: int, daysMax: int, left: int, total: int, calls: seq<int>): End<Pass>
    decreases left
  {
    if left <= 0 then Finished(Pass(db, calls, total))
    else
      var asked := calls + [dateTo];
      var page := r.fetch(dateTo, daysMax);
      if page.Err? then ApiError(page.error, Pass(db, asked, total))
      else if |page.value| == 0 then Finished(Pass(db, asked, total))
      else
        var w := r.write(db, page.value);
        if w.error.Some? then OtherError(Pass(w.store, asked, total))
        else Pages(r, w.store, dateTo - daysMax, daysMax, left - 1, total + |page.value|, asked)
  }

  /** The page writer of orders2db. */
  function PageWriter(ctx: Ctx): Writer
  {
    (db: OrderDb, page: seq<Record>) => WriteChunks(ChunkWriter(ctx), db, Chunks.Chunks(page, OrderChunkSize))
  }

  /** api_orders(shop, api, days, model) */
  function ApiOrders(r: Run, db: OrderDb, days: int): End<Pass>
  {
    var h := Horizon(days, OldestOpenDay(db.orders, r.shop), r.today, r.apiLimit);
    var dm := Min(h, r.apiLimit);
    var n := Periods(h, dm);
    if n.Err? then OtherError(Pass(db, [], 0))
    else Pages(r, db, r.today, dm, n.value, 0, [])
  }

  // ---------------------------------------------------------------- the loops

  /** The chunk loop over one non-empty page: the method PageWriter stands for. */
  method WritePage(ctx: Ctx, db: OrderDb, page: seq<Record>) returns (res: Committed<OrderDb>)
    ensures SameReach(res, PageWriter(ctx)(db, page))
  {
    var cs := Chunks.Chunks(page, OrderChunkSize);
    var cur := db;
    for i := 0 to |cs|
      invariant WriteChunks(ChunkWriter(ctx), db, cs) == WriteChunks(ChunkWriter(ctx), cur, cs[i..])
    {
      assert cs[i..][0] == cs[i] && cs[i..][1..] == cs[i + 1..];
      var w := OrdersToDbM(ctx, cur, cs[i]);
      if w.error.Some? {
        return w;
      }
      cur := w.store;
    }
    return Committed(cur, None);
  }

  /** api_orders: the horizon, then the window loop. */
  method ApiOrdersM(r: Run, db: OrderDb, days: int) returns (res: End<Pass>)
    ensures res == ApiOrders(r, db, days)
  {
    var h := Horizon(days, OldestOpenDay(db.orders, r.shop), r.today, r.apiLimit);
    var dm := Min(h, r.apiLimit);
    var n := Periods(h, dm);
    if n.Err? {
      return OtherError(Pass(db, [], 0));
    }
    res := PagesM(r, db, dm, n.value);
  }

  /** The window loop: today backwards in steps of days_max, stopping at the first empty page. */
  method PagesM(r: Run, db: OrderDb, dm: int, n: int) returns (res: End<Pass>)
    ensures res == Pages(r, db, r.today, dm, n, 0, [])
  {
    var dateTo := r.today;
    var total := 0;
    var calls: seq<int> := [];
    var cur := db;
    var k := 0;
    while k < n
      invariant Pages(r, db, r.today, dm, n, 0, []) == Pages(r, cur, dateTo, dm, n - k, total, calls)
      decreases n - k
    {
      var page := r.fetch(dateTo, dm);
      calls := calls + [dateTo];
      if page.Err? {
        return ApiError(page.error, Pass(cur, calls, total));
      }
      if |page.value| == 0 {
        return Finished(Pass(cur, calls, total));
      }
      var w := r.write(cur, page.value);
      if w.error.Some? {
        return OtherError(Pass(w.store, calls, total));
      }
      cur := w.store;
      total := total + |page.value|;
      dateTo := dateTo - dm;
      k := k + 1;
    }
    return Finished(Pass(cur, calls, total));
  }

  // ---------------------------------------------------------------- the sync task

  /** What update_orders leaves: the key, both order stores, and the result. */
  datatype OrdersTask = OrdersTask(key: Option<ApiKey>, fbo: OrderDb, fbs: OrderDb, result: TaskResult)

  /** update_orders(apikey_id, days): an exception from get_key escapes the sync task. */
  function UpdateOrders(keyId: Option<nat>, keys: seq<ApiKey>, shops: map<nat, Shop>, now: int,
                        fbo: Run, fboDb: OrderDb, fbs: Run, fbsDb: OrderDb, days: int): Result<OrdersTask>
  {
    if keyId.None? then Ok(OrdersTask(None, fboDb, fbsDb, Failure(EmptyKey)))
    else
      var key :- GetKey(keys, shops, keyId, now);
      var first := ApiOrders(fbo, fboDb, days);
      if !first.Finished? then
        var (key', result) := Settle(key, first);
        Ok(OrdersTask(Some(key'), first.value.db, fbsDb, result))
      else
        var second := ApiOrders(fbs, fbsDb, days);
        var (key', result) := Settle(key, second);
        Ok(OrdersTask(Some(key'), first.value.db, second.value.db, result))
  }

  method UpdateOrdersM(keyId: Option<nat>, keys: seq<ApiKey>, shops: map<nat, Shop>, now: int,
                       fbo: Run, fboDb: OrderDb, fbs: Run, fbsDb: OrderDb, days: int) returns (res: Result<OrdersTask>)
    ensures res == UpdateOrders(keyId, keys, shops, now, fbo, fboDb, fbs, fbsDb, days)
  {
    if keyId.None? {
      return Ok(OrdersTask(None, fboDb, fbsDb, Failure(EmptyKey)));
    }
    var key := GetKey(keys, shops, keyId, now);
    if key.Err? {
      return Err(key.error);
    }
    var first := ApiOrdersM(fbo, fboDb, days);
    if !first.Finished? {
      var (key', result) := Settle(key.value, first);
      return Ok(OrdersTask(Some(key'), first.value.db, fbsDb, result));
    }
    var second := ApiOrdersM(fbs, fbsDb, days);
    var (key', result) := Settle(key.value, second);
    return Ok(OrdersTask(Some(key'), first.value.db, second.value.db, result));
  }
}
