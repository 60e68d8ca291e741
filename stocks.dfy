/** update_stocks of backend/mp/tasks/update_stocks.py: the products refresh it starts with,
    the per-record get_or_create of stock and warehouse-stock rows with the field-by-field
    update, and the result it builds from the two runs. */
module Stocks {
  import opened Wrappers
  import opened Values
  import opened Accounts
  import opened Reconciler
  import Products

  /** Stock rows are found by (shop, product_id, date, type). */
  const StockKey: set<string> := {"product_id", "date", "type"}

  /** WarehouseStock rows are found by (shop, sku, date, warehouse). */
  const WarehouseKey: set<string> := {"sku", "date", "warehouse"}

  /** A stock model: its field names, and the constraints of the store a new row must meet
      (a create they reject raises IntegrityError and is rolled back). */
  datatype Model = Model(fields: set<string>, rejects: Record -> bool)

  // ---------------------------------------------------------------- get_or_create

  /** {**{"shop": shop}, **{k: v for k, v in s.items() if k in key}} */
  function LookupKey(shop: nat, s: Record, keyFields: set<string>): (key: Record)
    ensures key.Keys == {"shop"} + (s.Keys * keyFields)
    ensures forall f :: f in keyFields && f in s ==> key[f] == s[f]
    ensures "shop" !in keyFields ==> key["shop"] == VRef(shop)
  {
    map["shop" := VRef(shop)] + Restrict(s, keyFields)
  }

  /** A row get_or_create(**key) would find. */
  predicate Matches(row: Record, key: Record)
  {
    forall f :: f in key ==> Get(row, f) == key[f]
  }

  /** The rows below id n that match key, ascending. */
  function MatchIds(rows: map<nat, Record>, n: nat, key: Record): (ids: seq<nat>)
    ensures forall id :: id in ids <==> id < n && id in rows && Matches(rows[id], key)
    ensures forall i, j :: 0 <= i < j < |ids| ==> ids[i] < ids[j]
    ensures forall i :: 0 <= i < |ids| ==> ids[i] < n
  {
    if n == 0 then []
    else MatchIds(rows, n - 1, key) + (if n - 1 in rows && Matches(rows[n - 1], key) then [n - 1] else [])
  }

  /** get_or_create(**key): the one matching row; with none, a new row holding the key at the
      next id unless the store rejects it; MultipleObjectsReturned with more than one. */
  function GetOrCreate(model: Model, t: Table, key: Record): (r: Result<(Table, nat)>)
    ensures r == Err(MultipleObjects) <==> |MatchIds(t.rows, t.nextId, key)| > 1
    ensures r == Err(IntegrityError) <==> |MatchIds(t.rows, t.nextId, key)| == 0 && model.rejects(key)
    ensures r.Err? ==> r.error in {MultipleObjects, IntegrityError}
    ensures r.Ok? ==> r.value.1 in r.value.0.rows && Matches(r.value.0.rows[r.value.1], key)
    ensures r.Ok? && |MatchIds(t.rows, t.nextId, key)| == 1 ==> r.value == (t, MatchIds(t.rows, t.nextId, key)[0])
    ensures r.Ok? && |MatchIds(t.rows, t.nextId, key)| == 0 ==>
      r.value == (Table(t.rows[t.nextId := key], t.nextId + 1), t.nextId)
  {
    var ids := MatchIds(t.rows, t.nextId, key);
    if |ids| > 1 then Err(MultipleObjects)
    else if |ids| == 1 then
      assert ids[0] in ids;
      Ok((t, ids[0]))
    else if model.rejects(key) then Err(IntegrityError)
    else Ok((Table(t.rows[t.nextId := key], t.nextId + 1), t.nextId))
  }

  // ---------------------------------------------------------------- one record

  /** The stock field rule: update_products' rule without its timestamp case. */
  function Rule(): (rule: Products.FieldRule)
    ensures forall a, st, v :: rule(a, st, v) == Products.PlainUpdate(st, v)
  {
    (a: string, st: Value, v: Value) => Products.PlainUpdate(st, v)
  }

  /** A rule under which a field already holding the incoming value is unchanged. */
  ghost predicate Steady(rule: Products.FieldRule)
  {
    forall a, x :: rule(a, x, x).Ok? && !rule(a, x, x).value.0
  }

  /** One record: get_or_create, the loop over its model fields under rule, and a save when
      one changed.  The table is as the record left it, also when the field loop raised (the
      row get_or_create made stays). */
  function Upsert(model: Model, rule: Products.FieldRule, t: Table, key: Record, s: Record): (Table, Result<bool>)
  {
    match GetOrCreate(model, t, key)
    case Err(e) => (t, Err(e))
    case Ok((t1, id)) =>
      match Products.ApplyFields(rule, t1.rows[id], Restrict(s, model.fields))
      case Err(e) => (t1, Err(e))
      case Ok((obj, changed)) =>
        if changed != {} then (Table(t1.rows[id := obj], t1.nextId), Ok(true)) else (t1, Ok(false))
  }

  /** What handling one record does to a table: the table after it, and whether it saved. */
  type Step = (Table, Record, Record) -> (Table, Result<bool>)

  /** The record handler of both loops, for one model and field rule. */
  function UpsertStep(model: Model, rule: Products.FieldRule): (step: Step)
    ensures forall t, key, s :: step(t, key, s) == Upsert(model, rule, t, key, s)
  {
    (t: Table, key: Record, s: Record) => Upsert(model, rule, t, key, s)
  }

  /** The loop over the records from total on: the table as far as it got, and the count of
      saved records or the exception that ended it.  With skipRejected (api_stocks) a record
      whose create the store rejects is passed over; warehouse_stocks_to_db catches nothing. */
  function UpsertAll(step: Step, keyFields: set<string>, skipRejected: bool, shop: nat, t: Table, total: nat,
                     ss: seq<Record>): (Table, Result<nat>)
    decreases |ss|
  {
    if |ss| == 0 then (t, Ok(total))
    else
      var (t1, r) := step(t, LookupKey(shop, ss[0], keyFields), ss[0]);
      if skipRejected && r == Err(IntegrityError) then UpsertAll(step, keyFields, skipRejected, shop, t, total, ss[1..])
      else if r.Err? then (t1, Err(r.error))
      else UpsertAll(step, keyFields, skipRejected, shop, t1, if r.value then total + 1 else total, ss[1..])
  }

  /** api_stocks(shop, api): the fetch, then the loop. */
  function ApiStocks(model: Model, shop: nat, stocks: Result<seq<Record>>, t: Table): (Table, Result<nat>)
  {
    if stocks.Err? then (t, Err(stocks.error)) else UpsertAll(UpsertStep(model, Rule()), StockKey, true, shop, t, 0, stocks.value)
  }

  /** api_warehouse_stocks(shop, api): the fetch, then warehouse_stocks_to_db. */
  function ApiWarehouseStocks(model: Model, shop: nat, stocks: Result<seq<Record>>, t: Table): (Table, Result<nat>)
  {
    if stocks.Err? then (t, Err(stocks.error)) else UpsertAll(UpsertStep(model, Rule()), WarehouseKey, false, shop, t, 0, stocks.value)
  }

  // ---------------------------------------------------------------- the sync task

  /** api.stocks() and api.warehouse_stocks(). */
  datatype StockApi = StockApi(stocks: Result<seq<Record>>, warehouse: Result<seq<Record>>)

  /** The Stock and WarehouseStock tables. */
  datatype StockDb = StockDb(stock: Table, warehouse: Table)

  /** The inputs of one update_stocks call besides the key and the stores. */
  datatype StockRun = StockRun(env: Env, productFields: set<string>, productApi: Products.ProductApi,
                               stockModel: Model, warehouseModel: Model, api: StockApi)

  /** One of the two stock results: the count, the error text an exception is turned into,
      or nothing when the shop has no products. */
  datatype Part = Updated(count: nat) | Failed | NotRun

  function PartOf(r: Result<nat>): (p: Part)
    ensures p != NotRun
    ensures p.Updated? <==> r.Ok?
    ensures p.Updated? ==> p.count == r.value
  {
    if r.Ok? then Updated(r.value) else Failed
  }

  /** What update_stocks leaves: nothing without a key id; else the products report, the
      stock tables and the two results. */
  datatype StocksTask = NoKey | Ran(products: Products.ProductReport, db: StockDb, stocks: Part, warehouse: Part)

  /** Product.objects.filter(shop=shop) */
  function ShopProducts(rows: map<Value, Record>, shop: nat): (ids: set<Value>)
    ensures forall id :: id in ids <==> id in rows && Get(rows[id], "shop") == VRef(shop)
  {
    set id | id in rows && Get(rows[id], "shop") == VRef(shop)
  }

  /** update_products(apikey_id=...) run synchronously, then get_key(apikey_id) on the shops
      it leaves: the products report and the key's shop. */
  function Prelude(keyId: nat, keys: seq<ApiKey>, now: int, run: StockRun, c: Products.Catalog)
    : Result<(Products.ProductReport, nat)>
  {
    var pt := Products.UpdateProducts(Some(keyId), keys, now, run.env, run.productFields, run.productApi, c);
    if !pt.end.Reported? then Err(if pt.end.Escaped? then pt.end.e else KeyError)
    else
      var key :- GetKey(keys, pt.catalog.shops, Some(keyId), now);
      Ok((Products.ProductReport(pt.catalog, pt.end.total, pt.end.deleted), key.shop.value))
  }

  /** The two runs, each in its own try block. */
  function BothStocks(run: StockRun, shop: nat, db: StockDb): (StockDb, Part, Part)
  {
    var (st, rs) := ApiStocks(run.stockModel, shop, run.api.stocks, db.stock);
    var (wt, rw) := ApiWarehouseStocks(run.warehouseModel, shop, run.api.warehouse, db.warehouse);
    (StockDb(st, wt), PartOf(rs), PartOf(rw))
  }

  /** update_stocks as written: with no product in the shop result_wh_stocks is never
      assigned, and building the result raises UnboundLocalError. */
  function UpdateStocksAsWritten(keyId: Option<nat>, keys: seq<ApiKey>, now: int, run: StockRun,
                                 c: Products.Catalog, db: StockDb): Result<StocksTask>
  {
    if keyId.None? then Ok(NoKey)
    else
      var (report, shop) :- Prelude(keyId.value, keys, now, run, c);
      if |ShopProducts(report.catalog.products, shop)| == 0 then Err(UnboundLocal)
      else
        var (db', rs, rw) := BothStocks(run, shop, db);
        Ok(Ran(report, db', rs, rw))
  }

  /** update_stocks as intended: a shop without products reports that neither run was made. */
  function UpdateStocks(keyId: Option<nat>, keys: seq<ApiKey>, now: int, run: StockRun,
                        c: Products.Catalog, db: StockDb): Result<StocksTask>
  {
    if keyId.None? then Ok(NoKey)
    else
      var (report, shop) :- Prelude(keyId.value, keys, now, run, c);
      if |ShopProducts(report.catalog.products, shop)| == 0 then Ok(Ran(report, db, NotRun, NotRun))
      else
        var (db', rs, rw) := BothStocks(run, shop, db);
        Ok(Ran(report, db', rs, rw))
  }

  // ---------------------------------------------------------------- the loops

  /** One record, with the field loop of update_products. */
  method UpsertM(model: Model, rule: Products.FieldRule, t: Table, key: Record, s: Record) returns (t': Table, r: Result<bool>)
    ensures (t', r) == Upsert(model, rule, t, key, s)
  {
    var g := GetOrCreate(model, t, key);
    if g.Err? {
      return t, Err(g.error);
    }
    var (t1, id) := g.value;
    var applied := Products.ApplyFieldsM(rule, t1.rows[id], Restrict(s, model.fields));
    if applied.Err? {
      return t1, Err(applied.error);
    }
    var (obj, changed) := applied.value;
    if changed != {} {
      return Table(t1.rows[id := obj], t1.nextId), Ok(true);
    }
    return t1, Ok(false);
  }

  /** for s in stocks: ... with total += 1 on every save. */
  method UpsertAllM(model: Model, rule: Products.FieldRule, keyFields: set<string>, skipRejected: bool, shop: nat, t0: Table, ss: seq<Record>)
    returns (t: Table, res: Result<nat>)
    ensures (t, res) == UpsertAll(UpsertStep(model, rule), keyFields, skipRejected, shop, t0, 0, ss)
  {
    t := t0;
    var total := 0;
    for i := 0 to |ss|
      invariant UpsertAll(UpsertStep(model, rule), keyFields, skipRejected, shop, t0, 0, ss) ==
        UpsertAll(UpsertStep(model, rule), keyFields, skipRejected, shop, t, total, ss[i..])
    {
      assert ss[i..][0] == ss[i] && ss[i..][1..] == ss[i + 1..];
      var t1, r := UpsertM(model, rule, t, LookupKey(shop, ss[i], keyFields), ss[i]);
      if skipRejected && r == Err(IntegrityError) {
        continue;
      }
      if r.Err? {
        return t1, Err(r.error);
      }
      t := t1;
      if r.value {
        total := total + 1;
      }
    }
    assert ss[|ss|..] == [];
    return t, Ok(total);
  }

  method ApiStocksM(model: Model, keyFields: set<string>, skipRejected: bool, shop: nat,
                    stocks: Result<seq<Record>>, t0: Table) returns (t: Table, res: Result<nat>)
    ensures (t, res) == (if stocks.Err? then (t0, Err(stocks.error))
                         else UpsertAll(UpsertStep(model, Rule()), keyFields, skipRejected, shop, t0, 0, stocks.value))
  {
    if stocks.Err? {
      return t0, Err(stocks.error);
    }
    t, res := UpsertAllM(model, Rule(), keyFields, skipRejected, shop, t0, stocks.value);
  }

  /** update_stocks, run with the corrected ending. */
  method UpdateStocksM(keyId: Option<nat>, keys: seq<ApiKey>, now: int, run: StockRun,
                       c: Products.Catalog, db: StockDb) returns (res: Result<StocksTask>)
    ensures res == UpdateStocks(keyId, keys, now, run, c, db)
  {
    if keyId.None? {
      return Ok(NoKey);
    }
    var pre := Prelude(keyId.value, keys, now, run, c);
    if pre.Err? {
      return Err(pre.error);
    }
    var (report, shop) := pre.value;
    if |ShopProducts(report.catalog.products, shop)| == 0 {
      return Ok(Ran(report, db, NotRun, NotRun));
    }
    var st, rs := ApiStocksM(run.stockModel, StockKey, true, shop, run.api.stocks, db.stock);
    var wt, rw := ApiStocksM(run.warehouseModel, WarehouseKey, false, shop, run.api.warehouse, db.warehouse);
    return Ok(Ran(report, StockDb(st, wt), PartOf(rs), PartOf(rw)));
  }
}
