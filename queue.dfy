/** check_campaign_report, check_queue, statistics_product, statistics_order and
    is_correct_report of backend/mp/tasks/check_campaign_report.py: one pass over at most five
    waiting reports moves each along (download, close, check, or send its request), with at
    most one new request accepted per pass. */
module ReportQueue {
  import opened Wrappers
  import opened Values
  import opened Accounts
  import opened Tasks
  import opened Reports
  import opened QueueOrder
  import opened Reconciler
  import Stocks
  import Products
  import Campaigns

  const DisableApiKeyMinutes: int := 15

  /** The page and condition a product line without them is filed under. */
  const DefaultPage: string := "Трафареты"

  // ---------------------------------------------------------------- is_correct_report

  /** value[key] on decoded JSON: a missing key of an object raises KeyError, indexing
      anything else by a text raises TypeError. */
  function Index(v: Value, key: string): (r: Result<Value>)
    ensures r.Ok? <==> v.VObj? && key in v.fields
    ensures r.Ok? ==> r.value == v.fields[key]
    ensures r.Err? ==> r.error == (if v.VObj? then KeyError else TypeError)
  {
    if !v.VObj? then Err(TypeError)
    else if key !in v.fields then Err(KeyError)
    else Ok(v.fields[key])
  }

  /** datetime.strptime(value, "%Y-%m-%d") as a day number. */
  function ParseDay(parseDay: string -> Option<int>, v: Value): (r: Result<int>)
    ensures r.Ok? <==> v.VStr? && parseDay(v.s).Some?
    ensures r.Ok? ==> r.value == parseDay(v.s).value
    ensures r.Err? ==> r.error == (if v.VStr? then ValueError else TypeError)
  {
    if !v.VStr? then Err(TypeError)
    else if parseDay(v.s).None? then Err(ValueError)
    else Ok(parseDay(v.s).value)
  }

  /** len(value) */
  function Len(v: Value): (r: Result<nat>)
    ensures r.Ok? <==> v.VList? || v.VObj? || v.VStr?
    ensures r.Err? ==> r.error == TypeError
  {
    match v
    case VList(items) => Ok(|items|)
    case VObj(fields) => Ok(|fields|)
    case VStr(s) => Ok(|s|)
    case _ => Err(TypeError)
  }

  /** is_correct_report(conditions): the range is at most LIMIT_DAYS days and at most
      LIMIT_CAMPAIGNS campaigns are named; `and` does not look at the campaigns when the
      range is already too long. */
  function IsCorrectReport(parseDay: string -> Option<int>, limitDays: int, limitCampaigns: int, cond: Value): Result<bool>
  {
    var params :- Index(cond, "params");
    var from :- Index(params, "dateFrom");
    var dateFrom :- ParseDay(parseDay, from);
    var to :- Index(params, "dateTo");
    var dateTo :- ParseDay(parseDay, to);
    if dateTo - dateFrom > limitDays then Ok(false)
    else
      var campaigns :- Index(params, "campaigns");
      var n :- Len(campaigns);
      Ok(n <= limitCampaigns)
  }

  // ---------------------------------------------------------------- statistics_product

  /** The statistics stores: StatisticsCampaignProduct and StatisticsCampaignOrder. */
  datatype StatDb = StatDb(products: Table, orders: Table)

  /** What one pass reads besides the stores: the conversions, the two statistics models,
      update_product_statistics, the advertising API (a 404 on download is Err(NotFound)),
      json.loads and json.dumps of a report's texts, strptime of a day, LIMIT_DAYS,
      LIMIT_CAMPAIGNS, and now. */
  datatype Ctx = Ctx(
    env: Env,
    productModel: Stocks.Model,
    orderModel: Stocks.Model,
    refresh: (Table, Table, set<Value>) -> Table,
    download: string -> Result<seq<(string, seq<Record>)>>,
    check: string -> Result<Record>,
    request: Record -> Result<Record>,
    loads: string -> Result<Value>,
    dumps: Value -> string,
    parseDay: string -> Option<int>,
    limitDays: int,
    limitCampaigns: int,
    now: int)

  /** l.get(key, default) */
  function GetOr(l: Record, key: string, default: Value): Value
  {
    if key in l then l[key] else default
  }

  /** The lookup of statistics_product's get_or_create. */
  function ProductKey(l: Record): Result<Record>
  {
    if "campaign_id" !in l || "dt" !in l || "sku" !in l then Err(KeyError)
    else Ok(map["campaign_id" := l["campaign_id"], "dt" := l["dt"], "sku" := l["sku"],
                "page" := GetOr(l, "page", VStr(DefaultPage)), "condition" := GetOr(l, "condition", VStr(DefaultPage))])
  }

  /** The fields of a line that differ as text are set, and the row is saved. */
  function Patch(ctx: Ctx, model: Stocks.Model, t: Table, id: nat, l: Record): Result<Table>
    requires id in t.rows
  {
    var (row, _) :- Products.ApplyFields(Campaigns.LinkRule(ctx.env), t.rows[id], Restrict(l, model.fields));
    Ok(Table(t.rows[id := row], t.nextId))
  }

  /** One line of statistics_product; MultipleObjectsReturned is not caught. */
  function ProductLine(ctx: Ctx, t: Table, l: Record): Result<Table>
  {
    var key :- ProductKey(l);
    var (t1, id) :- Stocks.GetOrCreate(ctx.productModel, t, key);
    Patch(ctx, ctx.productModel, t1, id, l)
  }

  /** statistics_product(lines): the rows saved before a line raises stay saved. */
  function StatisticsProduct(ctx: Ctx, t: Table, lines: seq<Record>): (Table, Option<Error>)
    decreases |lines|
  {
    if |lines| == 0 then (t, None)
    else
      match ProductLine(ctx, t, lines[0])
      case Err(e) => (t, Some(e))
      case Ok(t') => StatisticsProduct(ctx, t', lines[1..])
  }

  // ---------------------------------------------------------------- statistics_order

  /** The lookup of statistics_order's get_or_create. */
  function OrderKey(l: Record): Result<Record>
  {
    if "order_id" !in l || "sale_product_sku" !in l || "campaign_id" !in l then Err(KeyError)
    else Ok(map["order_id" := l["order_id"], "sale_product_sku" := l["sale_product_sku"], "campaign_id" := l["campaign_id"]])
  }

  /** One line of statistics_order after its campaign is noted: a lookup matching several
      rows skips the line. */
  function OrderLine(ctx: Ctx, t: Table, l: Record): Result<Table>
  {
    var key :- OrderKey(l);
    match Stocks.GetOrCreate(ctx.orderModel, t, key)
    case Err(e) => if e == MultipleObjects then Ok(t) else Err(e)
    case Ok((t1, id)) => Patch(ctx, ctx.orderModel, t1, id, l)
  }

  /** The loop of statistics_order: the table, the campaign ids noted, and what it raised. */
  function OrderLines(ctx: Ctx, t: Table, ids: set<Value>, lines: seq<Record>): (Table, set<Value>, Option<Error>)
    decreases |lines|
  {
    if |lines| == 0 then (t, ids, None)
    else if "campaign_id" !in lines[0] then (t, ids, Some(KeyError))
    else
      var ids' := ids + {lines[0]["campaign_id"]};
      match OrderLine(ctx, t, lines[0])
      case Err(e) => (t, ids', Some(e))
      case Ok(t') => OrderLines(ctx, t', ids', lines[1..])
  }

  /** statistics_order(lines): after a clean loop the product statistics of the noted
      campaigns are rebuilt from the orders, when there are any. */
  function StatisticsOrder(ctx: Ctx, db: StatDb, lines: seq<Record>): (StatDb, Option<Error>)
  {
    var (orders, ids, err) := OrderLines(ctx, db.orders, {}, lines);
    if err.Some? then (db.(orders := orders), err)
    else (StatDb(if ids != {} then ctx.refresh(orders, db.products, ids) else db.products, orders), None)
  }

  /** for type_, lines in result.items(): "SKU" and "SEARCH_PROMO" are stored, any other type
      is only logged. */
  function Payload(ctx: Ctx, db: StatDb, items: seq<(string, seq<Record>)>): (StatDb, Option<Error>)
    decreases |items|
  {
    if |items| == 0 then (db, None)
    else
      var (kind, lines) := items[0];
      if kind == "SKU" then
        var (products, err) := StatisticsProduct(ctx, db.products, lines);
        if err.Some? then (db.(products := products), err) else Payload(ctx, db.(products := products), items[1..])
      else if kind == "SEARCH_PROMO" then
        var (db', err) := StatisticsOrder(ctx, db, lines);
        if err.Some? then (db', err) else Payload(ctx, db', items[1..])
      else Payload(ctx, db, items[1..])
  }

  // ---------------------------------------------------------------- check_queue

  /** The stores during a pass, report_sent, and the reports whose request was sent and
      whose request was accepted (given a UUID), in order. */
  datatype Pass = Pass(reports: ReportTable, stats: StatDb, sent: bool, requested: seq<nat>, accepted: seq<nat>)

  /** A pass as far as it got, and the exception that stopped it, if any. */
  datatype Ran = Ran(pass: Pass, error: Option<Error>)

  /** r.save(): the in-memory report is written; updated_at is set to now. */
  function Save(t: ReportTable, id: nat, r: Report, now: int): ReportTable
  {
    ReportTable(t.rows[id := r.(updatedAt := now)], t.nextId)
  }

  /** A JSON value assigned to a text column: None is NULL, a text itself, anything else
      its str(). */
  function Text(env: Env, v: Value): Option<string>
  {
    if v.VNone? then None else if v.VStr? then Some(v.s) else Some(env.show(v))
  }

  /** A report with a uuid in state OK: its payload is stored and it is closed; a 404 closes
      it as FAIL with nothing stored. */
  function Downloaded(ctx: Ctx, p: Pass, id: nat, r: Report): Ran
    requires r.uuid.Some?
  {
    var res := ctx.download(r.uuid.value);
    if res.Err? && res.error != NotFound then Ran(p, Some(res.error))
    else
      var items := if res.Ok? then res.value else [];
      var r1 := if res.Ok? then r else r.(state := Some("FAIL"));
      var (db, err) := Payload(ctx, p.stats, items);
      if err.Some? then Ran(p.(stats := db), err)
      else Ran(p.(stats := db, reports := Save(p.reports, id, r1.(isParsed := true), ctx.now)), None)
  }

  /** A report with a uuid not yet OK: its status is asked for and stored; any state but OK
      blocks new requests for the rest of the pass. */
  function Checked(ctx: Ctx, p: Pass, id: nat, r: Report): Ran
    requires r.uuid.Some?
  {
    match ctx.check(r.uuid.value)
    case Err(e) => Ran(p, Some(e))
    case Ok(res) =>
      var state := Get(res, "state");
      var r1 := r.(response := Some(ctx.dumps(VObj(res))), state := Text(ctx.env, state));
      Ran(p.(reports := Save(p.reports, id, r1, ctx.now), sent := p.sent || state != VStr("OK")), None)
  }

  /** A report not yet sent: bad conditions delete it, otherwise its request is sent and a
      returned UUID is stored and blocks further requests. */
  function Requested(ctx: Ctx, p: Pass, id: nat, r: Report): Ran
  {
    match ctx.loads(r.conditions)
    case Err(e) => Ran(p, Some(e))
    case Ok(cond) =>
      match IsCorrectReport(ctx.parseDay, ctx.limitDays, ctx.limitCampaigns, cond)
      case Err(e) => Ran(p, Some(e))
      case Ok(correct) =>
        if !correct then Ran(p.(reports := ReportTable(p.reports.rows - {id}, p.reports.nextId)), None)
        else if !cond.VObj? then Ran(p, Some(TypeError))
        else
          var p1 := p.(requested := p.requested + [id]);
          match ctx.request(cond.fields)
          case Err(e) => Ran(p1, Some(e))
          case Ok(res) =>
            if "error" in res || "UUID" !in res then Ran(p1, None)
            else Ran(p1.(reports := Save(p.reports, id, r.(uuid := Text(ctx.env, res["UUID"])), ctx.now),
                         sent := true, accepted := p.accepted + [id]), None)
  }

  /** One iteration of the loop over the reports, on the report as the query read it. */
  function Step(ctx: Ctx, p: Pass, id: nat, r: Report): Ran
  {
    if r.uuid.Some? && r.state == Some("OK") then Downloaded(ctx, p, id, r)
    else if r.state == Some("ERROR") then Ran(p.(reports := Save(p.reports, id, r.(isParsed := true), ctx.now)), None)
    else if r.uuid.Some? then Checked(ctx, p, id, r)
    else if !p.sent then Requested(ctx, p, id, r)
    else Ran(p, None)
  }

  /** The loop: an exception ends the pass with what was saved before it. */
  function Steps(ctx: Ctx, p: Pass, batch: seq<(nat, Report)>): Ran
    decreases |batch|
  {
    if |batch| == 0 then Ran(p, None)
    else
      var ran := Step(ctx, p, batch[0].0, batch[0].1);
      if ran.error.Some? then ran else Steps(ctx, ran.pass, batch[1..])
  }

  /** The queryset as evaluated: each id with its report as read. */
  function Batch(t: ReportTable, shop: nat): seq<(nat, Report)>
  {
    QueueOrdered(t, shop);
    var q := Queue(t, shop);
    seq(|q|, i requires 0 <= i < |q| => (q[i], t.rows[q[i]]))
  }

  /** check_queue(api, shop) */
  function CheckQueue(ctx: Ctx, t: ReportTable, stats: StatDb, shop: nat): Ran
  {
    Steps(ctx, Pass(t, stats, false, [], []), Batch(t, shop))
  }

  // ---------------------------------------------------------------- the sync task

  /** The key as the sync task left it in memory (disabled_till is never saved), the stores, and
      the result. */
  datatype QueueTask = QueueTask(key: Option<ApiKey>, reports: ReportTable, stats: StatDb, result: TaskResult)

  /** check_campaign_report(apikey_id=...): get_key is unguarded; a lock or rate limit
      switches the key off for fifteen minutes in memory and fails; anything else fails;
      what the pass saved stays saved. */
  function CheckCampaignReport(keyId: Option<nat>, keys: seq<ApiKey>, shops: map<nat, Shop>, ctx: Ctx,
                               t: ReportTable, stats: StatDb): Result<QueueTask>
  {
    if keyId.None? then Ok(QueueTask(None, t, stats, Failure(EmptyKey)))
    else
      var key :- GetKey(keys, shops, keyId, ctx.now);
      Ok(AfterPass(key, CheckQueue(ctx, t, stats, key.shop.value), ctx.now))
  }

  /** The except clauses of check_campaign_report, given the key and how the pass ended. */
  function AfterPass(key: ApiKey, ran: Ran, now: int): QueueTask
  {
    var p := ran.pass;
    if ran.error.None? then QueueTask(Some(key), p.reports, p.stats, Success)
    else if ran.error.value == Locked || ran.error.value == RateLimit then
      QueueTask(Some(key.(disabledTill := now + DisableApiKeyMinutes * 60)), p.reports, p.stats,
                Failure(Raised(ran.error.value)))
    else QueueTask(Some(key), p.reports, p.stats, Failure(OtherFailure))
  }

  // ---------------------------------------------------------------- the loops

  method PatchM(ctx: Ctx, model: Stocks.Model, t: Table, id: nat, l: Record) returns (res: Result<Table>)
    requires id in t.rows
    ensures res == Patch(ctx, model, t, id, l)
  {
    var applied := Products.ApplyFieldsM(Campaigns.LinkRule(ctx.env), t.rows[id], Restrict(l, model.fields));
    if applied.Err? {
      // the text comparison never raises
      assert false;
    }
    var (row, _) := applied.value;
    return Ok(Table(t.rows[id := row], t.nextId));
  }

  method ProductLineM(ctx: Ctx, t: Table, l: Record) returns (res: Result<Table>)
    ensures res == ProductLine(ctx, t, l)
  {
    var key := ProductKey(l);
    if key.Err? {
      return Err(key.error);
    }
    var g := Stocks.GetOrCreate(ctx.productModel, t, key.value);
    if g.Err? {
      return Err(g.error);
    }
    res := PatchM(ctx, ctx.productModel, g.value.0, g.value.1, l);
  }

  method StatisticsProductM(ctx: Ctx, t0: Table, lines: seq<Record>) returns (t: Table, err: Option<Error>)
    ensures (t, err) == StatisticsProduct(ctx, t0, lines)
  {
    t := t0;
    for i := 0 to |lines|
      invariant StatisticsProduct(ctx, t0, lines) == StatisticsProduct(ctx, t, lines[i..])
    {
      assert lines[i..][0] == lines[i] && lines[i..][1..] == lines[i + 1..];
      var r := ProductLineM(ctx, t, lines[i]);
      if r.Err? {
        return t, Some(r.error);
      }
      t := r.value;
    }
    assert lines[|lines|..] == [];
    return t, None;
  }

  method OrderLineM(ctx: Ctx, t: Table, l: Record) returns (res: Result<Table>)
    ensures res == OrderLine(ctx, t, l)
  {
    var key := OrderKey(l);
    if key.Err? {
      return Err(key.error);
    }
    var g := Stocks.GetOrCreate(ctx.orderModel, t, key.value);
    if g.Err? {
      return if g.error == MultipleObjects then Ok(t) else Err(g.error);
    }
    res := PatchM(ctx, ctx.orderModel, g.value.0, g.value.1, l);
  }

  method StatisticsOrderM(ctx: Ctx, db: StatDb, lines: seq<Record>) returns (db': StatDb, err: Option<Error>)
    ensures (db', err) == StatisticsOrder(ctx, db, lines)
  {
    var orders := db.orders;
    var ids: set<Value> := {};
    for i := 0 to |lines|
      invariant OrderLines(ctx, db.orders, {}, lines) == OrderLines(ctx, orders, ids, lines[i..])
    {
      assert lines[i..][0] == lines[i] && lines[i..][1..] == lines[i + 1..];
      if "campaign_id" !in lines[i] {
        return db.(orders := orders), Some(KeyError);
      }
      ids := ids + {lines[i]["campaign_id"]};
      var r := OrderLineM(ctx, orders, lines[i]);
      if r.Err? {
        return db.(orders := orders), Some(r.error);
      }
      orders := r.value;
    }
    assert lines[|lines|..] == [];
    var products := db.products;
    if ids != {} {
      products := ctx.refresh(orders, db.products, ids);
    }
    return StatDb(products, orders), None;
  }

  method PayloadM(ctx: Ctx, db0: StatDb, items: seq<(string, seq<Record>)>) returns (db: StatDb, err: Option<Error>)
    ensures (db, err) == Payload(ctx, db0, items)
  {
    db := db0;
    for i := 0 to |items|
      invariant Payload(ctx, db0, items) == Payload(ctx, db, items[i..])
    {
      assert items[i..][0] == items[i] && items[i..][1..] == items[i + 1..];
      var (kind, lines) := items[i];
      if kind == "SKU" {
        var products, e := StatisticsProductM(ctx, db.products, lines);
        db := db.(products := products);
        if e.Some? {
          return db, e;
        }
      } else if kind == "SEARCH_PROMO" {
        var e;
        db, e := StatisticsOrderM(ctx, db, lines);
        if e.Some? {
          return db, e;
        }
      }
    }
    assert items[|items|..] == [];
    return db, None;
  }

  method DownloadedM(ctx: Ctx, p: Pass, id: nat, r: Report) returns (ran: Ran)
    requires r.uuid.Some?
    ensures ran == Downloaded(ctx, p, id, r)
  {
    var res := ctx.download(r.uuid.value);
    if res.Err? && res.error != NotFound {
      return Ran(p, Some(res.error));
    }
    var items: seq<(string, seq<Record>)> := [];
    var r1 := r;
    if res.Ok? {
      items := res.value;
    } else {
      r1 := r.(state := Some("FAIL"));
    }
    var db, err := PayloadM(ctx, p.stats, items);
    if err.Some? {
      return Ran(p.(stats := db), err);
    }
    return Ran(p.(stats := db, reports := Save(p.reports, id, r1.(isParsed := true), ctx.now)), None);
  }

  method StepM(ctx: Ctx, p: Pass, id: nat, r: Report) returns (ran: Ran)
    ensures ran == Step(ctx, p, id, r)
  {
    if r.uuid.Some? && r.state == Some("OK") {
      ran := DownloadedM(ctx, p, id, r);
    } else if r.state == Some("ERROR") {
      ran := Ran(p.(reports := Save(p.reports, id, r.(isParsed := true), ctx.now)), None);
    } else if r.uuid.Some? {
      ran := Checked(ctx, p, id, r);
    } else if !p.sent {
      ran := Requested(ctx, p, id, r);
    } else {
      ran := Ran(p, None);
    }
  }

  method CheckQueueM(ctx: Ctx, t: ReportTable, stats: StatDb, shop: nat) returns (ran: Ran)
    ensures ran == CheckQueue(ctx, t, stats, shop)
  {
    var batch := Batch(t, shop);
    var p := Pass(t, stats, false, [], []);
    for i := 0 to |batch|
      invariant CheckQueue(ctx, t, stats, shop) == Steps(ctx, p, batch[i..])
    {
      assert batch[i..][0] == batch[i] && batch[i..][1..] == batch[i + 1..];
      var step := StepM(ctx, p, batch[i].0, batch[i].1);
      if step.error.Some? {
        return step;
      }
      p := step.pass;
    }
    assert batch[|batch|..] == [];
    return Ran(p, None);
  }

  method CheckCampaignReportM(keyId: Option<nat>, keys: seq<ApiKey>, shops: map<nat, Shop>, ctx: Ctx,
                              t: ReportTable, stats: StatDb) returns (res: Result<QueueTask>)
    ensures res == CheckCampaignReport(keyId, keys, shops, ctx, t, stats)
  {
    if keyId.None? {
      return Ok(QueueTask(None, t, stats, Failure(EmptyKey)));
    }
    var key := GetKey(keys, shops, keyId, ctx.now);
    if key.Err? {
      return Err(key.error);
    }
    var ran := CheckQueueM(ctx, t, stats, key.value.shop.value);
    return Ok(AfterPass(key.value, ran, ctx.now));
  }
}
