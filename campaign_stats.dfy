/** update_campaign_statistics and api_campaign_statistics of
    backend/mp/tasks/update_campaign_statistics.py: the campaigns are synchronised first,
    then the daily campaign statistics are reconciled by (dt, campaign_id). */
module CampaignStats {
  import opened Wrappers
  import opened Values
  import opened Reconciler
  import opened Accounts
  import opened Tasks
  import Stocks
  import Campaigns

  /** api.campaign_daily(days=days) */
  type DailyFetch = int -> Result<seq<Record>>

  /** Everything one run reads besides the stores: the campaign sync's context and API, the
      conversions, the fields of StatisticsCampaign and the statistics fetch. */
  datatype StatsRun = StatsRun(ctx: Campaigns.Ctx, api: Campaigns.CampaignApi, env: Env, schema: set<string>,
                               fetch: DailyFetch)

  /** bulk_insert_update(data, key_fields=["dt", "campaign_id"], cls=StatisticsCampaign):
      no shop is given, so the lookup spans every shop's rows and new rows get no shop. */
  function StatisticsCall(env: Env, schema: set<string>, data: seq<Record>): (c: Call)
    ensures c.shop.None? && c.keyFields == ["dt", "campaign_id"] && c.hook.None?
  {
    Call(env, data, ["dt", "campaign_id"], schema, None, None)
  }

  /** api_campaign_statistics(shop, api, days) */
  function ApiCampaignStatistics(env: Env, schema: set<string>, fetch: DailyFetch, days: int, t: Table): Result<Table>
  {
    var data :- fetch(days);
    var o :- Reconcile(StatisticsCall(env, schema, data), t);
    Ok(o.table)
  }

  method ApiCampaignStatisticsM(env: Env, schema: set<string>, fetch: DailyFetch, days: int, t: Table) returns (r: Result<Table>)
    ensures Agrees(r, ApiCampaignStatistics(env, schema, fetch, days, t))
  {
    var data := fetch(days);
    if data.Err? {
      return Err(data.error);
    }
    var o := BulkInsertUpdate(StatisticsCall(env, schema, data.value), t);
    if o.Err? {
      return Err(o.error);
    }
    return Ok(o.value.table);
  }

  /** What the sync task leaves: the campaign stores, the statistics table, and the result. */
  datatype StatsTask = StatsTask(campaigns: Campaigns.CampaignDb, statistics: Table, result: TaskResult)

  /** update_campaign_statistics(apikey_id=..., days=...): get_key is unguarded, a shop
      without products fails before anything is fetched, and the campaign sync's own result
      is ignored. */
  function UpdateCampaignStatistics(keyId: Option<nat>, keys: seq<ApiKey>, shops: map<nat, Shop>, now: int,
                                    products: map<Value, Record>, run: StatsRun, db: Campaigns.CampaignDb,
                                    t: Table, days: Option<int>): (r: Result<StatsTask>)
    ensures keyId.None? ==> r == Ok(StatsTask(db, t, Failure(EmptyKey)))
    ensures r.Err? ==> keyId.Some? && r.error == DoesNotExist
    ensures r.Ok? && r.value.result != Success ==> r.value.statistics == t
    ensures r.Ok? && keyId.Some? ==>
      && GetKey(keys, shops, keyId, now).Ok?
      && var shop := GetKey(keys, shops, keyId, now).value.shop.value;
         && (|Stocks.ShopProducts(products, shop)| == 0 <==> r.value.result == Failure(NoProducts))
         && (|Stocks.ShopProducts(products, shop)| == 0 ==> r.value.campaigns == db)
         && (|Stocks.ShopProducts(products, shop)| > 0 ==>
               && Campaigns.UpdateCampaigns(keyId, keys, shops, now, run.ctx, run.api, db).Ok?
               && r.value.campaigns == Campaigns.UpdateCampaigns(keyId, keys, shops, now, run.ctx, run.api, db).value.db
               && var stats := ApiCampaignStatistics(run.env, run.schema, run.fetch, DaysOr(days), t);
                  && (r.value.result == Success <==> stats.Ok?)
                  && (stats.Ok? ==> r.value.statistics == stats.value)
                  && (r.value.result == Failure(Raised(Locked)) <==> stats == Err(Locked)))
  {
    if keyId.None? then Ok(StatsTask(db, t, Failure(EmptyKey)))
    else
      var key :- GetKey(keys, shops, keyId, now);
      if |Stocks.ShopProducts(products, key.shop.value)| == 0 then Ok(StatsTask(db, t, Failure(NoProducts)))
      else
        var camp :- Campaigns.UpdateCampaigns(keyId, keys, shops, now, run.ctx, run.api, db);
        match ApiCampaignStatistics(run.env, run.schema, run.fetch, DaysOr(days), t)
        case Ok(t') => Ok(StatsTask(camp.db, t', Success))
        case Err(e) => Ok(StatsTask(camp.db, t, Failure(Campaigns.Caught(e))))
  }

  method UpdateCampaignStatisticsM(keyId: Option<nat>, keys: seq<ApiKey>, shops: map<nat, Shop>, now: int,
                                   products: map<Value, Record>, run: StatsRun, db: Campaigns.CampaignDb,
                                   t: Table, days: Option<int>) returns (r: Result<StatsTask>)
    ensures r.Err? <==> UpdateCampaignStatistics(keyId, keys, shops, now, products, run, db, t, days).Err?
    ensures r.Ok? ==>
      var s := UpdateCampaignStatistics(keyId, keys, shops, now, products, run, db, t, days).value;
      && r.value.campaigns == s.campaigns
      && (r.value.result.Success? <==> s.result.Success?)
      && (r.value.result.Success? ==> r == Ok(s))
      && (!r.value.result.Success? ==> r.value.statistics == t)
  {
    if keyId.None? {
      return Ok(StatsTask(db, t, Failure(EmptyKey)));
    }
    var key := GetKey(keys, shops, keyId, now);
    if key.Err? {
      return Err(key.error);
    }
    if |Stocks.ShopProducts(products, key.value.shop.value)| == 0 {
      return Ok(StatsTask(db, t, Failure(NoProducts)));
    }
    var camp := Campaigns.UpdateCampaignsM(keyId, keys, shops, now, run.ctx, run.api, db);
    if camp.Err? {
      return Err(camp.error);
    }
    var stats := ApiCampaignStatisticsM(run.env, run.schema, run.fetch, DaysOr(days), t);
    if stats.Err? {
      return Ok(StatsTask(camp.value.db, t, Failure(Campaigns.Caught(stats.error))));
    }
    return Ok(StatsTask(camp.value.db, stats.value, Success));
  }
}
