/** update_campaigns of backend/mp/tasks/update_campaigns.py: each advertising campaign is
    found or created by its id and given to the shop, its fields are updated where their
    text differs, and for a running campaign its linked products are mirrored (unknown skus
    skipped), the day's history row is written, and the links it no longer lists deleted. */
module Campaigns {
  import opened Wrappers
  import opened Values
  import opened Accounts
  import opened Reconciler
  import opened Tasks
  import Products
  import Stocks
  import Orders

  const Running: string := "CAMPAIGN_STATE_RUNNING"

  /** A CampaignProduct_History row is found by (date, product, campaign). */
  datatype HistoryKey = HistoryKey(day: int, product: nat, campaign: int)

  /** The Campaign table by id, the CampaignProduct links and the history rows. */
  datatype CampaignDb = CampaignDb(campaigns: map<int, Record>, links: Table, history: map<HistoryKey, Record>)

  /** campaign_products(campaign_id, campaign_type=..., campaign_state=...) */
  type LinkFetch = (Value, Value, Value) -> Result<seq<Record>>

  /** ApiPerformance.campaigns() and campaign_products. */
  datatype CampaignApi = CampaignApi(campaigns: Result<seq<Record>>, products: LinkFetch)

  /** The fixed context of one run: the conversions, the primary-key conversion of the id
      field, the fields of Campaign and CampaignProduct, the SKU_Offer rows, today, and the
      constraint of the history table (a create it rejects raises IntegrityError). */
  datatype Ctx = Ctx(env: Env, toId: Value -> Option<int>, campaignFields: set<string>, linkFields: set<string>,
                     offers: seq<Orders.SkuOffer>, today: int, historyRejects: HistoryKey -> bool)

  // ---------------------------------------------------------------- SKU_Offer.objects.get

  /** The products of the SKU_Offer rows with that sku, in table order. */
  function SkuMatches(offers: seq<Orders.SkuOffer>, sku: Value): (ps: seq<nat>)
    ensures |ps| == 0 <==> forall i :: 0 <= i < |offers| ==> offers[i].sku != sku
  {
    if |offers| == 0 then []
    else
      var rest := SkuMatches(offers[1..], sku);
      assert forall i :: 1 <= i < |offers| ==> offers[i] == offers[1..][i - 1];
      (if offers[0].sku == sku then [offers[0].product] else []) + rest
  }

  /** SKU_Offer.objects.get(sku=sku), over all shops: the product, None where the code catches
      DoesNotExist, or MultipleObjectsReturned. */
  function SkuProduct(offers: seq<Orders.SkuOffer>, sku: Value): (r: Result<Option<nat>>)
    ensures r == Ok(None) <==> forall i :: 0 <= i < |offers| ==> offers[i].sku != sku
    ensures r.Err? ==> r.error == MultipleObjects
  {
    var ps := SkuMatches(offers, sku);
    if |ps| == 0 then Ok(None)
    else if |ps| == 1 then Ok(Some(ps[0]))
    else Err(MultipleObjects)
  }

  // ---------------------------------------------------------------- the field rules

  /** datetime.strptime(value, "%Y-%m-%dT%H:%M:%S.%f%z"). */
  function Stamp(env: Env, value: Value): (r: Result<Value>)
    ensures r.Ok? <==> value.VStr? && env.parseStamp(value.s).Some?
    ensures r.Ok? ==> r.value == VDateTime(env.parseStamp(value.s).value)
  {
    if !value.VStr? then Err(TypeError)
    else
      match env.parseStamp(value.s)
      case None => Err(ValueError)
      case Some(t) => Ok(VDateTime(t))
  }

  /** The value a campaign field is set to: a "_at" field's parsed timestamp, else the value. */
  function Incoming(env: Env, attr: string, value: Value): Result<Value>
  {
    if Products.StampField(attr) then Stamp(env, value) else Ok(value)
  }

  /** str(getattr(obj, attr)) != str(value), with the value the field is then set to. */
  function TextUpdate(env: Env, stored: Value, value: Value): Result<(bool, Value)>
  {
    Ok((env.show(stored) != env.show(value), value))
  }

  /** A campaign field: the "_at" conversion, then the text comparison. */
  function CampaignUpdate(env: Env, attr: string, stored: Value, value: Value): Result<(bool, Value)>
  {
    var v :- Incoming(env, attr, value);
    TextUpdate(env, stored, v)
  }

  function CampaignRule(env: Env): (rule: Products.FieldRule)
    ensures forall a, st, v :: rule(a, st, v) == CampaignUpdate(env, a, st, v)
  {
    (a: string, st: Value, v: Value) => CampaignUpdate(env, a, st, v)
  }

  function LinkRule(env: Env): (rule: Products.FieldRule)
    ensures forall a, st, v :: rule(a, st, v) == TextUpdate(env, st, v)
  {
    (a: string, st: Value, v: Value) => TextUpdate(env, st, v)
  }

  // ---------------------------------------------------------------- one linked product

  /** CampaignProduct.objects.get_or_create(campaign=..., product=...): no constraint rejects it. */
  function LinkModel(ctx: Ctx): Stocks.Model
  {
    Stocks.Model(ctx.linkFields, (r: Record) => false)
  }

  function LinkKey(cid: int, product: nat): Record
  {
    map["campaign" := VInt(cid), "product" := VRef(product)]
  }

  /** The history row after bid and visibility_idx are set and saved. */
  function HistoryRow(hk: HistoryKey, h: Option<Record>, bid: Value, visibility: Value): Record
  {
    var base := if h.Some? then h.value
                else map["date" := VDate(hk.day), "product" := VRef(hk.product), "campaign" := VInt(hk.campaign)];
    base["bid" := bid]["visibility_idx" := visibility]
  }

  /** The link's get_or_create, its field loop, and its save when some field changed; the
      link get_or_create made stays if the field loop raises. */
  function SaveLink(ctx: Ctx, links: Table, cid: int, product: nat, p: Record): Committed<Table>
  {
    var g := Stocks.GetOrCreate(LinkModel(ctx), links, LinkKey(cid, product));
    if g.Err? then Committed(links, Some(g.error))
    else
      var (t1, lid) := g.value;
      var applied := Products.ApplyFields(LinkRule(ctx.env), t1.rows[lid], Restrict(p, ctx.linkFields));
      if applied.Err? then Committed(t1, Some(applied.error))
      else
        var (row, changed) := applied.value;
        Committed(if changed != {} then Table(t1.rows[lid := row], t1.nextId) else t1, None)
  }

  /** The history row get_or_create leaves before bid and visibility_idx are read. */
  function HistoryBase(history: map<HistoryKey, Record>, hk: HistoryKey): Record
  {
    if hk in history then history[hk]
    else map["date" := VDate(hk.day), "product" := VRef(hk.product), "campaign" := VInt(hk.campaign)]
  }

  /** The history part of an iteration: only with a visibility index; a create the table
      refuses is skipped (IntegrityError, continue); bid is read only then, after
      get_or_create has committed the day's row. */
  function SaveHistory(ctx: Ctx, history: map<HistoryKey, Record>, hk: HistoryKey, p: Record): Committed<map<HistoryKey, Record>>
  {
    if "visibility_idx" !in p then Committed(history, None)
    else if hk !in history && ctx.historyRejects(hk) then Committed(history, None)
    else if "bid" !in p then Committed(history[hk := HistoryBase(history, hk)], Some(KeyError))
    else
      var h := if hk in history then Some(history[hk]) else None;
      Committed(history[hk := HistoryRow(hk, h, p["bid"], p["visibility_idx"])], None)
  }

  /** One iteration of the loop over linked_products: the links and the history after it. */
  function SyncLink(ctx: Ctx, cid: int, links: Table, history: map<HistoryKey, Record>, p: Record)
    : Committed<(Table, map<HistoryKey, Record>)>
  {
    if "sku" !in p then Committed((links, history), Some(KeyError))
    else
      var product := SkuProduct(ctx.offers, p["sku"]);
      if product.Err? then Committed((links, history), Some(product.error))
      else if product.value.None? then Committed((links, history), None)
      else
        var t := SaveLink(ctx, links, cid, product.value.value, p);
        if t.error.Some? then Committed((t.store, history), t.error)
        else
          var h := SaveHistory(ctx, history, HistoryKey(ctx.today, product.value.value, cid), p);
          Committed((t.store, h.store), h.error)
  }

  /** The linked products in turn, up to the first that fails. */
  function SyncLinks(ctx: Ctx, cid: int, links: Table, history: map<HistoryKey, Record>, ps: seq<Record>)
    : Committed<(Table, map<HistoryKey, Record>)>
    decreases |ps|
  {
    if |ps| == 0 then Committed((links, history), None)
    else
      var l := SyncLink(ctx, cid, links, history, ps[0]);
      if l.error.Some? then l
      else SyncLinks(ctx, cid, l.store.0, l.store.1, ps[1..])
  }

  /** [p["sku"] for p in linked_products] */
  function SkusOf(ps: seq<Record>): set<Value>
  {
    set p | p in ps && "sku" in p :: p["sku"]
  }

  /** CampaignProduct.objects.filter(campaign=campaign).exclude(sku__in=skus).delete() */
  function DropUnlisted(links: Table, cid: int, skus: set<Value>): Table
  {
    Table(map id | id in links.rows && !(Get(links.rows[id], "campaign") == VInt(cid) && Get(links.rows[id], "sku") !in skus)
            :: links.rows[id], links.nextId)
  }

  // ---------------------------------------------------------------- one campaign

  /** The campaign as get_or_create returns it: the stored row, or a new row holding the id. */
  function StoredCampaign(campaigns: map<int, Record>, id: int): Record
  {
    if id in campaigns then campaigns[id] else map["id" := VInt(id)]
  }

  /** The campaign given to the shop before the field loop, and whether that counts as a
      changed field: a new campaign is given the shop silently, one of another shop is
      handed over with "shop" recorded as changed. */
  function Claim(campaigns: map<int, Record>, id: int, shop: nat): (Record, bool)
  {
    var stored := StoredCampaign(campaigns, id);
    if id !in campaigns then (stored["shop" := VRef(shop)], false)
    else if Get(stored, "shop") != VRef(shop) then (stored["shop" := VRef(shop)], true)
    else (stored, false)
  }

  /** The campaign table after one campaign's get_or_create, field loop and save. */
  function SavedCampaigns(ctx: Ctx, campaigns: map<int, Record>, id: int, shop: nat, c: Record): Result<(map<int, Record>, Record)>
  {
    var (obj, shopChanged) := Claim(campaigns, id, shop);
    var (obj', changed) :- Products.ApplyFields(CampaignRule(ctx.env), obj, Restrict(c, ctx.campaignFields));
    Ok((campaigns[id := if shopChanged || changed != {} then obj' else StoredCampaign(campaigns, id)], obj'))
  }

  /** The rest of a campaign's iteration, after its save: a running campaign's linked
      products are mirrored and the links it no longer lists deleted; a failing linked
      product leaves the ones before it written and deletes nothing. */
  function RunningLinks(ctx: Ctx, id: int, fetch: LinkFetch, db: CampaignDb, c: Record, obj: Record): Committed<CampaignDb>
  {
    if Get(obj, "state") != VStr(Running) then Committed(db, None)
    else if "adv_type" !in c || "state" !in c || "id" !in c then Committed(db, Some(KeyError))
    else
      var linked := fetch(c["id"], c["adv_type"], c["state"]);
      if linked.Err? then Committed(db, Some(linked.error))
      else
        var l := SyncLinks(ctx, id, db.links, db.history, linked.value);
        if l.error.Some? then Committed(db.(links := l.store.0, history := l.store.1), l.error)
        else Committed(db.(links := DropUnlisted(l.store.0, id, SkusOf(linked.value)), history := l.store.1), None)
  }

  /** One iteration of the loop over campaigns. get_or_create commits a new campaign
      before its field loop, so a field that fails to convert leaves the new row. */
  function SyncCampaign(ctx: Ctx, shop: nat, fetch: LinkFetch, db: CampaignDb, c: Record): Committed<CampaignDb>
  {
    if "id" !in c then Committed(db, Some(KeyError))
    else if ctx.toId(c["id"]).None? then Committed(db, Some(ValueError))
    else
      var id := ctx.toId(c["id"]).value;
      var saved := SavedCampaigns(ctx, db.campaigns, id, shop, c);
      if saved.Err? then
        Committed(db.(campaigns := db.campaigns[id := StoredCampaign(db.campaigns, id)]), Some(saved.error))
      else RunningLinks(ctx, id, fetch, db.(campaigns := saved.value.0), c, saved.value.1)
  }

  /** The campaigns in turn, up to the first that fails. */
  function SyncAll(ctx: Ctx, shop: nat, fetch: LinkFetch, db: CampaignDb, cs: seq<Record>): Committed<CampaignDb>
    decreases |cs|
  {
    if |cs| == 0 then Committed(db, None)
    else
      var s := SyncCampaign(ctx, shop, fetch, db, cs[0]);
      if s.error.Some? then s
      else SyncAll(ctx, shop, fetch, s.store, cs[1..])
  }

  /** api_campaigns(shop, api) */
  function ApiCampaigns(ctx: Ctx, shop: nat, api: CampaignApi, db: CampaignDb): Committed<CampaignDb>
  {
    if api.campaigns.Err? then Committed(db, Some(api.campaigns.error))
    else SyncAll(ctx, shop, api.products, db, api.campaigns.value)
  }

  // ---------------------------------------------------------------- the sync task

  /** The except blocks of the campaign tasks: ErrorLocked is "Locked. Skip.", anything else
      fails with its message. */
  function Caught(e: Error): (r: Reason)
    ensures r == Raised(Locked) <==> e == Locked
    ensures r != Raised(Locked) ==> r == OtherFailure
  {
    if e == Locked then Raised(Locked) else OtherFailure
  }

  datatype CampaignsTask = CampaignsTask(db: CampaignDb, result: TaskResult)

  /** update_campaigns(apikey_id=...): an exception from get_key escapes; the stores are
      the ones the run reached, a failed run's included. */
  function UpdateCampaigns(keyId: Option<nat>, keys: seq<ApiKey>, shops: map<nat, Shop>, now: int,
                           ctx: Ctx, api: CampaignApi, db: CampaignDb): (r: Result<CampaignsTask>)
    ensures keyId.None? ==> r == Ok(CampaignsTask(db, Failure(EmptyKey)))
    ensures r.Err? ==> keyId.Some? && r.error == DoesNotExist
    ensures r.Ok? && keyId.Some? ==>
      && GetKey(keys, shops, keyId, now).Ok?
      && var run := ApiCampaigns(ctx, GetKey(keys, shops, keyId, now).value.shop.value, api, db);
         && r.value.db == run.store
         && (r.value.result == Success <==> run.error.None?)
         && (r.value.result == Failure(Raised(Locked)) <==> run.error == Some(Locked))
  {
    if keyId.None? then Ok(CampaignsTask(db, Failure(EmptyKey)))
    else
      var key :- GetKey(keys, shops, keyId, now);
      var run := ApiCampaigns(ctx, key.shop.value, api, db);
      if run.error.None? then Ok(CampaignsTask(run.store, Success))
      else Ok(CampaignsTask(run.store, Failure(Caught(run.error.value))))
  }

  // ---------------------------------------------------------------- the loops

  /** The link of one linked product, with the field loop of CampaignProduct. */
  method SaveLinkM(ctx: Ctx, links: Table, cid: int, product: nat, p: Record) returns (res: Committed<Table>)
    ensures res == SaveLink(ctx, links, cid, product, p)
  {
    var g := Stocks.GetOrCreate(LinkModel(ctx), links, LinkKey(cid, product));
    if g.Err? {
      return Committed(links, Some(g.error));
    }
    var (t, lid) := g.value;
    var applied := Products.ApplyFieldsM(LinkRule(ctx.env), t.rows[lid], Restrict(p, ctx.linkFields));
    if applied.Err? {
      // the text comparison never raises
      assert false;
    }
    var (row, changed) := applied.value;
    if changed != {} {
      t := Table(t.rows[lid := row], t.nextId);
    }
    return Committed(t, None);
  }

  method SyncLinkM(ctx: Ctx, cid: int, links: Table, history: map<HistoryKey, Record>, p: Record)
    returns (res: Committed<(Table, map<HistoryKey, Record>)>)
    ensures res == SyncLink(ctx, cid, links, history, p)
  {
    if "sku" !in p {
      return Committed((links, history), Some(KeyError));
    }
    var product := SkuProduct(ctx.offers, p["sku"]);
    if product.Err? {
      return Committed((links, history), Some(product.error));
    }
    if product.value.None? {
      return Committed((links, history), None);
    }
    var t := SaveLinkM(ctx, links, cid, product.value.value, p);
    if t.error.Some? {
      return Committed((t.store, history), t.error);
    }
    var h := SaveHistory(ctx, history, HistoryKey(ctx.today, product.value.value, cid), p);
    return Committed((t.store, h.store), h.error);
  }

  /** One campaign: get_or_create, the field loop and save, then the links of a running one. */
  method SyncCampaignM(ctx: Ctx, shop: nat, fetch: LinkFetch, db: CampaignDb, c: Record) returns (res: Committed<CampaignDb>)
    ensures res == SyncCampaign(ctx, shop, fetch, db, c)
  {
    if "id" !in c {
      return Committed(db, Some(KeyError));
    }
    var cid := ctx.toId(c["id"]);
    if cid.None? {
      return Committed(db, Some(ValueError));
    }
    var id := cid.value;
    var (obj, shopChanged) := Claim(db.campaigns, id, shop);
    var applied := Products.ApplyFieldsM(CampaignRule(ctx.env), obj, Restrict(c, ctx.campaignFields));
    if applied.Err? {
      return Committed(db.(campaigns := db.campaigns[id := StoredCampaign(db.campaigns, id)]), Some(applied.error));
    }
    var (obj', changed) := applied.value;
    var campaigns := db.campaigns[id := if shopChanged || changed != {} then obj' else StoredCampaign(db.campaigns, id)];
    if Get(obj', "state") != VStr(Running) {
      return Committed(db.(campaigns := campaigns), None);
    }
    if "adv_type" !in c || "state" !in c {
      return Committed(db.(campaigns := campaigns), Some(KeyError));
    }
    var linked := fetch(c["id"], c["adv_type"], c["state"]);
    if linked.Err? {
      return Committed(db.(campaigns := campaigns), Some(linked.error));
    }
    var ps := linked.value;
    var links, history := db.links, db.history;
    for i := 0 to |ps|
      invariant SyncLinks(ctx, id, db.links, db.history, ps) == SyncLinks(ctx, id, links, history, ps[i..])
    {
      assert ps[i..][0] == ps[i] && ps[i..][1..] == ps[i + 1..];
      var r := SyncLinkM(ctx, id, links, history, ps[i]);
      if r.error.Some? {
        return Committed(CampaignDb(campaigns, r.store.0, r.store.1), r.error);
      }
      links, history := r.store.0, r.store.1;
    }
    return Committed(CampaignDb(campaigns, DropUnlisted(links, id, SkusOf(ps)), history), None);
  }

  /** api_campaigns: the fetch, then the loop over the campaigns. */
  method ApiCampaignsM(ctx: Ctx, shop: nat, api: CampaignApi, db0: CampaignDb) returns (res: Committed<CampaignDb>)
    ensures res == ApiCampaigns(ctx, shop, api, db0)
  {
    if api.campaigns.Err? {
      return Committed(db0, Some(api.campaigns.error));
    }
    var cs := api.campaigns.value;
    var db := db0;
    for i := 0 to |cs|
      invariant SyncAll(ctx, shop, api.products, db0, cs) == SyncAll(ctx, shop, api.products, db, cs[i..])
    {
      assert cs[i..][0] == cs[i] && cs[i..][1..] == cs[i + 1..];
      var r := SyncCampaignM(ctx, shop, api.products, db, cs[i]);
      if r.error.Some? {
        return r;
      }
      db := r.store;
    }
    assert cs[|cs|..] == [];
    return Committed(db, None);
  }

  method UpdateCampaignsM(keyId: Option<nat>, keys: seq<ApiKey>, shops: map<nat, Shop>, now: int,
                          ctx: Ctx, api: CampaignApi, db: CampaignDb) returns (res: Result<CampaignsTask>)
    ensures res == UpdateCampaigns(keyId, keys, shops, now, ctx, api, db)
  {
    if keyId.None? {
      return Ok(CampaignsTask(db, Failure(EmptyKey)));
    }
    var key := GetKey(keys, shops, keyId, now);
    if key.Err? {
      return Err(key.error);
    }
    var r := ApiCampaignsM(ctx, key.value.shop.value, api, db);
    if r.error.Some? {
      return Ok(CampaignsTask(r.store, Failure(Caught(r.error.value))));
    }
    return Ok(CampaignsTask(r.store, Success));
  }
}
