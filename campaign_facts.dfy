/** Properties of update_campaigns: what a campaign, its links and its history hold after
    one iteration of the campaign loop, and what the loop leaves alone. */
module CampaignFacts {
  import opened Wrappers
  import opened Values
  import opened Reconciler
  import Products
  import ProductFacts
  import Stocks
  import StockFacts
  import Orders
  import opened Campaigns

  // ---------------------------------------------------------------- SKU_Offer lookup

  lemma {:induction false} SkuMatchesSound(offers: seq<Orders.SkuOffer>, sku: Value)
    ensures forall k :: 0 <= k < |SkuMatches(offers, sku)| ==>
      exists i :: 0 <= i < |offers| && offers[i].sku == sku && offers[i].product == SkuMatches(offers, sku)[k]
    ensures forall i, j :: 0 <= i < j < |offers| && offers[i].sku == sku && offers[j].sku == sku ==>
      |SkuMatches(offers, sku)| >= 2
  {
    if |offers| > 0 {
      var tail := offers[1..];
      SkuMatchesSound(tail, sku);
      var rest := SkuMatches(tail, sku);
      var head := if offers[0].sku == sku then [offers[0].product] else [];
      var ps := head + rest;
      assert SkuMatches(offers, sku) == ps;
      forall k | 0 <= k < |SkuMatches(offers, sku)|
        ensures exists i :: 0 <= i < |offers| && offers[i].sku == sku && offers[i].product == SkuMatches(offers, sku)[k]
      {
        assert SkuMatches(offers, sku)[k] == ps[k];
        if k < |head| {
          assert offers[0].sku == sku && offers[0].product == ps[k];
        } else {
          assert ps[k] == rest[k - |head|];
          var i' :| 0 <= i' < |tail| && tail[i'].sku == sku && tail[i'].product == rest[k - |head|];
          assert offers[i' + 1] == tail[i'];
        }
      }
      forall i, j | 0 <= i < j < |offers| && offers[i].sku == sku && offers[j].sku == sku
        ensures |ps| >= 2
      {
        assert tail[j - 1] == offers[j];
        if i > 0 {
          assert tail[i - 1] == offers[i];
        }
      }
    } else {
      assert SkuMatches(offers, sku) == [];
    }
  }

  /** A sku found by SKU_Offer.objects.get is the sku of exactly one row, whose product it gives. */
  lemma SkuFound(offers: seq<Orders.SkuOffer>, sku: Value, p: nat)
    requires SkuProduct(offers, sku) == Ok(Some(p))
    ensures exists i :: 0 <= i < |offers| && offers[i].sku == sku && offers[i].product == p
    ensures forall i, j :: 0 <= i < j < |offers| && offers[i].sku == sku ==> offers[j].sku != sku
  {
    SkuMatchesSound(offers, sku);
  }

  /** Two SKU_Offer rows with the linked product's sku raise MultipleObjectsReturned. */
  lemma SkuAmbiguous(offers: seq<Orders.SkuOffer>, sku: Value, i: nat, j: nat)
    requires i < j < |offers| && offers[i].sku == sku && offers[j].sku == sku
    ensures SkuProduct(offers, sku) == Err(MultipleObjects)
  {
    SkuMatchesSound(offers, sku);
  }

  /** A linked product whose sku no SKU_Offer row has is skipped: nothing is written for it. */
  lemma UnknownSkuSkipped(ctx: Ctx, cid: int, links: Table, history: map<HistoryKey, Record>, p: Record)
    requires "sku" in p && forall i :: 0 <= i < |ctx.offers| ==> ctx.offers[i].sku != p["sku"]
    ensures SyncLink(ctx, cid, links, history, p) == Committed((links, history), None)
  {
  }

  // ---------------------------------------------------------------- the field rules

  /** The campaign rule settles: a second pass over the same fields finds nothing to change. */
  lemma CampaignRuleSettles(env: Env)
    ensures Products.Settling(CampaignRule(env))
  {
    var rule := CampaignRule(env);
    forall a, st, v | rule(a, st, v).Ok?
      ensures rule(a, rule(a, st, v).value.1, v).Ok? && !rule(a, rule(a, st, v).value.1, v).value.0
    {
      assert rule(a, st, v).value.1 == Incoming(env, a, v).value;
    }
  }

  lemma LinkRuleSettles(env: Env)
    ensures Products.Settling(LinkRule(env))
  {
  }

  // ---------------------------------------------------------------- one campaign

  /** What the get_or_create, field loop and save of one campaign leave in the table. */
  lemma SavedShape(ctx: Ctx, campaigns: map<int, Record>, id: int, shop: nat, c: Record)
    requires "shop" !in c
    requires SavedCampaigns(ctx, campaigns, id, shop, c).Ok?
    ensures var (cs, obj') := SavedCampaigns(ctx, campaigns, id, shop, c).value;
      && cs.Keys == campaigns.Keys + {id}
      && (forall j :: j in campaigns && j != id ==> cs[j] == campaigns[j])
      && (forall a :: a != "shop" ==> Get(cs[id], a) == Get(obj', a))
      && Get(obj', "shop") == VRef(shop)
    ensures Products.ApplyFields(CampaignRule(ctx.env), Claim(campaigns, id, shop).0, Restrict(c, ctx.campaignFields)).Ok?
    ensures var cs := SavedCampaigns(ctx, campaigns, id, shop, c).value.0;
      var changed := Products.ApplyFields(CampaignRule(ctx.env), Claim(campaigns, id, shop).0, Restrict(c, ctx.campaignFields)).value.1;
      && (id in campaigns ==> Get(cs[id], "shop") == VRef(shop))
      && (id !in campaigns && changed == {} ==> cs[id] == map["id" := VInt(id)])
      && (id !in campaigns && changed != {} ==> Get(cs[id], "shop") == VRef(shop))
  {
    var m := Restrict(c, ctx.campaignFields);
    SavedUnfold(ctx, campaigns, id, shop, c);
    ClaimApplied(ctx.env, campaigns, id, shop, m);
    UnsavedClaim(campaigns, id, shop);
    var (obj, shopChanged) := Claim(campaigns, id, shop);
    var (obj', changed) := Products.ApplyFields(CampaignRule(ctx.env), obj, m).value;
    SavedRows(campaigns, id, shop, obj', changed, shopChanged);
  }

  lemma SavedUnfold(ctx: Ctx, campaigns: map<int, Record>, id: int, shop: nat, c: Record)
    requires SavedCampaigns(ctx, campaigns, id, shop, c).Ok?
    ensures var (obj, shopChanged) := Claim(campaigns, id, shop);
      var ap := Products.ApplyFields(CampaignRule(ctx.env), obj, Restrict(c, ctx.campaignFields));
      && ap.Ok?
      && SavedCampaigns(ctx, campaigns, id, shop, c).value
         == (campaigns[id := if shopChanged || ap.value.1 != {} then ap.value.0 else StoredCampaign(campaigns, id)], ap.value.0)
  {
  }

  /** The field loop never touches the shop the claim gave, and without a changed field it
      leaves the claimed row as it was. */
  lemma ClaimApplied(env: Env, campaigns: map<int, Record>, id: int, shop: nat, m: Record)
    requires "shop" !in m
    requires Products.ApplyFields(CampaignRule(env), Claim(campaigns, id, shop).0, m).Ok?
    ensures var obj := Claim(campaigns, id, shop).0;
      var (obj', changed) := Products.ApplyFields(CampaignRule(env), obj, m).value;
      && "shop" !in changed && Get(obj', "shop") == VRef(shop)
      && (changed == {} ==> obj' == obj)
  {
    var obj := Claim(campaigns, id, shop).0;
    var (obj', changed) := Products.ApplyFields(CampaignRule(env), obj, m).value;
    assert "shop" in obj && obj["shop"] == VRef(shop);
    if changed == {} {
      assert obj'.Keys == obj.Keys;
    }
  }

  /** The table after the save, from the claim and the loop's result. */
  lemma SavedRows(campaigns: map<int, Record>, id: int, shop: nat, obj': Record, changed: set<string>, shopChanged: bool)
    requires shopChanged == Claim(campaigns, id, shop).1
    requires "shop" !in changed && Get(obj', "shop") == VRef(shop)
    requires changed == {} ==> obj' == Claim(campaigns, id, shop).0
    requires forall a :: a != "shop" ==> Get(StoredCampaign(campaigns, id), a) == Get(Claim(campaigns, id, shop).0, a)
    requires id in campaigns && !Claim(campaigns, id, shop).1 ==> Claim(campaigns, id, shop).0 == StoredCampaign(campaigns, id)
    ensures var cs := campaigns[id := if shopChanged || changed != {} then obj' else StoredCampaign(campaigns, id)];
      && cs.Keys == campaigns.Keys + {id}
      && (forall j :: j in campaigns && j != id ==> cs[j] == campaigns[j])
      && (forall a :: a != "shop" ==> Get(cs[id], a) == Get(obj', a))
      && (id in campaigns ==> Get(cs[id], "shop") == VRef(shop))
      && (id !in campaigns && changed == {} ==> cs[id] == map["id" := VInt(id)])
      && (id !in campaigns && changed != {} ==> Get(cs[id], "shop") == VRef(shop))
  {
  }

  /** Apart from its shop, the claimed campaign is the stored one. */
  lemma UnsavedClaim(campaigns: map<int, Record>, id: int, shop: nat)
    ensures forall a :: a != "shop" ==> Get(StoredCampaign(campaigns, id), a) == Get(Claim(campaigns, id, shop).0, a)
    ensures id in campaigns && !Claim(campaigns, id, shop).1 ==> Claim(campaigns, id, shop).0 == StoredCampaign(campaigns, id)
  {
  }

  /** The campaign table after one iteration comes from the campaign's own save; the links
      and history change only for a running campaign. */
  lemma CampaignStep(ctx: Ctx, shop: nat, fetch: LinkFetch, db: CampaignDb, c: Record)
    requires SyncCampaign(ctx, shop, fetch, db, c).error.None?
    ensures "id" in c && ctx.toId(c["id"]).Some?
    ensures var s := SavedCampaigns(ctx, db.campaigns, ctx.toId(c["id"]).value, shop, c);
      var db' := SyncCampaign(ctx, shop, fetch, db, c).store;
      && s.Ok?
      && db'.campaigns == s.value.0
      && (Get(s.value.1, "state") != VStr(Running) ==> db'.links == db.links && db'.history == db.history)
  {
    var id := ctx.toId(c["id"]).value;
    var s := SavedCampaigns(ctx, db.campaigns, id, shop, c);
    assert s.Ok?;
    RunningLinksFrame(ctx, id, fetch, db.(campaigns := s.value.0), c, s.value.1);
  }

  /** The tail of an iteration leaves the campaign table alone, and everything else too
      when the saved campaign is not running. */
  lemma RunningLinksFrame(ctx: Ctx, id: int, fetch: LinkFetch, db: CampaignDb, c: Record, obj: Record)
    requires RunningLinks(ctx, id, fetch, db, c, obj).error.None?
    ensures RunningLinks(ctx, id, fetch, db, c, obj).store.campaigns == db.campaigns
    ensures Get(obj, "state") != VStr(Running) ==> RunningLinks(ctx, id, fetch, db, c, obj).store == db
  {
  }

  /** After one campaign is saved, each of its fields reads, as text, as the API sent it (a
      "_at" field as the instant its text parses to), and the row is the only one changed. */
  lemma CampaignFieldsAgree(ctx: Ctx, shop: nat, fetch: LinkFetch, db: CampaignDb, c: Record)
    requires "shop" !in c
    requires SyncCampaign(ctx, shop, fetch, db, c).error.None?
    ensures "id" in c && ctx.toId(c["id"]).Some?
    ensures var id := ctx.toId(c["id"]).value;
      var cs := SyncCampaign(ctx, shop, fetch, db, c).store.campaigns;
      && cs.Keys == db.campaigns.Keys + {id}
      && (forall j :: j in db.campaigns && j != id ==> cs[j] == db.campaigns[j])
      && (forall a :: a in c && a in ctx.campaignFields ==>
            Incoming(ctx.env, a, c[a]).Ok? && ctx.env.show(Get(cs[id], a)) == ctx.env.show(Incoming(ctx.env, a, c[a]).value))
  {
    CampaignStep(ctx, shop, fetch, db, c);
    var id := ctx.toId(c["id"]).value;
    SavedShape(ctx, db.campaigns, id, shop, c);
    SavedFieldsAgree(ctx, db.campaigns, id, shop, c);
  }

  /** The saved row shows every campaign field as the API sent it. */
  lemma SavedFieldsAgree(ctx: Ctx, campaigns: map<int, Record>, id: int, shop: nat, c: Record)
    requires "shop" !in c
    requires SavedCampaigns(ctx, campaigns, id, shop, c).Ok?
    ensures var cs := SavedCampaigns(ctx, campaigns, id, shop, c).value.0;
      id in cs &&
      forall a :: a in c && a in ctx.campaignFields ==>
        Incoming(ctx.env, a, c[a]).Ok? && ctx.env.show(Get(cs[id], a)) == ctx.env.show(Incoming(ctx.env, a, c[a]).value)
  {
    SavedShape(ctx, campaigns, id, shop, c);
    var obj := Claim(campaigns, id, shop).0;
    var m := Restrict(c, ctx.campaignFields);
    var (cs, obj') := SavedCampaigns(ctx, campaigns, id, shop, c).value;
    assert obj' == Products.ApplyFields(CampaignRule(ctx.env), obj, m).value.0;
    forall a | a in c && a in ctx.campaignFields
      ensures Incoming(ctx.env, a, c[a]).Ok? && ctx.env.show(Get(cs[id], a)) == ctx.env.show(Incoming(ctx.env, a, c[a]).value)
    {
      AppliedShowsIncoming(ctx.env, obj, m, a);
      assert a != "shop" && m[a] == c[a];
    }
  }

  /** A campaign field the loop has gone through reads, as text, as the incoming value. */
  lemma AppliedShowsIncoming(env: Env, obj: Record, m: Record, a: string)
    requires Products.ApplyFields(CampaignRule(env), obj, m).Ok? && a in m
    ensures var obj' := Products.ApplyFields(CampaignRule(env), obj, m).value.0;
      Incoming(env, a, m[a]).Ok? && env.show(Get(obj', a)) == env.show(Incoming(env, a, m[a]).value)
  {
    var rule := CampaignRule(env);
    var obj' := Products.ApplyFields(rule, obj, m).value.0;
    CampaignRuleSettles(env);
    ProductFacts.SettledAt(rule, obj, m, a);
    assert Products.Verdicts(rule, obj', m)[a] == CampaignUpdate(env, a, Get(obj', a), m[a]);
  }

  /** A campaign already stored is the shop's after the iteration, saved or not; a new one is
      the shop's exactly when one of its fields changed, for otherwise it is never saved and
      the created row holds only its id. */
  lemma CampaignOwner(ctx: Ctx, shop: nat, fetch: LinkFetch, db: CampaignDb, c: Record)
    requires "shop" !in c
    requires SyncCampaign(ctx, shop, fetch, db, c).error.None?
    ensures "id" in c && ctx.toId(c["id"]).Some?
    ensures var id := ctx.toId(c["id"]).value;
      Products.ApplyFields(CampaignRule(ctx.env), Claim(db.campaigns, id, shop).0, Restrict(c, ctx.campaignFields)).Ok?
    ensures ctx.toId(c["id"]).value in SyncCampaign(ctx, shop, fetch, db, c).store.campaigns
    ensures var id := ctx.toId(c["id"]).value;
      var row := SyncCampaign(ctx, shop, fetch, db, c).store.campaigns[id];
      var changed := Products.ApplyFields(CampaignRule(ctx.env), Claim(db.campaigns, id, shop).0, Restrict(c, ctx.campaignFields)).value.1;
      && (id in db.campaigns ==> Get(row, "shop") == VRef(shop))
      && (id !in db.campaigns && changed == {} ==> row == map["id" := VInt(id)])
      && (id !in db.campaigns && changed != {} ==> Get(row, "shop") == VRef(shop))
  {
    CampaignStep(ctx, shop, fetch, db, c);
    var id := ctx.toId(c["id"]).value;
    SavedShape(ctx, db.campaigns, id, shop, c);
    assert SyncCampaign(ctx, shop, fetch, db, c).store.campaigns == SavedCampaigns(ctx, db.campaigns, id, shop, c).value.0;
  }

  /** A stored campaign of the shop whose every field already reads as the API sends it is
      not saved again. */
  lemma AgreeingCampaignUnsaved(ctx: Ctx, shop: nat, fetch: LinkFetch, db: CampaignDb, c: Record, id: int)
    requires "id" in c && ctx.toId(c["id"]) == Some(id)
    requires id in db.campaigns && Get(db.campaigns[id], "shop") == VRef(shop)
    requires forall a :: a in c && a in ctx.campaignFields ==>
      Incoming(ctx.env, a, c[a]).Ok? && ctx.env.show(Get(db.campaigns[id], a)) == ctx.env.show(Incoming(ctx.env, a, c[a]).value)
    ensures SavedCampaigns(ctx, db.campaigns, id, shop, c) == Ok((db.campaigns, db.campaigns[id]))
    ensures SyncCampaign(ctx, shop, fetch, db, c).error.None? ==> SyncCampaign(ctx, shop, fetch, db, c).store.campaigns == db.campaigns
  {
    var rule := CampaignRule(ctx.env);
    var stored := db.campaigns[id];
    var m := Restrict(c, ctx.campaignFields);
    assert Claim(db.campaigns, id, shop) == (stored, false);
    forall a | a in m
      ensures Products.Verdicts(rule, stored, m)[a].Ok? && !Products.Verdicts(rule, stored, m)[a].value.0
    {
      assert Products.Verdicts(rule, stored, m)[a] == CampaignUpdate(ctx.env, a, Get(stored, a), c[a]);
    }
    ProductFacts.NothingChanges(rule, stored, m);
    assert db.campaigns[id := stored] == db.campaigns;
  }

  /** A campaign that is not running after its update keeps its links and history. */
  lemma NotRunningKeepsLinks(ctx: Ctx, shop: nat, fetch: LinkFetch, db: CampaignDb, c: Record)
    requires "shop" !in c
    requires SyncCampaign(ctx, shop, fetch, db, c).error.None?
    ensures "id" in c && ctx.toId(c["id"]).Some?
    ensures ctx.toId(c["id"]).value in SyncCampaign(ctx, shop, fetch, db, c).store.campaigns
    ensures var db' := SyncCampaign(ctx, shop, fetch, db, c).store;
      Get(db'.campaigns[ctx.toId(c["id"]).value], "state") != VStr(Running) ==> db'.links == db.links && db'.history == db.history
  {
    CampaignStep(ctx, shop, fetch, db, c);
    var id := ctx.toId(c["id"]).value;
    SavedShape(ctx, db.campaigns, id, shop, c);
    var s := SavedCampaigns(ctx, db.campaigns, id, shop, c).value;
    assert SyncCampaign(ctx, shop, fetch, db, c).store.campaigns[id] == s.0[id];
    assert Get(s.0[id], "state") == Get(s.1, "state");
  }

  // ---------------------------------------------------------------- the links

  /** From one link table to the next, for campaign cid: no row is deleted, no row of another
      campaign changes, and the ids stay below the next id. */
  ghost predicate LinksKept(t: Table, t': Table, cid: int)
  {
    && t.rows.Keys <= t'.rows.Keys
    && (forall lid :: lid in t.rows && Get(t.rows[lid], "campaign") != VInt(cid) ==> t'.rows[lid] == t.rows[lid])
    && ValidTable(t')
  }

  lemma LinksKeptTrans(t: Table, t1: Table, t2: Table, cid: int)
    requires LinksKept(t, t1, cid) && LinksKept(t1, t2, cid)
    ensures LinksKept(t, t2, cid)
  {
  }

  /** Saving one link writes at most the link of this campaign and that product. */
  lemma SaveLinkKeeps(ctx: Ctx, links: Table, cid: int, product: nat, p: Record)
    requires ValidTable(links)
    ensures LinksKept(links, SaveLink(ctx, links, cid, product, p).store, cid)
  {
    var key := LinkKey(cid, product);
    StockFacts.GetOrCreateFrame(LinkModel(ctx), links, key);
    SaveLinkStore(ctx, links, cid, product, p);
    var g := Stocks.GetOrCreate(LinkModel(ctx), links, key);
    if g.Ok? {
      var (t1, lid) := g.value;
      assert Get(t1.rows[lid], "campaign") == VInt(cid) by {
        assert "campaign" in key;
      }
      KeptThroughOneRow(links, t1, SaveLink(ctx, links, cid, product, p).store, lid, cid);
    }
  }

  /** Whether or not it raises, SaveLink leaves the table get_or_create reached, changed in
      at most the row it picked; a failed get_or_create leaves the table as it was. */
  lemma SaveLinkStore(ctx: Ctx, links: Table, cid: int, product: nat, p: Record)
    ensures var g := Stocks.GetOrCreate(LinkModel(ctx), links, LinkKey(cid, product));
      var t' := SaveLink(ctx, links, cid, product, p).store;
      && (g.Err? ==> t' == links)
      && (g.Ok? ==>
            && t'.nextId == g.value.0.nextId && t'.rows.Keys == g.value.0.rows.Keys
            && (forall j :: j in g.value.0.rows && j != g.value.1 ==> t'.rows[j] == g.value.0.rows[j]))
  {
    var g := Stocks.GetOrCreate(LinkModel(ctx), links, LinkKey(cid, product));
    if g.Ok? && SaveLink(ctx, links, cid, product, p).error.None? {
      SaveLinkShape(ctx, links, cid, product, p);
    }
  }

  /** SaveLink changes at most the row GetOrCreate picked. */
  lemma SaveLinkShape(ctx: Ctx, links: Table, cid: int, product: nat, p: Record)
    requires SaveLink(ctx, links, cid, product, p).error.None?
    ensures Stocks.GetOrCreate(LinkModel(ctx), links, LinkKey(cid, product)).Ok?
    ensures var (t1, lid) := Stocks.GetOrCreate(LinkModel(ctx), links, LinkKey(cid, product)).value;
      var t' := SaveLink(ctx, links, cid, product, p).store;
      && t'.nextId == t1.nextId && t'.rows.Keys == t1.rows.Keys
      && (forall j :: j in t1.rows && j != lid ==> t'.rows[j] == t1.rows[j])
  {
    var (t1, lid) := Stocks.GetOrCreate(LinkModel(ctx), links, LinkKey(cid, product)).value;
    var (row, changed) := Products.ApplyFields(LinkRule(ctx.env), t1.rows[lid], Restrict(p, ctx.linkFields)).value;
    var t' := SaveLink(ctx, links, cid, product, p).store;
    if changed != {} {
      assert t' == Table(t1.rows[lid := row], t1.nextId);
    } else {
      assert t' == t1;
    }
  }

  /** A table that keeps the rows of another, changed in one row of campaign cid only. */
  lemma KeptThroughOneRow(t: Table, t1: Table, t': Table, lid: nat, cid: int)
    requires t.rows.Keys <= t1.rows.Keys && ValidTable(t1)
    requires forall j :: j in t.rows ==> t1.rows[j] == t.rows[j]
    requires lid in t1.rows && Get(t1.rows[lid], "campaign") == VInt(cid)
    requires t'.nextId == t1.nextId && t'.rows.Keys == t1.rows.Keys
    requires forall j :: j in t1.rows && j != lid ==> t'.rows[j] == t1.rows[j]
    ensures LinksKept(t, t', cid)
  {
  }

  lemma LinkKeeps(ctx: Ctx, cid: int, links: Table, history: map<HistoryKey, Record>, p: Record)
    requires ValidTable(links)
    ensures LinksKept(links, SyncLink(ctx, cid, links, history, p).store.0, cid)
  {
    if "sku" in p && SkuProduct(ctx.offers, p["sku"]).Ok? {
      var product := SkuProduct(ctx.offers, p["sku"]).value;
      if product.Some? {
        SaveLinkKeeps(ctx, links, cid, product.value, p);
      }
    }
  }

  lemma {:induction false} LinksLoopKeeps(ctx: Ctx, cid: int, links: Table, history: map<HistoryKey, Record>, ps: seq<Record>)
    requires ValidTable(links)
    ensures LinksKept(links, SyncLinks(ctx, cid, links, history, ps).store.0, cid)
    decreases |ps|
  {
    if |ps| > 0 {
      LinkKeeps(ctx, cid, links, history, ps[0]);
      var l := SyncLink(ctx, cid, links, history, ps[0]);
      if l.error.None? {
        var (t, h) := l.store;
        LinksLoopKeeps(ctx, cid, t, h, ps[1..]);
        LinksKeptTrans(links, t, SyncLinks(ctx, cid, t, h, ps[1..]).store.0, cid);
      }
    }
  }

  /** One campaign leaves the links of every other campaign as they were, and of its own
      keeps only those whose sku it still lists. */
  lemma LinksOfCampaign(ctx: Ctx, shop: nat, fetch: LinkFetch, db: CampaignDb, c: Record)
    requires ValidTable(db.links)
    requires SyncCampaign(ctx, shop, fetch, db, c).error.None?
    ensures "id" in c && ctx.toId(c["id"]).Some?
    ensures var id := ctx.toId(c["id"]).value;
      var t' := SyncCampaign(ctx, shop, fetch, db, c).store.links;
      && ValidTable(t')
      && (forall lid :: lid in db.links.rows && Get(db.links.rows[lid], "campaign") != VInt(id) ==>
            lid in t'.rows && t'.rows[lid] == db.links.rows[lid])
    ensures var id := ctx.toId(c["id"]).value;
      var t' := SyncCampaign(ctx, shop, fetch, db, c).store.links;
      t' != db.links ==>
        && "adv_type" in c && "state" in c && fetch(c["id"], c["adv_type"], c["state"]).Ok?
        && forall lid :: lid in t'.rows && Get(t'.rows[lid], "campaign") == VInt(id) ==>
             Get(t'.rows[lid], "sku") in SkusOf(fetch(c["id"], c["adv_type"], c["state"]).value)
  {
    var id := ctx.toId(c["id"]).value;
    var (cs, obj) := SavedCampaigns(ctx, db.campaigns, id, shop, c).value;
    assert SyncCampaign(ctx, shop, fetch, db, c) == RunningLinks(ctx, id, fetch, db.(campaigns := cs), c, obj);
    RunningLinksKeep(ctx, id, fetch, db.(campaigns := cs), c, obj);
  }

  /** The tail of an iteration: other campaigns' links stay, and its own keep only listed skus. */
  lemma RunningLinksKeep(ctx: Ctx, id: int, fetch: LinkFetch, db: CampaignDb, c: Record, obj: Record)
    requires ValidTable(db.links)
    requires RunningLinks(ctx, id, fetch, db, c, obj).error.None?
    ensures var t' := RunningLinks(ctx, id, fetch, db, c, obj).store.links;
      && ValidTable(t')
      && (forall lid :: lid in db.links.rows && Get(db.links.rows[lid], "campaign") != VInt(id) ==>
            lid in t'.rows && t'.rows[lid] == db.links.rows[lid])
    ensures var t' := RunningLinks(ctx, id, fetch, db, c, obj).store.links;
      t' != db.links ==>
        && "adv_type" in c && "state" in c && "id" in c && fetch(c["id"], c["adv_type"], c["state"]).Ok?
        && forall lid :: lid in t'.rows && Get(t'.rows[lid], "campaign") == VInt(id) ==>
             Get(t'.rows[lid], "sku") in SkusOf(fetch(c["id"], c["adv_type"], c["state"]).value)
  {
    if Get(obj, "state") == VStr(Running) {
      var linked := fetch(c["id"], c["adv_type"], c["state"]).value;
      LinksLoopKeeps(ctx, id, db.links, db.history, linked);
      var links := SyncLinks(ctx, id, db.links, db.history, linked).store.0;
      assert RunningLinks(ctx, id, fetch, db, c, obj).store.links == DropUnlisted(links, id, SkusOf(linked));
    }
  }

  /** A campaign whose iteration raises deletes nothing: the links written before the
      failing linked product stay, as do the history rows, and only the campaign's own
      row of the campaign table can differ, holding what get_or_create and the field loop
      committed. */
  lemma FailedCampaignKeeps(ctx: Ctx, shop: nat, fetch: LinkFetch, db: CampaignDb, c: Record)
    requires ValidTable(db.links)
    requires SyncCampaign(ctx, shop, fetch, db, c).error.Some?
    ensures "id" !in c || ctx.toId(c["id"]).None? ==> SyncCampaign(ctx, shop, fetch, db, c).store == db
    ensures "id" in c && ctx.toId(c["id"]).Some? ==>
      var id := ctx.toId(c["id"]).value;
      var db' := SyncCampaign(ctx, shop, fetch, db, c).store;
      && LinksKept(db.links, db'.links, id)
      && db.history.Keys <= db'.history.Keys
      && db'.campaigns.Keys == db.campaigns.Keys + {id}
      && (forall j :: j in db.campaigns && j != id ==> db'.campaigns[j] == db.campaigns[j])
  {
    if "id" in c && ctx.toId(c["id"]).Some? {
      var id := ctx.toId(c["id"]).value;
      var saved := SavedCampaigns(ctx, db.campaigns, id, shop, c);
      if saved.Ok? {
        var (cs, obj) := saved.value;
        var db1 := db.(campaigns := cs);
        assert SyncCampaign(ctx, shop, fetch, db, c) == RunningLinks(ctx, id, fetch, db1, c, obj);
        assert cs == db.campaigns[id := cs[id]];
        FailedLinksKeep(ctx, id, fetch, db1, c, obj);
      }
    }
  }

  /** The tail of an iteration that raises keeps the campaign table, every link and every
      history row. */
  lemma FailedLinksKeep(ctx: Ctx, id: int, fetch: LinkFetch, db: CampaignDb, c: Record, obj: Record)
    requires ValidTable(db.links)
    requires RunningLinks(ctx, id, fetch, db, c, obj).error.Some?
    ensures var db' := RunningLinks(ctx, id, fetch, db, c, obj).store;
      && db'.campaigns == db.campaigns
      && LinksKept(db.links, db'.links, id)
      && db.history.Keys <= db'.history.Keys
  {
    if Get(obj, "state") == VStr(Running) && "adv_type" in c && "state" in c && "id" in c {
      var linked := fetch(c["id"], c["adv_type"], c["state"]);
      if linked.Ok? {
        LinksLoopKeeps(ctx, id, db.links, db.history, linked.value);
        LinksLoopHistory(ctx, id, db.links, db.history, linked.value);
      }
    }
  }

  /** The loop over linked products never removes a history row. */
  lemma {:induction false} LinksLoopHistory(ctx: Ctx, cid: int, links: Table, history: map<HistoryKey, Record>, ps: seq<Record>)
    ensures history.Keys <= SyncLinks(ctx, cid, links, history, ps).store.1.Keys
    decreases |ps|
  {
    if |ps| > 0 {
      var l := SyncLink(ctx, cid, links, history, ps[0]);
      assert history.Keys <= l.store.1.Keys;
      if l.error.None? {
        LinksLoopHistory(ctx, cid, l.store.0, l.store.1, ps[1..]);
      }
    }
  }

  // ---------------------------------------------------------------- the history

  /** A linked product with a visibility index gets the day's history row for its campaign,
      holding its bid and index, unless the table refuses to create that row; one without an
      index writes no history. */
  lemma HistoryWritten(ctx: Ctx, cid: int, links: Table, history: map<HistoryKey, Record>, p: Record, product: nat)
    requires SyncLink(ctx, cid, links, history, p).error.None?
    requires "sku" in p && SkuProduct(ctx.offers, p["sku"]) == Ok(Some(product))
    ensures var h' := SyncLink(ctx, cid, links, history, p).store.1;
      "visibility_idx" !in p ==> h' == history
    ensures var h' := SyncLink(ctx, cid, links, history, p).store.1;
      var hk := HistoryKey(ctx.today, product, cid);
      && ("visibility_idx" in p && hk !in history && ctx.historyRejects(hk) ==> h' == history)
      && ("visibility_idx" in p && (hk in history || !ctx.historyRejects(hk)) ==>
            && "bid" in p && hk in h'
            && h'[hk]["bid"] == p["bid"] && h'[hk]["visibility_idx"] == p["visibility_idx"]
            && (hk in history ==> forall f :: f in history[hk] && f != "bid" && f != "visibility_idx" ==> h'[hk][f] == history[hk][f])
            && (forall k :: k in history && k != hk ==> k in h' && h'[k] == history[k])
            && h'.Keys == history.Keys + {hk})
  {
    var hk := HistoryKey(ctx.today, product, cid);
    assert SaveHistory(ctx, history, hk, p).error.None?;
    assert SyncLink(ctx, cid, links, history, p).store.1 == SaveHistory(ctx, history, hk, p).store;
    SaveHistoryFacts(ctx, history, hk, p);
  }

  lemma SaveHistoryFacts(ctx: Ctx, history: map<HistoryKey, Record>, hk: HistoryKey, p: Record)
    requires SaveHistory(ctx, history, hk, p).error.None?
    ensures var h' := SaveHistory(ctx, history, hk, p).store;
      && ("visibility_idx" !in p ==> h' == history)
      && ("visibility_idx" in p && hk !in history && ctx.historyRejects(hk) ==> h' == history)
      && ("visibility_idx" in p && (hk in history || !ctx.historyRejects(hk)) ==>
            && "bid" in p && hk in h'
            && h'[hk]["bid"] == p["bid"] && h'[hk]["visibility_idx"] == p["visibility_idx"]
            && (hk in history ==> forall f :: f in history[hk] && f != "bid" && f != "visibility_idx" ==> h'[hk][f] == history[hk][f])
            && (forall k :: k in history && k != hk ==> k in h' && h'[k] == history[k])
            && h'.Keys == history.Keys + {hk})
  {
  }

  // ---------------------------------------------------------------- the campaign loop

  /** The loop runs the campaigns in order up to the first whose iteration raises; each
      iteration commits on its own, so a failed loop leaves the store the campaigns before
      the failing one reached, with what the failing one committed on top. */
  lemma {:induction false} SyncAllStops(ctx: Ctx, shop: nat, fetch: LinkFetch, db: CampaignDb, cs: seq<Record>)
    ensures var r := SyncAll(ctx, shop, fetch, db, cs);
      exists i :: 0 <= i <= |cs| && SyncAll(ctx, shop, fetch, db, cs[..i]).error.None?
        && (r.error.None? <==> i == |cs|)
        && (i == |cs| ==> r == SyncAll(ctx, shop, fetch, db, cs[..i]))
        && (i < |cs| ==> r == SyncCampaign(ctx, shop, fetch, SyncAll(ctx, shop, fetch, db, cs[..i]).store, cs[i]))
    decreases |cs|
  {
    var r := SyncAll(ctx, shop, fetch, db, cs);
    if |cs| == 0 {
      assert cs[..0] == cs;
    } else {
      var s := SyncCampaign(ctx, shop, fetch, db, cs[0]);
      if s.error.Some? {
        assert SyncAll(ctx, shop, fetch, db, cs[..0]) == Committed(db, None);
      } else {
        var rest := cs[1..];
        SyncAllStops(ctx, shop, fetch, s.store, rest);
        var j :| 0 <= j <= |rest| && SyncAll(ctx, shop, fetch, s.store, rest[..j]).error.None?
          && (r.error.None? <==> j == |rest|)
          && (j == |rest| ==> r == SyncAll(ctx, shop, fetch, s.store, rest[..j]))
          && (j < |rest| ==> r == SyncCampaign(ctx, shop, fetch, SyncAll(ctx, shop, fetch, s.store, rest[..j]).store, rest[j]));
        var pre := cs[..j + 1];
        assert pre[0] == cs[0] && pre[1..] == rest[..j];
        if j == |rest| {
          assert pre == cs;
        } else {
          assert rest[j] == cs[j + 1];
        }
      }
    }
  }

  /** The loop leaves every stored campaign it is not given as it was. */
  lemma {:induction false} SyncAllFrame(ctx: Ctx, shop: nat, fetch: LinkFetch, db: CampaignDb, cs: seq<Record>)
    requires forall k :: 0 <= k < |cs| ==> "shop" !in cs[k]
    requires SyncAll(ctx, shop, fetch, db, cs).error.None?
    ensures var cs' := SyncAll(ctx, shop, fetch, db, cs).store.campaigns;
      && db.campaigns.Keys <= cs'.Keys
      && (forall j :: j in db.campaigns && (forall k :: 0 <= k < |cs| && "id" in cs[k] ==> ctx.toId(cs[k]["id"]) != Some(j)) ==>
            cs'[j] == db.campaigns[j])
    decreases |cs|
  {
    if |cs| > 0 {
      CampaignFieldsAgree(ctx, shop, fetch, db, cs[0]);
      var db1 := SyncCampaign(ctx, shop, fetch, db, cs[0]).store;
      SyncAllFrame(ctx, shop, fetch, db1, cs[1..]);
      var cs' := SyncAll(ctx, shop, fetch, db, cs).store.campaigns;
      forall j | j in db.campaigns && (forall k :: 0 <= k < |cs| && "id" in cs[k] ==> ctx.toId(cs[k]["id"]) != Some(j))
        ensures cs'[j] == db.campaigns[j]
      {
        forall k | 0 <= k < |cs[1..]| && "id" in cs[1..][k]
          ensures ctx.toId(cs[1..][k]["id"]) != Some(j)
        {
          assert cs[1..][k] == cs[k + 1];
        }
      }
    }
  }
}
