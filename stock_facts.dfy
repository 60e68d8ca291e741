/** What update_stocks promises: rows are found by their key within the shop and updated
    only where a field changed, other shops' rows are never touched, a record the store
    rejects is skipped by one loop and ends the other, the two runs fail separately, and a
    shop left without products breaks the result as written. */
module StockFacts {
  import opened Wrappers
  import opened Values
  import opened Accounts
  import opened Reconciler
  import Products
  import ProductFacts
  import opened Stocks

  // ---------------------------------------------------------------- fields

  /** The stock rule settles: a value written compares unchanged with its input again. */
  lemma RuleSettles()
    ensures Products.Settling(Rule())
  {
    forall a, st, v | Rule()(a, st, v).Ok?
      ensures Rule()(a, Rule()(a, st, v).value.1, v).Ok? && !Rule()(a, Rule()(a, st, v).value.1, v).value.0
    {
      ProductFacts.PlainSettles(st, v);
    }
  }

  /** Under the stock rule a field already holding the incoming value is unchanged. */
  lemma RuleSteady()
    ensures Steady(Rule())
  {
    forall a, x ensures Rule()(a, x, x).Ok? && !Rule()(a, x, x).value.0 {
      if !x.VDecimal? {
        PyEqReflexive(x);
      }
    }
  }

  // ---------------------------------------------------------------- one record

  lemma OnlyMatch(rows: map<nat, Record>, n: nat, key: Record, id: nat)
    requires id < n && id in rows && Matches(rows[id], key)
    requires forall j :: j in rows && j < n && Matches(rows[j], key) ==> j == id
    ensures MatchIds(rows, n, key) == [id]
  {
    var ids := MatchIds(rows, n, key);
    assert |ids| < 2 || ids[0] < ids[1];
    assert id in ids;
    forall i | 0 <= i < |ids| ensures ids[i] == id {
      assert ids[i] in ids;
    }
  }

  /** get_or_create keeps every row, adds at most the new one at the next id, and returns a
      row that matches: the one match there was, or the new row. */
  lemma GetOrCreateFrame(model: Model, t: Table, key: Record)
    requires ValidTable(t)
    ensures GetOrCreate(model, t, key).Ok? ==>
      var (t1, id) := GetOrCreate(model, t, key).value;
      && t.rows.Keys <= t1.rows.Keys <= t.rows.Keys + {t.nextId}
      && (forall j :: j in t.rows ==> t1.rows[j] == t.rows[j])
      && (t1.nextId == t.nextId || (t1.nextId == t.nextId + 1 && |MatchIds(t.rows, t.nextId, key)| == 0))
      && ValidTable(t1)
      && (forall j :: j in t.rows && !Matches(t.rows[j], key) ==> j != id)
  {
    var ids := MatchIds(t.rows, t.nextId, key);
    if |ids| == 1 {
      assert ids[0] in ids;
    }
  }

  /** Upsert changes at most the row get_or_create returned. */
  lemma UpsertShape(model: Model, rule: Products.FieldRule, t: Table, key: Record, s: Record)
    ensures GetOrCreate(model, t, key).Err? ==> Upsert(model, rule, t, key, s) == (t, Err(GetOrCreate(model, t, key).error))
    ensures GetOrCreate(model, t, key).Ok? ==>
      var (t1, id) := GetOrCreate(model, t, key).value;
      var (t', r) := Upsert(model, rule, t, key, s);
      var ap := Products.ApplyFields(rule, t1.rows[id], Restrict(s, model.fields));
      && t'.nextId == t1.nextId && t'.rows.Keys == t1.rows.Keys
      && (forall j :: j in t1.rows && j != id ==> t'.rows[j] == t1.rows[j])
      && t'.rows[id] == (if ap.Ok? && ap.value.1 != {} then ap.value.0 else t1.rows[id])
      && (r.Err? <==> ap.Err?)
      && (r.Err? ==> r.error == ap.error && t' == t1)
  {
  }

  /** One record touches only the row its key finds or the row it creates, and creates one
      only when no row matched; a lookup that raised leaves the table as it was. */
  lemma UpsertFrame(model: Model, rule: Products.FieldRule, t: Table, key: Record, s: Record)
    requires ValidTable(t)
    ensures var (t', r) := Upsert(model, rule, t, key, s);
      && t.rows.Keys <= t'.rows.Keys <= t.rows.Keys + {t.nextId}
      && (t'.nextId == t.nextId || (t'.nextId == t.nextId + 1 && |MatchIds(t.rows, t.nextId, key)| == 0))
      && (forall id :: id in t.rows && !Matches(t.rows[id], key) ==> t'.rows[id] == t.rows[id])
      && (GetOrCreate(model, t, key).Err? ==> t' == t && r == Err(GetOrCreate(model, t, key).error))
      && ValidTable(t')
  {
    UpsertShape(model, rule, t, key, s);
    GetOrCreateFrame(model, t, key);
  }

  /** Rows of the shop stay the shop's and new rows are the shop's, when records carry no
      shop field of their own. */
  lemma UpsertOwned(model: Model, rule: Products.FieldRule, shop: nat, t: Table, key: Record, s: Record)
    requires "shop" in key && key["shop"] == VRef(shop) && "shop" !in s
    ensures var t' := Upsert(model, rule, t, key, s).0;
      forall id :: id in t'.rows && (id !in t.rows || Get(t.rows[id], "shop") == VRef(shop)) ==>
        Get(t'.rows[id], "shop") == VRef(shop)
  {
    UpsertShape(model, rule, t, key, s);
    var g := GetOrCreate(model, t, key);
    if g.Ok? {
      var (t1, id) := g.value;
      var t' := Upsert(model, rule, t, key, s).0;
      var m := Restrict(s, model.fields);
      var ap := Products.ApplyFields(rule, t1.rows[id], m);
      assert Get(t1.rows[id], "shop") == VRef(shop);
      if ap.Ok? {
        assert "shop" !in ap.value.1;
      }
      assert Get(t'.rows[id], "shop") == VRef(shop);
      GetOrCreateOthers(model, t, key);
      forall j | j in t'.rows && j != id && (j !in t.rows || Get(t.rows[j], "shop") == VRef(shop))
        ensures Get(t'.rows[j], "shop") == VRef(shop)
      {
        assert t'.rows[j] == t1.rows[j] == t.rows[j];
      }
    }
  }

  /** Apart from the row it returns, get_or_create leaves the table's rows as they were. */
  lemma GetOrCreateOthers(model: Model, t: Table, key: Record)
    ensures GetOrCreate(model, t, key).Ok? ==>
      var (t1, id) := GetOrCreate(model, t, key).value;
      forall j :: j in t1.rows && j != id ==> j in t.rows && t1.rows[j] == t.rows[j]
  {
  }

  /** What one record, or the whole loop, leaves of the other shops' rows: no row deleted,
      no row of another shop changed. */
  ghost predicate Tenant(t: Table, t': Table, shop: nat)
  {
    && t.rows.Keys <= t'.rows.Keys
    && (forall id :: id in t.rows && Get(t.rows[id], "shop") != VRef(shop) ==> t'.rows[id] == t.rows[id])
  }

  lemma TenantTrans(t: Table, t1: Table, t2: Table, shop: nat)
    requires Tenant(t, t1, shop) && Tenant(t1, t2, shop)
    ensures Tenant(t, t2, shop)
  {
    forall id | id in t.rows && Get(t.rows[id], "shop") != VRef(shop) ensures t2.rows[id] == t.rows[id] {
      assert t1.rows[id] == t.rows[id];
    }
  }

  /** One record keyed by the shop keeps the table valid and the other shops' rows. */
  lemma UpsertTenant(model: Model, rule: Products.FieldRule, shop: nat, t: Table, key: Record, s: Record)
    requires ValidTable(t)
    requires "shop" in key && key["shop"] == VRef(shop)
    ensures Tenant(t, Upsert(model, rule, t, key, s).0, shop) && ValidTable(Upsert(model, rule, t, key, s).0)
  {
    UpsertFrame(model, rule, t, key, s);
    forall id | id in t.rows && Get(t.rows[id], "shop") != VRef(shop) ensures !Matches(t.rows[id], key) {
    }
  }

  /** The found row still matches its key after the field loop: a key field compared with the
      value it already holds is unchanged. */
  lemma KeyKept(rule: Products.FieldRule, obj: Record, key: Record, s: Record, fields: set<string>)
    requires Steady(rule)
    requires Matches(obj, key)
    requires forall f :: f in key && f in s ==> s[f] == key[f]
    requires Products.ApplyFields(rule, obj, Restrict(s, fields)).Ok?
    ensures Matches(Products.ApplyFields(rule, obj, Restrict(s, fields)).value.0, key)
  {
    var m := Restrict(s, fields);
    var (obj', ch) := Products.ApplyFields(rule, obj, m).value;
    forall f | f in key ensures Get(obj', f) == key[f] {
      if f in m {
        assert Products.Verdicts(rule, obj, m)[f] == rule(f, key[f], key[f]);
      }
    }
  }

  /** After one record, its key finds exactly the row it used. */
  lemma SoleMatchAfter(model: Model, rule: Products.FieldRule, t: Table, key: Record, s: Record)
    requires Steady(rule)
    requires Upsert(model, rule, t, key, s).1.Ok?
    requires forall f :: f in key && f in s ==> s[f] == key[f]
    ensures GetOrCreate(model, t, key).Ok?
    ensures var t' := Upsert(model, rule, t, key, s).0;
      MatchIds(t'.rows, t'.nextId, key) == [GetOrCreate(model, t, key).value.1]
  {
    UpsertShape(model, rule, t, key, s);
    var (t1, id) := GetOrCreate(model, t, key).value;
    var m := Restrict(s, model.fields);
    var (obj, ch) := Products.ApplyFields(rule, t1.rows[id], m).value;
    var t' := Upsert(model, rule, t, key, s).0;
    KeyKept(rule, t1.rows[id], key, s, model.fields);
    assert t'.rows[id] == (if ch != {} then obj else t1.rows[id]);
    var ids := MatchIds(t.rows, t.nextId, key);
    if |ids| == 1 {
      assert ids[0] in ids;
    }
    forall j | j in t'.rows && j < t'.nextId && Matches(t'.rows[j], key) ensures j == id {
    }
    OnlyMatch(t'.rows, t'.nextId, key, id);
  }

  /** The same record handled again finds its row and saves nothing. */
  lemma UpsertRepeats(model: Model, rule: Products.FieldRule, t: Table, key: Record, s: Record)
    requires Steady(rule) && Products.Settling(rule)
    requires Upsert(model, rule, t, key, s).1.Ok?
    requires forall f :: f in key && f in s ==> s[f] == key[f]
    ensures var t' := Upsert(model, rule, t, key, s).0;
      Upsert(model, rule, t', key, s) == (t', Ok(false))
  {
    SoleMatchAfter(model, rule, t, key, s);
    UpsertShape(model, rule, t, key, s);
    var (t1, id) := GetOrCreate(model, t, key).value;
    var m := Restrict(s, model.fields);
    var (obj, ch) := Products.ApplyFields(rule, t1.rows[id], m).value;
    var t' := Upsert(model, rule, t, key, s).0;
    assert GetOrCreate(model, t', key) == Ok((t', id));
    if ch != {} {
      assert t'.rows[id] == obj;
      ProductFacts.ApplyFieldsSettles(rule, t1.rows[id], m);
    } else {
      assert t' == t1;
      assert obj == t1.rows[id];
    }
  }

  // ---------------------------------------------------------------- the loop

  /** The count is of saved records: at most one per record. */
  lemma {:induction false} UpsertAllTotal(step: Step, keyFields: set<string>, skipRejected: bool, shop: nat,
                                         t: Table, total: nat, ss: seq<Record>)
    ensures var r := UpsertAll(step, keyFields, skipRejected, shop, t, total, ss).1;
      r.Ok? ==> total <= r.value <= total + |ss|
    decreases |ss|
  {
    if |ss| > 0 {
      var (t1, r) := step(t, LookupKey(shop, ss[0], keyFields), ss[0]);
      UpsertAllTotal(step, keyFields, skipRejected, shop, t, total, ss[1..]);
      if r.Ok? {
        UpsertAllTotal(step, keyFields, skipRejected, shop, t1, if r.value then total + 1 else total, ss[1..]);
      }
    }
  }

  /** A record handler that, given a record keyed by the shop, keeps the table valid and
      the other shops' rows. */
  ghost predicate KeepsTenants(step: Step, shop: nat)
  {
    forall t, key, s :: ValidTable(t) && "shop" in key && key["shop"] == VRef(shop) ==>
      Tenant(t, step(t, key, s).0, shop) && ValidTable(step(t, key, s).0)
  }

  lemma StepKeepsTenants(model: Model, rule: Products.FieldRule, shop: nat)
    ensures KeepsTenants(UpsertStep(model, rule), shop)
  {
    forall t, key, s | ValidTable(t) && "shop" in key && key["shop"] == VRef(shop)
      ensures Tenant(t, Upsert(model, rule, t, key, s).0, shop) && ValidTable(Upsert(model, rule, t, key, s).0)
    {
      UpsertTenant(model, rule, shop, t, key, s);
    }
  }

  /** The loop never deletes a row, keeps the table's ids fresh, and never touches a row of
      another shop, whether it ends normally or with an exception. */
  lemma {:induction false} UpsertAllTenant(step: Step, keyFields: set<string>, skipRejected: bool, shop: nat,
                                          t: Table, total: nat, ss: seq<Record>)
    requires KeepsTenants(step, shop)
    requires "shop" !in keyFields
    requires ValidTable(t)
    ensures var t' := UpsertAll(step, keyFields, skipRejected, shop, t, total, ss).0;
      Tenant(t, t', shop) && ValidTable(t')
    decreases |ss|
  {
    if |ss| > 0 {
      var key := LookupKey(shop, ss[0], keyFields);
      var (t1, r) := step(t, key, ss[0]);
      UpsertAllTenant(step, keyFields, skipRejected, shop, t, total, ss[1..]);
      if r.Ok? {
        var t2 := UpsertAll(step, keyFields, skipRejected, shop, t1, if r.value then total + 1 else total, ss[1..]).0;
        UpsertAllTenant(step, keyFields, skipRejected, shop, t1, if r.value then total + 1 else total, ss[1..]);
        TenantTrans(t, t1, t2, shop);
      }
    }
  }

  /** Every row new since t, and every row t gave the shop, is the shop's in t'. */
  ghost predicate Owned(t: Table, t': Table, shop: nat)
  {
    forall id :: id in t'.rows && (id !in t.rows || Get(t.rows[id], "shop") == VRef(shop)) ==>
      Get(t'.rows[id], "shop") == VRef(shop)
  }

  lemma OwnedTrans(t: Table, t1: Table, t2: Table, shop: nat)
    requires Owned(t, t1, shop) && Owned(t1, t2, shop)
    ensures Owned(t, t2, shop)
  {
    forall id | id in t2.rows && (id !in t.rows || Get(t.rows[id], "shop") == VRef(shop))
      ensures Get(t2.rows[id], "shop") == VRef(shop)
    {
      if id in t1.rows {
        assert Get(t1.rows[id], "shop") == VRef(shop);
      }
    }
  }

  /** A record handler that keeps the shop's rows the shop's, for records keyed by the shop
      that carry no shop field of their own. */
  ghost predicate KeepsOwned(step: Step, shop: nat)
  {
    forall t, key, s :: "shop" in key && key["shop"] == VRef(shop) && "shop" !in s ==> Owned(t, step(t, key, s).0, shop)
  }

  lemma StepKeepsOwned(model: Model, rule: Products.FieldRule, shop: nat)
    ensures KeepsOwned(UpsertStep(model, rule), shop)
  {
    forall t, key, s | "shop" in key && key["shop"] == VRef(shop) && "shop" !in s
      ensures Owned(t, Upsert(model, rule, t, key, s).0, shop)
    {
      UpsertOwned(model, rule, shop, t, key, s);
    }
  }

  /** Records without a shop field of their own leave every new row, and every row of the
      shop, with the shop. */
  lemma {:induction false} UpsertAllOwned(step: Step, keyFields: set<string>, skipRejected: bool, shop: nat,
                                         t: Table, total: nat, ss: seq<Record>)
    requires KeepsOwned(step, shop)
    requires "shop" !in keyFields
    requires forall i :: 0 <= i < |ss| ==> "shop" !in ss[i]
    ensures Owned(t, UpsertAll(step, keyFields, skipRejected, shop, t, total, ss).0, shop)
    decreases |ss|
  {
    if |ss| > 0 {
      var key := LookupKey(shop, ss[0], keyFields);
      var (t1, r) := step(t, key, ss[0]);
      assert "shop" !in ss[0];
      UpsertAllOwned(step, keyFields, skipRejected, shop, t, total, ss[1..]);
      if r.Ok? {
        var t2 := UpsertAll(step, keyFields, skipRejected, shop, t1, if r.value then total + 1 else total, ss[1..]).0;
        UpsertAllOwned(step, keyFields, skipRejected, shop, t1, if r.value then total + 1 else total, ss[1..]);
        OwnedTrans(t, t1, t2, shop);
      }
    }
  }

  /** A record whose create the store rejects: api_stocks passes over it and changes nothing
      for it; warehouse_stocks_to_db stops with IntegrityError. */
  lemma Rejected(model: Model, rule: Products.FieldRule, keyFields: set<string>, shop: nat, t: Table, total: nat, ss: seq<Record>)
    requires |ss| > 0
    requires var key := LookupKey(shop, ss[0], keyFields);
      |MatchIds(t.rows, t.nextId, key)| == 0 && model.rejects(key)
    ensures var step := UpsertStep(model, rule);
      UpsertAll(step, keyFields, true, shop, t, total, ss) == UpsertAll(step, keyFields, true, shop, t, total, ss[1..])
    ensures UpsertAll(UpsertStep(model, rule), keyFields, false, shop, t, total, ss) == (t, Err(IntegrityError))
  {
  }

  /** Two rows matching a record's key end either loop with MultipleObjectsReturned. */
  lemma Ambiguous(model: Model, rule: Products.FieldRule, keyFields: set<string>, skipRejected: bool, shop: nat, t: Table, total: nat,
                  ss: seq<Record>)
    requires |ss| > 0
    requires |MatchIds(t.rows, t.nextId, LookupKey(shop, ss[0], keyFields))| > 1
    ensures UpsertAll(UpsertStep(model, rule), keyFields, skipRejected, shop, t, total, ss) == (t, Err(MultipleObjects))
  {
  }

  // ---------------------------------------------------------------- the sync task

  /** get_key again after update_products finds the same key: the run only switched shops
      off, and never the key's own. */
  lemma {:induction false} GetKeyStable(keys: seq<ApiKey>, shops: map<nat, Shop>, shops': map<nat, Shop>,
                                        pk: Option<nat>, now: int)
    requires GetKey(keys, shops, pk, now).Ok?
    requires shops'.Keys == shops.Keys
    requires forall k :: k in shops' ==> shops'[k].isActive ==> shops[k].isActive
    requires var s := GetKey(keys, shops, pk, now).value.shop.value; s in shops' && shops'[s] == shops[s]
    ensures GetKey(keys, shops', pk, now) == GetKey(keys, shops, pk, now)
  {
    if !(Some(keys[0].id) == pk && Usable(keys[0], shops, now)) {
      assert !(Some(keys[0].id) == pk && Usable(keys[0], shops', now));
      GetKeyStable(keys[1..], shops, shops', pk, now);
    }
  }

  /** update_stocks gets past its start exactly when update_products does, and then works
      on the shop of the key update_products used. */
  lemma PreludeKey(keyId: nat, keys: seq<ApiKey>, now: int, run: StockRun, c: Products.Catalog)
    ensures var up := Products.UpdateProducts(Some(keyId), keys, now, run.env, run.productFields, run.productApi, c);
      Prelude(keyId, keys, now, run, c).Ok? <==> up.end.Reported?
    ensures Prelude(keyId, keys, now, run, c).Ok? ==>
      && GetKey(keys, c.shops, Some(keyId), now).Ok?
      && Prelude(keyId, keys, now, run, c).value.1 == GetKey(keys, c.shops, Some(keyId), now).value.shop.value
  {
    var up := Products.UpdateProducts(Some(keyId), keys, now, run.env, run.productFields, run.productApi, c);
    if up.end.Reported? {
      var key := GetKey(keys, c.shops, Some(keyId), now).value;
      ProductFacts.RefreshShops(run.env, run.productFields, key.shop.value, run.productApi, c);
      GetKeyStable(keys, c.shops, up.catalog.shops, Some(keyId), now);
    }
  }

  /** When update_products lists no product at all, it deletes every product of the shop,
      and update_stocks as written then raises UnboundLocalError where the intended version
      reports that nothing was run. */
  lemma EmptyListingFails(keyId: nat, keys: seq<ApiKey>, now: int, run: StockRun, c: Products.Catalog, db: StockDb)
    requires run.productApi.products == Ok([])
    requires Prelude(keyId, keys, now, run, c).Ok?
    ensures UpdateStocksAsWritten(Some(keyId), keys, now, run, c, db) == Err(UnboundLocal)
    ensures var (report, _) := Prelude(keyId, keys, now, run, c).value;
      UpdateStocks(Some(keyId), keys, now, run, c, db) == Ok(Ran(report, db, NotRun, NotRun))
  {
    var up := Products.UpdateProducts(Some(keyId), keys, now, run.env, run.productFields, run.productApi, c);
    var key := GetKey(keys, c.shops, Some(keyId), now).value;
    var (report, shop) := Prelude(keyId, keys, now, run, c).value;
    PreludeKey(keyId, keys, now, run, c);
    ProductFacts.RefreshOutcome(run.env, run.productFields, shop, run.productApi, c);
    assert Products.ListedIds([]) == {};
    assert ShopProducts(report.catalog.products, shop) == {};
  }

  /** As soon as the shop has a product, the code as written and the intended version agree. */
  lemma AsWrittenAgrees(keyId: Option<nat>, keys: seq<ApiKey>, now: int, run: StockRun, c: Products.Catalog, db: StockDb)
    requires keyId.Some? && Prelude(keyId.value, keys, now, run, c).Ok?
    requires var (report, shop) := Prelude(keyId.value, keys, now, run, c).value;
      |ShopProducts(report.catalog.products, shop)| > 0
    ensures UpdateStocksAsWritten(keyId, keys, now, run, c, db) == UpdateStocks(keyId, keys, now, run, c, db)
  {
  }

  /** The two runs are caught separately: the warehouse result and table are the same
      whatever the stock fetch returns, and a failed stock fetch changes no stock row. */
  lemma PartsSeparate(keyId: nat, keys: seq<ApiKey>, now: int, run: StockRun, c: Products.Catalog, db: StockDb,
                      other: Result<seq<Record>>)
    requires UpdateStocks(Some(keyId), keys, now, run, c, db).Ok?
    ensures var run2 := run.(api := run.api.(stocks := other));
      var a := UpdateStocks(Some(keyId), keys, now, run, c, db).value;
      var b := UpdateStocks(Some(keyId), keys, now, run2, c, db).value;
      a.Ran? && b.Ran? && a.warehouse == b.warehouse && a.db.warehouse == b.db.warehouse
    ensures var a := UpdateStocks(Some(keyId), keys, now, run, c, db).value;
      run.api.stocks.Err? ==> a.Ran? && a.stocks != Updated(0) && a.db.stock == db.stock
  {
    var run2 := run.(api := run.api.(stocks := other));
    assert Prelude(keyId, keys, now, run2, c) == Prelude(keyId, keys, now, run, c);
  }
}
