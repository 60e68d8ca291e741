/** What update_products promises: the merge order of the three lookups, the field rules
    settling once written, the hand-over between shops, the count of saved products, and
    which rows the run deletes. */
module ProductFacts {
  import opened Wrappers
  import opened Values
  import opened Accounts
  import opened Products
  import Chunks

  // ---------------------------------------------------------------- merging

  /** Later lookups win: attribute over info over price, and "state" comes from the product
      list; a field none of them holds is absent. */
  lemma MergedPrecedence(src: Sources, p: Record, fields: set<string>, f: string)
    requires Merged(src, p, fields).Ok? && f in fields
    ensures "product_id" in p
    ensures ChainGet(src.price, p["product_id"]).Ok? && ChainGet(src.info, p["product_id"]).Ok?
    ensures ChainGet(src.attribute, p["product_id"]).Ok?
    ensures var r := Merged(src, p, fields).value;
      var pr := ChainGet(src.price, p["product_id"]).value;
      var inf := ChainGet(src.info, p["product_id"]).value;
      var at := ChainGet(src.attribute, p["product_id"]).value;
      && (f == "state" ==> f in r && r[f] == p["state"])
      && (f != "state" && f in at ==> f in r && r[f] == at[f])
      && (f != "state" && f !in at && f in inf ==> f in r && r[f] == inf[f])
      && (f != "state" && f !in at && f !in inf && f in pr ==> f in r && r[f] == pr[f])
      && (f != "state" && f !in at && f !in inf && f !in pr ==> f !in r)
  {
  }

  // ---------------------------------------------------------------- one field

  /** The value a field is set to settles it: compared with the same API value again, the
      field is unchanged and keeps that value. */
  lemma PlainSettles(stored: Value, value: Value)
    requires PlainUpdate(stored, value).Ok?
    ensures var w := PlainUpdate(stored, value).value.1;
      PlainUpdate(w, value) == Ok((false, w))
  {
    if !stored.VDecimal? && !value.VDecimal? {
      PyEqReflexive(value);
    }
  }

  lemma FieldSettles(env: Env, attr: string, stored: Value, value: Value)
    requires FieldUpdate(env, attr, stored, value).Ok?
    ensures var w := FieldUpdate(env, attr, stored, value).value.1;
      FieldUpdate(env, attr, w, value) == Ok((false, w))
  {
    if !StampField(attr) {
      PlainSettles(stored, value);
    }
  }

  /** The rule of update_products settles. */
  lemma RuleSettles(env: Env)
    ensures Settling(Rule(env))
  {
    forall a, st, v | Rule(env)(a, st, v).Ok?
      ensures Rule(env)(a, Rule(env)(a, st, v).value.1, v).Ok? && !Rule(env)(a, Rule(env)(a, st, v).value.1, v).value.0
    {
      FieldSettles(env, a, st, v);
    }
  }

  /** A field loop in which no field raises or changes leaves the product as it was. */
  lemma NothingChanges(rule: FieldRule, obj: Record, m: Record)
    requires forall a :: a in m ==> Verdicts(rule, obj, m)[a].Ok? && !Verdicts(rule, obj, m)[a].value.0
    ensures ApplyFields(rule, obj, m) == Ok((obj, {}))
  {
    assert !FieldsFail(rule, obj, m);
    assert ChangedFields(rule, obj, m) == {};
    assert ApplyFields(rule, obj, m).value.0 == obj;
  }

  /** When one field alone raises, the field loop raises that field's own exception. */
  lemma OneFieldRaises(rule: FieldRule, obj: Record, m: Record, a: string)
    requires a in m && Verdicts(rule, obj, m)[a].Err?
    requires forall b :: b in m && b != a ==> Verdicts(rule, obj, m)[b].Ok?
    ensures ApplyFields(rule, obj, m) == Err(rule(a, Get(obj, a), m[a]).error)
  {
    var vs := Verdicts(rule, obj, m);
    var ks := FailKinds(rule, obj, m);
    assert vs[a].error in ks;
    assert ks == {vs[a].error};
  }

  /** After the field loop, each merged field compares unchanged against the new record. */
  lemma SettledAt(rule: FieldRule, obj: Record, m: Record, a: string)
    requires Settling(rule)
    requires ApplyFields(rule, obj, m).Ok? && a in m
    ensures var obj' := ApplyFields(rule, obj, m).value.0;
      Verdicts(rule, obj', m)[a].Ok? && !Verdicts(rule, obj', m)[a].value.0
  {
    var vs := Verdicts(rule, obj, m);
    var obj' := ApplyFields(rule, obj, m).value.0;
    var ch := ApplyFields(rule, obj, m).value.1;
    assert vs[a] == rule(a, Get(obj, a), m[a]);
    assert Verdicts(rule, obj', m)[a] == rule(a, Get(obj', a), m[a]);
    assert !FieldsFail(rule, obj, m);
    if a in ch {
      assert Get(obj', a) == vs[a].value.1;
    } else {
      assert Get(obj', a) == Get(obj, a);
    }
  }

  /** Running the field loop of a settling rule again on the record it produced changes no field. */
  lemma ApplyFieldsSettles(rule: FieldRule, obj: Record, m: Record)
    requires Settling(rule)
    requires ApplyFields(rule, obj, m).Ok?
    ensures var obj' := ApplyFields(rule, obj, m).value.0;
      ApplyFields(rule, obj', m) == Ok((obj', {}))
  {
    var obj' := ApplyFields(rule, obj, m).value.0;
    forall a | a in m
      ensures Verdicts(rule, obj', m)[a].Ok? && !Verdicts(rule, obj', m)[a].value.0
    {
      SettledAt(rule, obj, m, a);
    }
    NothingChanges(rule, obj', m);
  }

  // ---------------------------------------------------------------- one product

  /** A step on a product leaves the other rows alone, keeps the product's row, counts it at
      most once, and only ever switches shops off, never the sync task's own. */
  lemma StepFrame(env: Env, fields: set<string>, shop: nat, src: Sources, g: Progress, p: Record)
    requires ProductStep(env, fields, shop, src, g, p).error.None?
    ensures "id" in p
    ensures var g' := ProductStep(env, fields, shop, src, g, p).store;
      && p["id"] in g'.catalog.products
      && (forall id :: id != p["id"] ==>
            (id in g'.catalog.products <==> id in g.catalog.products) &&
            (id in g.catalog.products ==> g'.catalog.products[id] == g.catalog.products[id]))
      && (g'.total == g.total || g'.total == g.total + 1)
    ensures var g' := ProductStep(env, fields, shop, src, g, p).store;
      && g'.catalog.shops.Keys == g.catalog.shops.Keys
      && (forall k :: k in g.catalog.shops ==>
            g'.catalog.shops[k] == g.catalog.shops[k] || g'.catalog.shops[k] == g.catalog.shops[k].(isActive := false))
      && (shop in g.catalog.shops ==> g'.catalog.shops[shop] == g.catalog.shops[shop])
  {
    StepSaves(env, fields, shop, src, g, p);
    PrepareShops(shop, g, p);
    var pre := Prepare(shop, g, p).value;
    var g' := ProductStep(env, fields, shop, src, g, p).store;
    assert g'.catalog.shops == pre.shops;
    assert forall id :: id != p["id"] ==> (id in pre.rows <==> id in g.catalog.products);
    assert forall id :: id != p["id"] && id in g.catalog.products ==> pre.rows[id] == g.catalog.products[id];
  }

  /** Handing the product over switches at most its former shop off, never the sync task's own. */
  lemma PrepareShops(shop: nat, g: Progress, p: Record)
    requires Prepare(shop, g, p).Ok?
    ensures var pre := Prepare(shop, g, p).value;
      && pre.shops.Keys == g.catalog.shops.Keys
      && (forall k :: k in g.catalog.shops ==>
            pre.shops[k] == g.catalog.shops[k] || pre.shops[k] == g.catalog.shops[k].(isActive := false))
      && (shop in g.catalog.shops ==> pre.shops[shop] == g.catalog.shops[shop])
  {
    var id := p["id"];
    var created := id !in g.catalog.products;
    var obj := if created then map["id" := id] else g.catalog.products[id];
    assert Assign(obj, created, shop, g.catalog.shops).Ok?;
  }

  /** The product is saved, and counted, exactly when some merged field changed; otherwise
      its row stays as get_or_create left it, so a hand-over alone is not stored. */
  lemma StepSaves(env: Env, fields: set<string>, shop: nat, src: Sources, g: Progress, p: Record)
    requires ProductStep(env, fields, shop, src, g, p).error.None?
    ensures Prepare(shop, g, p).Ok? && Merged(src, p, fields).Ok?
    ensures ApplyFields(Rule(env), Prepare(shop, g, p).value.obj, Merged(src, p, fields).value).Ok?
    ensures var g' := ProductStep(env, fields, shop, src, g, p).store;
      var pre := Prepare(shop, g, p).value;
      var applied := ApplyFields(Rule(env), pre.obj, Merged(src, p, fields).value).value;
      && (applied.1 != {} ==> g'.total == g.total + 1 && g'.catalog.products == pre.rows[pre.id := applied.0])
      && (applied.1 == {} ==> g'.total == g.total && g'.catalog.products == pre.rows)
      && g'.catalog.shops == pre.shops
  {
  }

  /** A product held by another shop: that shop is switched off, and the product passes to
      the sync task's shop in the store only when one of its fields also changed. */
  lemma HandOver(env: Env, fields: set<string>, shop: nat, src: Sources, g: Progress, p: Record)
    requires ProductStep(env, fields, shop, src, g, p).error.None?
    requires "shop" !in fields
    requires "id" in p && p["id"] in g.catalog.products
    requires Get(g.catalog.products[p["id"]], "shop").VRef? && Get(g.catalog.products[p["id"]], "shop") != VRef(shop)
    ensures var o := Get(g.catalog.products[p["id"]], "shop").id;
      var g' := ProductStep(env, fields, shop, src, g, p).store;
      && o in g.catalog.shops
      && g'.catalog.shops == g.catalog.shops[o := g.catalog.shops[o].(isActive := false)]
      && (g'.total == g.total + 1 <==> Get(g'.catalog.products[p["id"]], "shop") == VRef(shop))
      && (g'.total == g.total ==> g'.catalog.products == g.catalog.products)
  {
    StepSaves(env, fields, shop, src, g, p);
    var pre := Prepare(shop, g, p).value;
    var m := Merged(src, p, fields).value;
    var applied := ApplyFields(Rule(env), pre.obj, m).value;
    assert "shop" !in applied.1;
  }

  /** A product new to the store is created with its id only, and holds the sync task's shop once
      it is saved. */
  lemma Created(env: Env, fields: set<string>, shop: nat, src: Sources, g: Progress, p: Record)
    requires ProductStep(env, fields, shop, src, g, p).error.None?
    requires "shop" !in fields
    requires "id" in p && p["id"] !in g.catalog.products
    ensures var g' := ProductStep(env, fields, shop, src, g, p).store;
      && g'.catalog.shops == g.catalog.shops
      && (g'.total == g.total + 1 ==> Get(g'.catalog.products[p["id"]], "shop") == VRef(shop))
      && (g'.total == g.total ==> g'.catalog.products == g.catalog.products[p["id"] := map["id" := p["id"]]])
  {
    StepSaves(env, fields, shop, src, g, p);
    var pre := Prepare(shop, g, p).value;
    var m := Merged(src, p, fields).value;
    var applied := ApplyFields(Rule(env), pre.obj, m).value;
    assert "shop" !in applied.1;
  }

  /** The same product handled again with the same responses finds nothing to change. */
  lemma StepRepeats(env: Env, fields: set<string>, shop: nat, src: Sources, g: Progress, p: Record)
    requires ProductStep(env, fields, shop, src, g, p).error.None?
    requires "shop" !in fields
    ensures var g' := ProductStep(env, fields, shop, src, g, p).store;
      ProductStep(env, fields, shop, src, g', p) == Committed(g', None)
  {
    StepSaves(env, fields, shop, src, g, p);
    var g' := ProductStep(env, fields, shop, src, g, p).store;
    var pre := Prepare(shop, g, p).value;
    var m := Merged(src, p, fields).value;
    var applied := ApplyFields(Rule(env), pre.obj, m).value;
    if applied.1 != {} {
      assert "shop" !in applied.1;
      PrepareSaved(shop, g, p, applied.0, g'.total);
      RuleSettles(env);
      ApplyFieldsSettles(Rule(env), pre.obj, m);
    } else {
      PrepareRepeats(shop, g, p, g'.total);
    }
  }

  /** get_or_create finds the row the first pass left, and the hand-over has nothing left to do. */
  lemma PrepareRepeats(shop: nat, g: Progress, p: Record, total: nat)
    requires Prepare(shop, g, p).Ok?
    ensures var pre := Prepare(shop, g, p).value;
      Prepare(shop, Progress(Catalog(pre.rows, pre.shops), total), p) == Ok(pre)
  {
    var pre := Prepare(shop, g, p).value;
    if p["id"] in g.catalog.products {
      var owner := Get(g.catalog.products[p["id"]], "shop");
      if owner.VRef? && owner != VRef(shop) {
        assert pre.shops[owner.id := pre.shops[owner.id].(isActive := false)] == pre.shops;
      }
    }
    assert pre.rows[p["id"] := pre.rows[p["id"]]] == pre.rows;
  }

  /** A product saved with the sync task's shop is found held by that shop. */
  lemma PrepareSaved(shop: nat, g: Progress, p: Record, obj: Record, total: nat)
    requires Prepare(shop, g, p).Ok?
    requires "shop" in obj && obj["shop"] == VRef(shop)
    ensures var pre := Prepare(shop, g, p).value;
      Prepare(shop, Progress(Catalog(pre.rows[pre.id := obj], pre.shops), total), p) ==
        Ok(Prepared(pre.id, pre.rows[pre.id := obj], obj, pre.shops))
  {
    var pre := Prepare(shop, g, p).value;
    assert obj["shop" := VRef(shop)] == obj;
    assert pre.rows[pre.id := obj][pre.id := obj] == pre.rows[pre.id := obj];
  }

  // ---------------------------------------------------------------- the loop

  lemma ListedSplit(ps: seq<Record>)
    requires |ps| > 0
    ensures ListedIds(ps) == (if "id" in ps[0] then {ps[0]["id"]} else {}) + ListedIds(ps[1..])
  {
    forall id | id in ListedIds(ps)
      ensures id in (if "id" in ps[0] then {ps[0]["id"]} else {}) + ListedIds(ps[1..])
    {
      var q :| q in ps && "id" in q && q["id"] == id;
      if q != ps[0] {
        assert q in ps[1..];
      }
    }
    forall id | id in ListedIds(ps[1..]) ensures id in ListedIds(ps) {
      var q :| q in ps[1..] && "id" in q && q["id"] == id;
      assert q in ps;
    }
  }

  /** The loop touches only the listed products, and each of them has a row afterwards. */
  lemma {:induction false} StepsRows(env: Env, fields: set<string>, shop: nat, src: Sources, g: Progress, ps: seq<Record>)
    requires Steps(env, fields, shop, src, g, ps).error.None?
    ensures var g' := Steps(env, fields, shop, src, g, ps).store;
      && ListedIds(ps) <= g'.catalog.products.Keys
      && (forall id :: id !in ListedIds(ps) ==>
            (id in g'.catalog.products <==> id in g.catalog.products) &&
            (id in g.catalog.products ==> g'.catalog.products[id] == g.catalog.products[id]))
    decreases |ps|
  {
    if |ps| > 0 {
      var g1 := ProductStep(env, fields, shop, src, g, ps[0]).store;
      StepFrame(env, fields, shop, src, g, ps[0]);
      StepsRows(env, fields, shop, src, g1, ps[1..]);
      ListedSplit(ps);
      var g' := Steps(env, fields, shop, src, g, ps).store;
      assert g' == Steps(env, fields, shop, src, g1, ps[1..]).store;
      if ps[0]["id"] !in ListedIds(ps[1..]) {
        assert ps[0]["id"] in g'.catalog.products;
      }
    }
  }

  // ---------------------------------------------------------------- the run

  /** The ids go out in chunks of at most 1000 that together are the product list in order,
      and every info, price and attribute call of a finished run answered. */
  lemma RefreshCalls(env: Env, fields: set<string>, shop: nat, api: ProductApi, c: Catalog)
    requires RefreshProducts(env, fields, shop, api, c).error.None?
    ensures api.products.Ok? && ProductIds(api.products.value).Ok?
    ensures var ids := ProductIds(api.products.value).value;
      var cs := Chunks.Chunks(ids, ProductChunkSize);
      && Chunks.Concat(cs) == ids
      && (forall i :: 0 <= i < |cs| ==> 0 < |cs[i]| <= ProductChunkSize)
      && (forall i :: 0 <= i < |cs| ==> api.info(cs[i]).Ok? && api.price(cs[i]).Ok? && api.attribute(cs[i]).Ok?)
  {
  }

  /** After a run, no product of the shop is outside the list; every listed product has a row;
      an unlisted row is deleted exactly when it is the shop's, and otherwise kept as it was;
      the count deleted is the number of the shop's unlisted rows, which the loop leaves as
      they were; total is at most the list. */
  lemma RefreshOutcome(env: Env, fields: set<string>, shop: nat, api: ProductApi, c: Catalog)
    requires RefreshProducts(env, fields, shop, api, c).error.None?
    ensures api.products.Ok?
    ensures var r := RefreshProducts(env, fields, shop, api, c).store;
      var ps := api.products.value;
      && (forall id :: id in r.catalog.products && Get(r.catalog.products[id], "shop") == VRef(shop) ==> id in ListedIds(ps))
      && ListedIds(ps) <= r.catalog.products.Keys
      && (forall id :: id in c.products && id !in ListedIds(ps) ==>
            (id in r.catalog.products <==> Get(c.products[id], "shop") != VRef(shop)) &&
            (id in r.catalog.products ==> r.catalog.products[id] == c.products[id]))
      && r.deleted == |ToDelete(c.products, shop, ListedIds(ps))|
      && r.total <= |ps|
  {
    var ps := api.products.value;
    var ids := ProductIds(ps).value;
    var cs := Chunks.Chunks(ids, ProductChunkSize);
    var src := Fetched(api, ps).value;
    var g := Steps(env, fields, shop, src, Progress(c, 0), ps).store;
    StepsRows(env, fields, shop, src, Progress(c, 0), ps);
    StepsKeep(env, fields, shop, src, Progress(c, 0), ps);
    var listed := ListedIds(ps);
    var gone := ToDelete(g.catalog.products, shop, listed);
    assert gone == ToDelete(c.products, shop, listed);
  }

  /** A run only switches shops off, and never the sync task's own. */
  lemma RefreshShops(env: Env, fields: set<string>, shop: nat, api: ProductApi, c: Catalog)
    requires RefreshProducts(env, fields, shop, api, c).error.None?
    ensures var s' := RefreshProducts(env, fields, shop, api, c).store.catalog.shops;
      && s'.Keys == c.shops.Keys
      && (forall k :: k in s' ==> s'[k].isActive ==> c.shops[k].isActive)
      && (forall k :: k in s' ==> s'[k].(isActive := c.shops[k].isActive) == c.shops[k])
      && (shop in s' ==> s'[shop] == c.shops[shop])
  {
    var ps := api.products.value;
    var ids := ProductIds(ps).value;
    var cs := Chunks.Chunks(ids, ProductChunkSize);
    var src := Fetched(api, ps).value;
    StepsKeep(env, fields, shop, src, Progress(c, 0), ps);
  }

  /** The run fails with the error of the product list, and with KeyError when a listed
      product has no product_id; either way before the loop, so the store is as it was. */
  lemma RefreshErrors(env: Env, fields: set<string>, shop: nat, api: ProductApi, c: Catalog)
    ensures api.products.Err? ==>
      RefreshProducts(env, fields, shop, api, c) == Committed(ProductReport(c, 0, 0), Some(api.products.error))
    ensures api.products.Ok? && (exists i :: 0 <= i < |api.products.value| && "product_id" !in api.products.value[i]) ==>
      RefreshProducts(env, fields, shop, api, c) == Committed(ProductReport(c, 0, 0), Some(KeyError))
  {
  }

  // ---------------------------------------------------------------- failing runs

  /** A step that raises has saved no product: rows already stored are unchanged, and the
      only row it may add is the product get_or_create created, holding its id alone;
      total is unchanged and shops are only switched off, never the sync task's own. */
  lemma StepFailKeeps(env: Env, fields: set<string>, shop: nat, src: Sources, g: Progress, p: Record)
    requires ProductStep(env, fields, shop, src, g, p).error.Some?
    ensures var g' := ProductStep(env, fields, shop, src, g, p).store;
      && g'.total == g.total
      && (forall id :: id in g.catalog.products ==>
            id in g'.catalog.products && g'.catalog.products[id] == g.catalog.products[id])
      && (forall id :: id in g'.catalog.products && id !in g.catalog.products ==>
            "id" in p && id == p["id"] && g'.catalog.products[id] == map["id" := id])
    ensures var g' := ProductStep(env, fields, shop, src, g, p).store;
      && g'.catalog.shops.Keys == g.catalog.shops.Keys
      && (forall k :: k in g.catalog.shops ==>
            g'.catalog.shops[k] == g.catalog.shops[k] || g'.catalog.shops[k] == g.catalog.shops[k].(isActive := false))
      && (shop in g.catalog.shops ==> g'.catalog.shops[shop] == g.catalog.shops[shop])
  {
    StepFailShape(env, fields, shop, src, g, p);
    if Prepare(shop, g, p).Ok? {
      PrepareShops(shop, g, p);
      PrepareRows(shop, g, p);
    }
  }

  /** A step that raised keeps what get_or_create and the hand-over committed, or nothing. */
  lemma StepFailShape(env: Env, fields: set<string>, shop: nat, src: Sources, g: Progress, p: Record)
    requires ProductStep(env, fields, shop, src, g, p).error.Some?
    ensures var pre := Prepare(shop, g, p);
      ProductStep(env, fields, shop, src, g, p).store
        == if pre.Err? then g else Progress(Catalog(pre.value.rows, pre.value.shops), g.total)
  {
  }

  /** get_or_create keeps every stored product and adds at most the new one, holding its id. */
  lemma PrepareRows(shop: nat, g: Progress, p: Record)
    requires Prepare(shop, g, p).Ok?
    ensures var rows := Prepare(shop, g, p).value.rows;
      && (forall id :: id in g.catalog.products ==> id in rows && rows[id] == g.catalog.products[id])
      && (forall id :: id in rows && id !in g.catalog.products ==> "id" in p && id == p["id"] && rows[id] == map["id" := id])
  {
  }

  /** Whether it finishes or raises, a step keeps every row but the product's, adds at most
      the product's, and only switches shops off, never the sync task's own. */
  lemma StepKeeps(env: Env, fields: set<string>, shop: nat, src: Sources, g: Progress, p: Record)
    ensures var g' := ProductStep(env, fields, shop, src, g, p).store;
      && g.catalog.products.Keys <= g'.catalog.products.Keys
      && (forall id :: id in g'.catalog.products && id !in g.catalog.products ==> "id" in p && id == p["id"])
      && (forall id :: id in g.catalog.products && ("id" !in p || id != p["id"]) ==>
            g'.catalog.products[id] == g.catalog.products[id])
      && (g'.total == g.total || g'.total == g.total + 1)
    ensures var g' := ProductStep(env, fields, shop, src, g, p).store;
      && g'.catalog.shops.Keys == g.catalog.shops.Keys
      && (forall k :: k in g.catalog.shops ==>
            g'.catalog.shops[k] == g.catalog.shops[k] || g'.catalog.shops[k] == g.catalog.shops[k].(isActive := false))
      && (shop in g.catalog.shops ==> g'.catalog.shops[shop] == g.catalog.shops[shop])
  {
    if ProductStep(env, fields, shop, src, g, p).error.None? {
      StepFrame(env, fields, shop, src, g, p);
    } else {
      StepFailKeeps(env, fields, shop, src, g, p);
    }
  }

  /** Whether the loop finishes or raises, it deletes no row, leaves every unlisted row as it
      was, adds only listed rows, saves at most one product per listed one, and only switches
      shops off, never the sync task's own. */
  lemma {:induction false} StepsKeep(env: Env, fields: set<string>, shop: nat, src: Sources, g: Progress, ps: seq<Record>)
    ensures var g' := Steps(env, fields, shop, src, g, ps).store;
      && g.catalog.products.Keys <= g'.catalog.products.Keys
      && (forall id :: id !in ListedIds(ps) ==>
            (id in g'.catalog.products <==> id in g.catalog.products) &&
            (id in g.catalog.products ==> g'.catalog.products[id] == g.catalog.products[id]))
      && g.total <= g'.total <= g.total + |ps|
    ensures var s' := Steps(env, fields, shop, src, g, ps).store.catalog.shops;
      && s'.Keys == g.catalog.shops.Keys
      && (forall k :: k in s' ==> s'[k].isActive ==> g.catalog.shops[k].isActive)
      && (forall k :: k in s' ==> s'[k].(isActive := g.catalog.shops[k].isActive) == g.catalog.shops[k])
      && (shop in s' ==> s'[shop] == g.catalog.shops[shop])
    decreases |ps|
  {
    if |ps| > 0 {
      var s := ProductStep(env, fields, shop, src, g, ps[0]);
      StepKeeps(env, fields, shop, src, g, ps[0]);
      ListedSplit(ps);
      if s.error.None? {
        StepsKeep(env, fields, shop, src, s.store, ps[1..]);
      }
    }
  }

  /** The first product, then the rest from the store it reached unless it raised. */
  lemma StepsCons(env: Env, fields: set<string>, shop: nat, src: Sources, g: Progress, ps: seq<Record>)
    requires |ps| > 0
    ensures var s := ProductStep(env, fields, shop, src, g, ps[0]);
      Steps(env, fields, shop, src, g, ps) == if s.error.Some? then s else Steps(env, fields, shop, src, s.store, ps[1..])
  {
  }

  /** A prefix of the loop after a first product that did not raise. */
  lemma StepsPrefixCons(env: Env, fields: set<string>, shop: nat, src: Sources, g: Progress, ps: seq<Record>, j: nat)
    requires j < |ps| && ProductStep(env, fields, shop, src, g, ps[0]).error.None?
    ensures Steps(env, fields, shop, src, g, ps[..j + 1])
      == Steps(env, fields, shop, src, ProductStep(env, fields, shop, src, g, ps[0]).store, ps[1..][..j])
  {
    var pre := ps[..j + 1];
    assert pre[0] == ps[0] && pre[1..] == ps[1..][..j];
    StepsCons(env, fields, shop, src, g, pre);
  }

  /** The loop runs the products in order up to the first that raises; a failed loop leaves
      the store the products before it reached, with what the failing step committed on top. */
  lemma {:induction false} StepsStops(env: Env, fields: set<string>, shop: nat, src: Sources, g: Progress, ps: seq<Record>)
    ensures var r := Steps(env, fields, shop, src, g, ps);
      exists i :: 0 <= i <= |ps| && Steps(env, fields, shop, src, g, ps[..i]).error.None?
        && (r.error.None? <==> i == |ps|)
        && (i == |ps| ==> r == Steps(env, fields, shop, src, g, ps[..i]))
        && (i < |ps| ==> r == ProductStep(env, fields, shop, src, Steps(env, fields, shop, src, g, ps[..i]).store, ps[i]))
    decreases |ps|
  {
    var r := Steps(env, fields, shop, src, g, ps);
    if |ps| == 0 {
      assert ps[..0] == ps;
    } else {
      var s := ProductStep(env, fields, shop, src, g, ps[0]);
      if s.error.Some? {
        assert Steps(env, fields, shop, src, g, ps[..0]) == Committed(g, None);
      } else {
        var rest := ps[1..];
        StepsStops(env, fields, shop, src, s.store, rest);
        var j :| 0 <= j <= |rest| && Steps(env, fields, shop, src, s.store, rest[..j]).error.None?
          && (r.error.None? <==> j == |rest|)
          && (j == |rest| ==> r == Steps(env, fields, shop, src, s.store, rest[..j]))
          && (j < |rest| ==> r == ProductStep(env, fields, shop, src, Steps(env, fields, shop, src, s.store, rest[..j]).store, rest[j]));
        StepsCons(env, fields, shop, src, g, ps);
        StepsPrefixCons(env, fields, shop, src, g, ps, j);
        if j == |rest| {
          assert ps[..j + 1] == ps;
        } else {
          assert rest[j] == ps[j + 1];
        }
      }
    }
  }

  /** A run that raises deletes nothing and reports no deletion: every row stored before is
      still there, an unlisted row is as it was, and total is at most the list. */
  lemma RefreshFails(env: Env, fields: set<string>, shop: nat, api: ProductApi, c: Catalog)
    requires RefreshProducts(env, fields, shop, api, c).error.Some?
    ensures var r := RefreshProducts(env, fields, shop, api, c).store;
      && r.deleted == 0
      && c.products.Keys <= r.catalog.products.Keys
      && (api.products.Ok? ==> r.total <= |api.products.value|)
      && (api.products.Ok? ==>
            forall id :: id in c.products && id !in ListedIds(api.products.value) ==>
              r.catalog.products[id] == c.products[id])
  {
    if api.products.Ok? {
      var ps := api.products.value;
      var src := Fetched(api, ps);
      if src.Ok? {
        StepsKeep(env, fields, shop, src.value, Progress(c, 0), ps);
      }
    }
  }

  // ---------------------------------------------------------------- the count deleted

  /** As written, the count is taken after the delete, so it is always 0, and differs from
      the number of rows deleted whenever a row is deleted. */
  lemma DeletedCountAsWritten(c: Catalog, shop: nat, listed: set<Value>)
    ensures DeleteUnlistedAsWritten(c, shop, listed).1 == 0
    ensures DeleteUnlistedAsWritten(c, shop, listed).0 == DeleteUnlisted(c, shop, listed).0
    ensures ToDelete(c.products, shop, listed) != {} ==>
      DeleteUnlistedAsWritten(c, shop, listed).1 != DeleteUnlisted(c, shop, listed).1
  {
    var rows := c.products - ToDelete(c.products, shop, listed);
    assert ToDelete(rows, shop, listed) == {};
  }

  /** The count reported is the number of rows the delete took out of the store, and those
      are exactly the shop's unlisted rows. */
  lemma DeletedCount(c: Catalog, shop: nat, listed: set<Value>)
    ensures var (c', n) := DeleteUnlisted(c, shop, listed);
      && c'.products.Keys <= c.products.Keys
      && n + |c'.products.Keys| == |c.products.Keys|
      && (forall id :: id in c.products && id !in c'.products <==>
            id in c.products && Get(c.products[id], "shop") == VRef(shop) && id !in listed)
  {
    var gone := ToDelete(c.products, shop, listed);
    MinusCard(c.products, gone);
  }

  /** Taking a set of keys out of a map leaves as many keys as it had, less that set's. */
  lemma MinusCard(m: map<Value, Record>, gone: set<Value>)
    requires gone <= m.Keys
    ensures (m - gone).Keys == m.Keys - gone
    ensures |gone| + |(m - gone).Keys| == |m.Keys|
  {
    assert m.Keys == (m.Keys - gone) + gone;
  }

  /** Whatever happens, update_products deletes only rows of the key's shop that were not
      listed, and when it raises it has deleted nothing. */
  lemma UpdateProductsKeeps(keyId: Option<nat>, keys: seq<ApiKey>, now: int, env: Env, fields: set<string>,
                            api: ProductApi, c: Catalog)
    ensures var r := UpdateProducts(keyId, keys, now, env, fields, api, c);
      && (r.end.Escaped? || r.end.NoKey? ==> c.products.Keys <= r.catalog.products.Keys)
      && (r.end.Reported? ==> keyId.Some? && GetKey(keys, c.shops, keyId, now).Ok? && api.products.Ok?)
      && (r.end.Reported? ==>
            var shop := GetKey(keys, c.shops, keyId, now).value.shop.value;
            forall id :: id in c.products && id !in r.catalog.products ==>
              Get(c.products[id], "shop") == VRef(shop) && id !in ListedIds(api.products.value))
  {
    var r := UpdateProducts(keyId, keys, now, env, fields, api, c);
    if keyId.Some? && GetKey(keys, c.shops, keyId, now).Ok? {
      var shop := GetKey(keys, c.shops, keyId, now).value.shop.value;
      var run := RefreshProducts(env, fields, shop, api, c);
      if run.error.Some? {
        RefreshFails(env, fields, shop, api, c);
      } else {
        RefreshOutcome(env, fields, shop, api, c);
      }
    }
  }
}
