/** orders2db and get_product of backend/mp/tasks/update_orders.py: the orders of one
    page reconciled by (order_id, posting_number), then each order's product lines
    upserted and the lines no longer in the order deleted. */
module Orders {
  import opened Wrappers
  import opened Values
  import opened Reconciler

  /** The two order models. */
  datatype Kind = FBO | FBS

  /** model.__name__.lower(): the type a SKU_Offer row is matched on. */
  function KindName(k: Kind): string
  {
    if k.FBO? then "fbo" else "fbs"
  }

  const OrderKeys: seq<string> := ["order_id", "posting_number"]

  /** A SKU_Offer row: a marketplace sku and offer id mapped to a product. */
  datatype SkuOffer = SkuOffer(sku: Value, offerId: Value, kind: string, product: nat)

  /** What get_product searches: the SKU_Offer rows in table order and each product's shop. */
  datatype Catalog = Catalog(offers: seq<SkuOffer>, productShop: map<nat, nat>)

  /** Q(sku=sku) | Q(offer_id=offer_id, type=kind), product__shop=shop */
  predicate OfferMatches(cat: Catalog, s: SkuOffer, shop: nat, kind: Kind, sku: Value, offerId: Value)
  {
    (s.sku == sku || (s.offerId == offerId && s.kind == KindName(kind)))
    && s.product in cat.productShop && cat.productShop[s.product] == shop
  }

  function FirstMatch(cat: Catalog, offers: seq<SkuOffer>, shop: nat, kind: Kind, sku: Value, offerId: Value): (r: Option<nat>)
    ensures r.None? <==> forall i :: 0 <= i < |offers| ==> !OfferMatches(cat, offers[i], shop, kind, sku, offerId)
    ensures r.Some? ==> exists i :: (0 <= i < |offers| && OfferMatches(cat, offers[i], shop, kind, sku, offerId)
      && offers[i].product == r.value
      && forall j :: 0 <= j < i ==> !OfferMatches(cat, offers[j], shop, kind, sku, offerId))
  {
    if |offers| == 0 then None
    else if OfferMatches(cat, offers[0], shop, kind, sku, offerId) then Some(offers[0].product)
    else
      var r := FirstMatch(cat, offers[1..], shop, kind, sku, offerId);
      assert forall i :: 0 < i < |offers| ==> offers[i] == offers[1..][i - 1];
      if r.Some? then
        var i :| 0 <= i < |offers[1..]| && OfferMatches(cat, offers[1..][i], shop, kind, sku, offerId)
          && offers[1..][i].product == r.value
          && forall j :: 0 <= j < i ==> !OfferMatches(cat, offers[1..][j], shop, kind, sku, offerId);
        assert offers[i + 1] == offers[1..][i];
        assert forall j :: 0 < j < i + 1 ==> offers[j] == offers[1..][j - 1];
        r
      else r
  }

  /** get_product: the product of the first matching SKU_Offer row, or None (a lost product). */
  function GetProduct(cat: Catalog, shop: nat, kind: Kind, sku: Value, offerId: Value): Option<nat>
  {
    FirstMatch(cat, cat.offers, shop, kind, sku, offerId)
  }

  /** The fixed context of one run: conversions, order model, shop, catalogue and the
      fields of the order and product-line models. */
  datatype Ctx = Ctx(env: Env, kind: Kind, shop: nat, catalog: Catalog, orderSchema: set<string>, lineSchema: set<string>)

  /** The order table and its product-line table (FBO and FBO_Product, or FBS and FBS_Product). */
  datatype OrderDb = OrderDb(orders: Table, lines: Table)

  // ---------------------------------------------------------------- one product line

  /** The comparison of one product-line field: str for date, datetime and int values or
      list values, five places of float(value) for decimals, otherwise !=. */
  function LineChanged(env: Env, stored: Value, incoming: Value): Result<bool>
  {
    if stored.VInt? || stored.VDate? || stored.VDateTime? || incoming.VList? then
      Ok(env.show(stored) != env.show(incoming))
    else if stored.VDecimal? then
      var x :- AsNumber(env, incoming);
      Ok(Render5(stored.d) != Render5(x))
    else Ok(!PyEq(stored, incoming))
  }

  predicate LineFails(env: Env, row: Record, p: Record, schema: set<string>)
  {
    exists a :: a in p && a in schema && LineChanged(env, Get(row, a), p[a]).Err?
  }

  /** changed_fields of one line. */
  function LineChanges(env: Env, row: Record, p: Record, schema: set<string>): set<string>
  {
    set a | a in p && a in schema && LineChanged(env, Get(row, a), p[a]) == Ok(true)
  }

  predicate IsLine(row: Record, order: nat, product: Value)
  {
    Get(row, "order") == VRef(order) && Get(row, "product") == product
  }

  /** The lines of (order, product) with keys below n, ascending. */
  function LineIds(rows: map<nat, Record>, n: nat, order: nat, product: Value): (ids: seq<nat>)
    ensures forall id :: id in ids <==> id < n && id in rows && IsLine(rows[id], order, product)
  {
    if n == 0 then []
    else LineIds(rows, n - 1, order, product) + (if n - 1 in rows && IsLine(rows[n - 1], order, product) then [n - 1] else [])
  }

  /** get_or_create(order=order, product=product): the one matching line, a new line at the
      next key, or MultipleObjectsReturned. */
  function GetOrCreate(lines: Table, order: nat, product: Value): (r: Result<(Table, nat)>)
    ensures r.Err? <==> |LineIds(lines.rows, lines.nextId, order, product)| > 1
    ensures r.Ok? ==> r.value.1 in r.value.0.rows && IsLine(r.value.0.rows[r.value.1], order, product)
    ensures r.Ok? ==> r.value.0.rows.Keys == lines.rows.Keys + {r.value.1}
    ensures r.Ok? ==> forall id :: id in lines.rows && id != r.value.1 ==> r.value.0.rows[id] == lines.rows[id]
    ensures r.Ok? ==> (r.value.0 == lines <==> |LineIds(lines.rows, lines.nextId, order, product)| == 1)
    ensures r.Ok? && r.value.0 != lines ==> r.value.1 == lines.nextId && r.value.0.nextId == lines.nextId + 1
  {
    var ids := LineIds(lines.rows, lines.nextId, order, product);
    if |ids| > 1 then Err(MultipleObjects)
    else if |ids| == 1 then
      assert ids[0] in ids;
      Ok((lines, ids[0]))
    else
      var row := map["order" := VRef(order), "product" := product];
      Ok((Table(lines.rows[lines.nextId := row], lines.nextId + 1), lines.nextId))
  }

  /** The body of the loop over o["products"] for one item p. get_or_create commits the
      line it creates, so a field rule that raises afterwards leaves the new line stored. */
  function UpsertLine(ctx: Ctx, lines: Table, order: nat, orderId: Value, p: Value): Committed<Table>
  {
    if !p.VObj? then Committed(lines, Some(TypeError))
    else
      var q := p.fields["ozon_order_id" := orderId];
      if "sku" !in q || "offer_id" !in q then Committed(lines, Some(KeyError))
      else
        var product := GetProduct(ctx.catalog, ctx.shop, ctx.kind, q["sku"], q["offer_id"]);
        var pv := if product.Some? then VRef(product.value) else VNone;
        var g := GetOrCreate(lines, order, pv);
        if g.Err? then Committed(lines, Some(g.error))
        else
          var (t, id) := g.value;
          var row := t.rows[id];
          if LineFails(ctx.env, row, q, ctx.lineSchema) then Committed(t, Some(TypeError))
          else
            var changed := LineChanges(ctx.env, row, q, ctx.lineSchema);
            if changed == {} then Committed(t, None)
            else Committed(Table(t.rows[id := Patch(row, q, changed)], t.nextId), None)
  }

  /** The lines of one order in turn, each committed on its own. */
  function UpsertLines(ctx: Ctx, lines: Table, order: nat, orderId: Value, ps: seq<Value>): Committed<Table>
    decreases |ps|
  {
    if |ps| == 0 then Committed(lines, None)
    else
      var u := UpsertLine(ctx, lines, order, orderId, ps[0]);
      if u.error.Some? then u
      else UpsertLines(ctx, u.store, order, orderId, ps[1..])
  }

  // ---------------------------------------------------------------- one order

  /** [p["sku"] for p in o["products"]] */
  function SkusOf(ps: seq<Value>): set<Value>
  {
    set p | p in ps && p.VObj? && "sku" in p.fields :: p.fields["sku"]
  }

  /** filter(order=order).exclude(sku__in=skus).delete() */
  function DeleteAbsent(lines: Table, order: nat, skus: set<Value>): Table
  {
    Table(map id | id in lines.rows && !(Get(lines.rows[id], "order") == VRef(order) && Get(lines.rows[id], "sku") !in skus)
            :: lines.rows[id], lines.nextId)
  }

  /** One iteration of the loop over the page: the order found in existing_objs, its lines
      upserted, then its other lines deleted. */
  function MirrorOrder(ctx: Ctx, existing: map<Key, nat>, lines: Table, o: Record): Committed<Table>
  {
    var key := KeyOf(ctx.env, o, OrderKeys);
    if key !in existing || "products" !in o then Committed(lines, Some(KeyError))
    else
      var ps := ItemsOf(o["products"]);
      if ps.Err? then Committed(lines, Some(ps.error))
      else
        var u := UpsertLines(ctx, lines, existing[key], Get(o, "order_id"), ps.value);
        if u.error.Some? then u
        else Committed(DeleteAbsent(u.store, existing[key], SkusOf(ps.value)), None)
  }

  /** The orders of the page in turn; a failing order leaves the orders before it mirrored. */
  function MirrorAll(ctx: Ctx, existing: map<Key, nat>, lines: Table, orders: seq<Record>): Committed<Table>
    decreases |orders|
  {
    if |orders| == 0 then Committed(lines, None)
    else
      var m := MirrorOrder(ctx, existing, lines, orders[0]);
      if m.error.Some? then m
      else MirrorAll(ctx, existing, m.store, orders[1..])
  }

  /** The bulk_insert_update call orders2db makes. */
  function OrderCall(ctx: Ctx, orders: seq<Record>): Call
  {
    Call(ctx.env, orders, OrderKeys, ctx.orderSchema, None, Some(ctx.shop))
  }

  /** orders2db(orders, shop, model): the bulk reconcile commits in one transaction before
      the lines are mirrored, so a failure among the lines keeps the orders written. */
  function OrdersToDb(ctx: Ctx, db: OrderDb, orders: seq<Record>): Committed<OrderDb>
  {
    var c := OrderCall(ctx, orders);
    var out := Reconcile(c, db.orders);
    if out.Err? then Committed(db, Some(out.error))
    else
      var m := MirrorAll(ctx, Existing(c, out.value.table), db.lines, orders);
      Committed(OrderDb(out.value.table, m.store), m.error)
  }

  // ---------------------------------------------------------------- the loops

  /** The loop over one line's fields: the changed fields, or the exception a rule raised. */
  method DiffLine(env: Env, row: Record, p: Record, schema: set<string>) returns (res: Result<set<string>>)
    ensures res.Err? <==> LineFails(env, row, p, schema)
    ensures res.Ok? ==> res.value == LineChanges(env, row, p, schema)
  {
    var attrs := p.Keys * schema;
    var todo := attrs;
    var changed: set<string> := {};
    while todo != {}
      invariant todo <= attrs
      invariant forall a :: a in attrs - todo ==> LineChanged(env, Get(row, a), p[a]).Ok?
      invariant changed == set a | a in attrs - todo && LineChanged(env, Get(row, a), p[a]) == Ok(true)
      decreases todo
    {
      var a :| a in todo;
      var v := LineChanged(env, Get(row, a), p[a]);
      if v.Err? {
        return Err(v.error);
      }
      if v.value {
        changed := changed + {a};
      }
      todo := todo - {a};
    }
    assert attrs - todo == attrs;
    return Ok(changed);
  }

  /** One line: get_or_create, the field loop with setattr, and save when something changed. */
  method UpsertLineM(ctx: Ctx, lines: Table, order: nat, orderId: Value, p: Value) returns (r: Committed<Table>)
    ensures SameReach(r, UpsertLine(ctx, lines, order, orderId, p))
  {
    if !p.VObj? {
      return Committed(lines, Some(TypeError));
    }
    var q := p.fields["ozon_order_id" := orderId];
    if "sku" !in q || "offer_id" !in q {
      return Committed(lines, Some(KeyError));
    }
    var product := GetProduct(ctx.catalog, ctx.shop, ctx.kind, q["sku"], q["offer_id"]);
    var pv := if product.Some? then VRef(product.value) else VNone;
    var g := GetOrCreate(lines, order, pv);
    if g.Err? {
      return Committed(lines, Some(g.error));
    }
    var (t, id) := g.value;
    var row := t.rows[id];
    var d := DiffLine(ctx.env, row, q, ctx.lineSchema);
    if d.Err? {
      return Committed(t, Some(d.error));
    }
    if d.value != {} {
      t := Table(t.rows[id := Patch(row, q, d.value)], t.nextId);
    }
    return Committed(t, None);
  }

  /** One order: its lines in order, then the delete of its absent lines. */
  method MirrorOrderM(ctx: Ctx, existing: map<Key, nat>, lines: Table, o: Record) returns (r: Committed<Table>)
    ensures SameReach(r, MirrorOrder(ctx, existing, lines, o))
  {
    var key := KeyOf(ctx.env, o, OrderKeys);
    if key !in existing || "products" !in o {
      return Committed(lines, Some(KeyError));
    }
    var items := ItemsOf(o["products"]);
    if items.Err? {
      return Committed(lines, Some(items.error));
    }
    var ps := items.value;
    var order := existing[key];
    var orderId := Get(o, "order_id");
    var t := lines;
    for i := 0 to |ps|
      invariant UpsertLines(ctx, lines, order, orderId, ps) == UpsertLines(ctx, t, order, orderId, ps[i..])
    {
      assert ps[i..][0] == ps[i] && ps[i..][1..] == ps[i + 1..];
      var u := UpsertLineM(ctx, t, order, orderId, ps[i]);
      if u.error.Some? {
        return u;
      }
      t := u.store;
    }
    return Committed(DeleteAbsent(t, order, SkusOf(ps)), None);
  }

  /** orders2db: the bulk reconcile of the orders, then every order's lines. */
  method OrdersToDbM(ctx: Ctx, db: OrderDb, orders: seq<Record>) returns (r: Committed<OrderDb>)
    ensures SameReach(r, OrdersToDb(ctx, db, orders))
  {
    var c := OrderCall(ctx, orders);
    var out := BulkInsertUpdate(c, db.orders);
    if out.Err? {
      return Committed(db, Some(out.error));
    }
    var existing := Existing(c, out.value.table);
    var t := db.lines;
    for i := 0 to |orders|
      invariant MirrorAll(ctx, existing, db.lines, orders) == MirrorAll(ctx, existing, t, orders[i..])
    {
      assert orders[i..][0] == orders[i] && orders[i..][1..] == orders[i + 1..];
      var m := MirrorOrderM(ctx, existing, t, orders[i]);
      if m.error.Some? {
        return Committed(OrderDb(out.value.table, m.store), m.error);
      }
      t := m.store;
    }
    return Committed(OrderDb(out.value.table, t), None);
  }
}
