/** What orders2db guarantees about the product lines it leaves behind. */
module OrderFacts {
  import opened Wrappers
  import opened Values
  import opened Reconciler
  import opened Orders

  /** A value compared with itself is never a change under the line rules. */
  lemma LineChangedReflexive(env: Env, v: Value)
    ensures LineChanged(env, v, v) == Ok(false)
  {
    if v.VDecimal? {
      assert AsNumber(env, v) == Ok(v.d);
    }
  }

  /** The incoming line as orders2db sees it: tagged with its order's order_id. */
  function Tagged(p: Value, orderId: Value): Record
    requires p.VObj?
  {
    p.fields["ozon_order_id" := orderId]
  }

  /** The product value a line is stored under. */
  function ProductOf(ctx: Ctx, q: Record): Value
    requires "sku" in q && "offer_id" in q
  {
    var product := GetProduct(ctx.catalog, ctx.shop, ctx.kind, q["sku"], q["offer_id"]);
    if product.Some? then VRef(product.value) else VNone
  }

  /** A line after the field loop: patched with its changed fields, or as it was. */
  function SavedLine(env: Env, row: Record, q: Record, schema: set<string>): Record
  {
    var changed := LineChanges(env, row, q, schema);
    if changed == {} then row else Patch(row, q, changed)
  }

  /** The saved line agrees with every incoming model field. */
  lemma SavedLineAgrees(env: Env, row: Record, q: Record, schema: set<string>)
    requires !LineFails(env, row, q, schema)
    ensures forall a :: a in q && a in schema ==> LineChanged(env, Get(SavedLine(env, row, q, schema), a), q[a]) == Ok(false)
  {
    var changed := LineChanges(env, row, q, schema);
    var row' := SavedLine(env, row, q, schema);
    forall a | a in q && a in schema
      ensures LineChanged(env, Get(row', a), q[a]) == Ok(false)
    {
      if a in changed {
        assert Get(row', a) == q[a];
        LineChangedReflexive(env, q[a]);
      } else {
        assert Get(row', a) == Get(row, a);
      }
    }
  }

  /** After a line is upserted, the stored line of (order, product) agrees with every
      incoming model field under the change rules, so a second pass would not save it
      (an incoming item that itself names an order or product would move the line). */
  lemma UpsertedLineAgrees(ctx: Ctx, lines: Table, order: nat, orderId: Value, p: Value)
    requires UpsertLine(ctx, lines, order, orderId, p).error.None?
    requires p.VObj? ==> "order" !in p.fields && "product" !in p.fields
    ensures p.VObj? && "sku" in Tagged(p, orderId) && "offer_id" in Tagged(p, orderId)
    ensures var t := UpsertLine(ctx, lines, order, orderId, p).store;
      var q := Tagged(p, orderId);
      exists id :: id in t.rows && IsLine(t.rows[id], order, ProductOf(ctx, q))
        && forall a :: a in q && a in ctx.lineSchema ==> LineChanged(ctx.env, Get(t.rows[id], a), q[a]) == Ok(false)
  {
    UpsertLineUnfold(ctx, lines, order, orderId, p);
    var q := Tagged(p, orderId);
    var (t, id) := GetOrCreate(lines, order, ProductOf(ctx, q)).value;
    var row := t.rows[id];
    var row' := SavedLine(ctx.env, row, q, ctx.lineSchema);
    var u := UpsertLine(ctx, lines, order, orderId, p).store;
    assert u.rows[id] == row';
    assert Get(row', "order") == Get(row, "order") && Get(row', "product") == Get(row, "product");
    SavedLineAgrees(ctx.env, row, q, ctx.lineSchema);
    assert id in u.rows && IsLine(u.rows[id], order, ProductOf(ctx, q));
  }

  /** One upserted line: the row get_or_create returned is replaced by its saved version, and
      nothing else changes. */
  lemma UpsertLineUnfold(ctx: Ctx, lines: Table, order: nat, orderId: Value, p: Value)
    requires UpsertLine(ctx, lines, order, orderId, p).error.None?
    ensures p.VObj? && "sku" in Tagged(p, orderId) && "offer_id" in Tagged(p, orderId)
    ensures var q := Tagged(p, orderId);
      var g := GetOrCreate(lines, order, ProductOf(ctx, q));
      && g.Ok? && !LineFails(ctx.env, g.value.0.rows[g.value.1], q, ctx.lineSchema)
      && UpsertLine(ctx, lines, order, orderId, p).store
         == Table(g.value.0.rows[g.value.1 := SavedLine(ctx.env, g.value.0.rows[g.value.1], q, ctx.lineSchema)], g.value.0.nextId)
  {
    var q := Tagged(p, orderId);
    var (t, id) := GetOrCreate(lines, order, ProductOf(ctx, q)).value;
    if LineChanges(ctx.env, t.rows[id], q, ctx.lineSchema) == {} {
      assert t.rows[id := t.rows[id]] == t.rows;
    }
  }

  /** Every upserted line carries its order's order_id when the model has that field. */
  lemma LineTaggedWithOrder(ctx: Ctx, lines: Table, order: nat, orderId: Value, p: Value)
    requires UpsertLine(ctx, lines, order, orderId, p).error.None? && "ozon_order_id" in ctx.lineSchema
    requires p.VObj? ==> "order" !in p.fields && "product" !in p.fields
    ensures p.VObj? && "sku" in Tagged(p, orderId) && "offer_id" in Tagged(p, orderId)
    ensures var t := UpsertLine(ctx, lines, order, orderId, p).store;
      exists id :: id in t.rows && IsLine(t.rows[id], order, ProductOf(ctx, Tagged(p, orderId)))
        && LineChanged(ctx.env, Get(t.rows[id], "ozon_order_id"), orderId) == Ok(false)
  {
    UpsertedLineAgrees(ctx, lines, order, orderId, p);
  }

  /** An existing line that already agrees with the incoming one is not saved. */
  lemma AgreeingLineNotSaved(ctx: Ctx, lines: Table, order: nat, orderId: Value, p: Value, id: nat)
    requires p.VObj? && "sku" in Tagged(p, orderId) && "offer_id" in Tagged(p, orderId)
    requires LineIds(lines.rows, lines.nextId, order, ProductOf(ctx, Tagged(p, orderId))) == [id]
    requires forall a :: a in Tagged(p, orderId) && a in ctx.lineSchema ==>
      LineChanged(ctx.env, Get(lines.rows[id], a), Tagged(p, orderId)[a]) == Ok(false)
    ensures UpsertLine(ctx, lines, order, orderId, p) == Committed(lines, None)
  {
    var q := Tagged(p, orderId);
    assert id in LineIds(lines.rows, lines.nextId, order, ProductOf(ctx, q));
    assert LineChanges(ctx.env, lines.rows[id], q, ctx.lineSchema) == {};
  }

  /** Lines of other orders: what one order's upserts and delete must not touch. */
  predicate KeepsOthers(before: Table, after: Table, order: nat)
  {
    forall id :: id in before.rows && Get(before.rows[id], "order") != VRef(order) ==>
      id in after.rows && after.rows[id] == before.rows[id]
  }

  /** Upserting a line, whether or not a field rule then raises, touches no line of
      another order. */
  lemma UpsertLineKeepsOthers(ctx: Ctx, lines: Table, order: nat, orderId: Value, p: Value)
    requires ValidTable(lines)
    ensures ValidTable(UpsertLine(ctx, lines, order, orderId, p).store)
    ensures KeepsOthers(lines, UpsertLine(ctx, lines, order, orderId, p).store, order)
  {
    if UpsertLine(ctx, lines, order, orderId, p).error.None? {
      SavedLineKeepsOthers(ctx, lines, order, orderId, p);
    } else {
      FailedLineKeepsOthers(ctx, lines, order, orderId, p);
    }
  }

  lemma SavedLineKeepsOthers(ctx: Ctx, lines: Table, order: nat, orderId: Value, p: Value)
    requires ValidTable(lines) && UpsertLine(ctx, lines, order, orderId, p).error.None?
    ensures ValidTable(UpsertLine(ctx, lines, order, orderId, p).store)
    ensures KeepsOthers(lines, UpsertLine(ctx, lines, order, orderId, p).store, order)
  {
    UpsertLineUnfold(ctx, lines, order, orderId, p);
    var q := Tagged(p, orderId);
    var (t, id) := GetOrCreate(lines, order, ProductOf(ctx, q)).value;
    assert ValidTable(t);
    assert id in lines.rows ==> t == lines;
    KeepsOthersOneLine(lines, t, id, order, SavedLine(ctx.env, t.rows[id], q, ctx.lineSchema));
  }

  /** A line that fails leaves at most the line get_or_create made. */
  lemma FailedLineKeepsOthers(ctx: Ctx, lines: Table, order: nat, orderId: Value, p: Value)
    requires ValidTable(lines) && UpsertLine(ctx, lines, order, orderId, p).error.Some?
    ensures ValidTable(UpsertLine(ctx, lines, order, orderId, p).store)
    ensures KeepsOthers(lines, UpsertLine(ctx, lines, order, orderId, p).store, order)
  {
    FailedLineStore(ctx, lines, order, orderId, p);
    if p.VObj? && "sku" in Tagged(p, orderId) && "offer_id" in Tagged(p, orderId) {
      GetOrCreateKeepsOthers(lines, order, ProductOf(ctx, Tagged(p, orderId)));
    }
  }

  lemma FailedLineStore(ctx: Ctx, lines: Table, order: nat, orderId: Value, p: Value)
    requires UpsertLine(ctx, lines, order, orderId, p).error.Some?
    ensures var s := UpsertLine(ctx, lines, order, orderId, p).store;
      || s == lines
      || (&& p.VObj? && "sku" in Tagged(p, orderId) && "offer_id" in Tagged(p, orderId)
          && var g := GetOrCreate(lines, order, ProductOf(ctx, Tagged(p, orderId)));
          g.Ok? && s == g.value.0)
  {
  }

  /** get_or_create adds at most one line, of the given order. */
  lemma GetOrCreateKeepsOthers(lines: Table, order: nat, product: Value)
    requires ValidTable(lines)
    ensures var g := GetOrCreate(lines, order, product);
      g.Ok? ==> ValidTable(g.value.0) && KeepsOthers(lines, g.value.0, order)
  {
  }

  /** Replacing one line of the order keeps every line of the other orders. */
  lemma KeepsOthersOneLine(lines: Table, t: Table, id: nat, order: nat, row: Record)
    requires t.rows.Keys == lines.rows.Keys + {id} && id in t.rows && Get(t.rows[id], "order") == VRef(order)
    requires forall j :: j in lines.rows && j != id ==> t.rows[j] == lines.rows[j]
    requires id in lines.rows ==> t.rows[id] == lines.rows[id]
    requires ValidTable(t)
    ensures ValidTable(Table(t.rows[id := row], t.nextId))
    ensures KeepsOthers(lines, Table(t.rows[id := row], t.nextId), order)
  {
  }

  /** The lines of one order, up to the first that fails if one does, touch no line of
      another order. */
  lemma {:induction false} UpsertLinesKeepOthers(ctx: Ctx, lines: Table, order: nat, orderId: Value, ps: seq<Value>)
    requires ValidTable(lines)
    ensures ValidTable(UpsertLines(ctx, lines, order, orderId, ps).store)
    ensures KeepsOthers(lines, UpsertLines(ctx, lines, order, orderId, ps).store, order)
    decreases |ps|
  {
    if |ps| > 0 {
      UpsertLineKeepsOthers(ctx, lines, order, orderId, ps[0]);
      var u := UpsertLine(ctx, lines, order, orderId, ps[0]);
      if u.error.None? {
        UpsertLinesKeepOthers(ctx, u.store, order, orderId, ps[1..]);
      }
    }
  }

  /** After one order is mirrored, each of its stored lines has a sku among the incoming
      lines' skus, and the lines of every other order are as they were. */
  lemma MirrorOrderShape(ctx: Ctx, existing: map<Key, nat>, lines: Table, o: Record)
    requires ValidTable(lines) && MirrorOrder(ctx, existing, lines, o).error.None?
    ensures KeyOf(ctx.env, o, OrderKeys) in existing && "products" in o && ItemsOf(o["products"]).Ok?
    ensures var order := existing[KeyOf(ctx.env, o, OrderKeys)];
      var t := MirrorOrder(ctx, existing, lines, o).store;
      && ValidTable(t)
      && KeepsOthers(lines, t, order)
      && forall id :: id in t.rows && Get(t.rows[id], "order") == VRef(order) ==>
           Get(t.rows[id], "sku") in SkusOf(ItemsOf(o["products"]).value)
  {
    var order := existing[KeyOf(ctx.env, o, OrderKeys)];
    var ps := ItemsOf(o["products"]).value;
    UpsertLinesKeepOthers(ctx, lines, order, Get(o, "order_id"), ps);
  }

  /** A product with no matching SKU_Offer row is stored as a line without a product. */
  lemma LostProductLine(cat: Catalog, shop: nat, kind: Kind, sku: Value, offerId: Value)
    requires forall s :: s in cat.offers ==> s.sku != sku && (s.offerId != offerId || s.kind != KindName(kind))
    ensures GetProduct(cat, shop, kind, sku, offerId) == None
  {
  }

  /** One step of the search: the head offer if it matches, otherwise the rest. */
  lemma FirstMatchUnfold(cat: Catalog, offers: seq<SkuOffer>, shop: nat, kind: Kind, sku: Value, offerId: Value)
    requires |offers| > 0
    ensures FirstMatch(cat, offers, shop, kind, sku, offerId)
      == if OfferMatches(cat, offers[0], shop, kind, sku, offerId) then Some(offers[0].product)
         else FirstMatch(cat, offers[1..], shop, kind, sku, offerId)
  {
  }

  /** An offer that does not match may sit anywhere in the table without changing the pick. */
  lemma {:induction false} FirstMatchSkips(cat: Catalog, offers: seq<SkuOffer>, o: SkuOffer, i: nat,
                                           shop: nat, kind: Kind, sku: Value, offerId: Value)
    requires i <= |offers| && !OfferMatches(cat, o, shop, kind, sku, offerId)
    ensures FirstMatch(cat, offers[..i] + [o] + offers[i..], shop, kind, sku, offerId)
      == FirstMatch(cat, offers, shop, kind, sku, offerId)
    decreases i
  {
    var s := offers[..i] + [o] + offers[i..];
    FirstMatchUnfold(cat, s, shop, kind, sku, offerId);
    if i == 0 {
      assert s[0] == o && s[1..] == offers;
    } else {
      FirstMatchUnfold(cat, offers, shop, kind, sku, offerId);
      assert s[0] == offers[0];
      assert s[1..] == offers[1..][..i - 1] + [o] + offers[1..][i - 1..];
      FirstMatchSkips(cat, offers[1..], o, i - 1, shop, kind, sku, offerId);
    }
  }

  /** An offer of another shop is never used, whatever it matches: get_product's search over
      the SKU_Offer table with such an offer added anywhere finds what it found without it. */
  lemma OtherShopIgnored(cat: Catalog, o: SkuOffer, i: nat, shop: nat, kind: Kind, sku: Value, offerId: Value)
    requires i <= |cat.offers|
    requires o.product !in cat.productShop || cat.productShop[o.product] != shop
    ensures FirstMatch(cat, cat.offers[..i] + [o] + cat.offers[i..], shop, kind, sku, offerId)
      == GetProduct(cat, shop, kind, sku, offerId)
  {
    assert !OfferMatches(cat, o, shop, kind, sku, offerId);
    FirstMatchSkips(cat, cat.offers, o, i, shop, kind, sku, offerId);
    assert GetProduct(cat, shop, kind, sku, offerId) == FirstMatch(cat, cat.offers, shop, kind, sku, offerId);
  }
}
