/** The update_products task of backend/mp/tasks/update_products.py: the product list, the
    chunked info, price and attribute calls merged per product, the field-by-field update,
    the hand-over of products from another shop, and the removal of products no longer listed. */
module Products {
  import opened Wrappers
  import opened Values
  import opened Accounts
  import Chunks

  const ProductChunkSize: nat := 1000

  /** One response of api.product, api.product_price or api.product_attribute: product id to fields. */
  type Lookup = map<Value, Record>

  type ProductFetch = seq<Value> -> Result<Lookup>

  /** The marketplace calls the sync task makes. */
  datatype ProductApi = ProductApi(products: Result<seq<Record>>, info: ProductFetch, price: ProductFetch,
                                   attribute: ProductFetch)

  /** The Product table by id, and the shops. */
  datatype Catalog = Catalog(products: map<Value, Record>, shops: map<nat, Shop>)

  // ---------------------------------------------------------------- fetching

  /** [p["product_id"] for p in products] */
  function ProductIds(ps: seq<Record>): (r: Result<seq<Value>>)
    ensures r.Ok? <==> forall i :: 0 <= i < |ps| ==> "product_id" in ps[i]
    ensures r.Ok? ==> |r.value| == |ps| && forall i :: 0 <= i < |ps| ==> r.value[i] == ps[i]["product_id"]
    ensures r.Err? ==> r.error == KeyError
  {
    if |ps| == 0 then Ok([])
    else if "product_id" !in ps[0] then Err(KeyError)
    else
      var rest :- ProductIds(ps[1..]);
      Ok([ps[0]["product_id"]] + rest)
  }

  /** [fetch(ids_chunk) for ids_chunk in chunks], the first failing call raising. */
  function FetchAll(fetch: ProductFetch, cs: seq<seq<Value>>): (r: Result<seq<Lookup>>)
    ensures r.Ok? ==> |r.value| == |cs| && forall i :: 0 <= i < |cs| ==> fetch(cs[i]) == Ok(r.value[i])
    ensures r.Err? ==> exists i :: 0 <= i < |cs| && fetch(cs[i]) == Err(r.error)
  {
    if |cs| == 0 then Ok([])
    else
      var m :- fetch(cs[0]);
      var rest :- FetchAll(fetch, cs[1..]);
      Ok([m] + rest)
  }

  /** ChainMap(*maps)[k]: the first map holding k answers; KeyError when none does. */
  function ChainGet(ms: seq<Lookup>, k: Value): (r: Result<Record>)
    ensures r.Ok? <==> exists i :: 0 <= i < |ms| && k in ms[i]
    ensures r.Ok? ==> exists i :: (0 <= i < |ms| && k in ms[i] && r.value == ms[i][k]
                             && forall j :: 0 <= j < i ==> k !in ms[j])
    ensures r.Err? ==> r.error == KeyError
  {
    if |ms| == 0 then Err(KeyError)
    else if k in ms[0] then Ok(ms[0][k])
    else
      var r := ChainGet(ms[1..], k);
      assert forall i :: 1 <= i < |ms| ==> ms[1..][i - 1] == ms[i];
      r
  }

  /** The three lookups of one run. */
  datatype Sources = Sources(info: seq<Lookup>, price: seq<Lookup>, attribute: seq<Lookup>)

  /** {**price[pid], **info[pid], **attribute[pid], "state": p["state"]} restricted to the
      model's fields; the lookups are made in that order. */
  function Merged(src: Sources, p: Record, fields: set<string>): (r: Result<Record>)
    ensures "product_id" !in p ==> r == Err(KeyError)
    ensures r.Ok? ==> r.value.Keys <= fields
    ensures r.Ok? ==> "state" in p && ("state" in fields <==> "state" in r.value)
    ensures r.Ok? && "state" in r.value ==> r.value["state"] == p["state"]
  {
    if "product_id" !in p then Err(KeyError)
    else
    var pr :- ChainGet(src.price, p["product_id"]);
    var inf :- ChainGet(src.info, p["product_id"]);
    var at :- ChainGet(src.attribute, p["product_id"]);
    if "state" !in p then Err(KeyError)
    else Ok(Restrict(pr + inf + at + map["state" := p["state"]], fields))
  }

  // ---------------------------------------------------------------- one field

  predicate StampField(attr: string)
  {
    |attr| >= 3 && attr[|attr| - 3..] == "_at"
  }

  /** f"{v:.5f}" rendered: numbers format, a string raises ValueError, anything else TypeError. */
  function Fixed5(v: Value): (r: Result<Rendered>)
    ensures v.VDecimal? ==> r == Ok(Render5(v.d))
    ensures v.VStr? ==> r == Err(ValueError)
  {
    match v
    case VDecimal(d) => Ok(Render5(d))
    case VInt(i) => Ok(Render5(Decimal(i, 0)))
    case VBool(b) => Ok(Render5(Decimal(if b then 1 else 0, 0)))
    case VStr(_) => Err(ValueError)
    case _ => Err(TypeError)
  }

  /** The number a Decimal column stores for a value that formats. */
  function AsStored(v: Value): Value
  {
    match v
    case VInt(i) => VDecimal(Decimal(i, 0))
    case VBool(b) => VDecimal(Decimal(if b then 1 else 0, 0))
    case _ => v
  }

  /** Whether attr changes, and the value the column then holds: a "_at" field compares the
      stored value with the parsed timestamp; a Decimal field reads None as 0 and compares
      five-place renderings; any other field compares with ==. A value written to a
      timestamp or Decimal column is held as the timestamp or number it stands for. */
  function FieldUpdate(env: Env, attr: string, stored: Value, value: Value): Result<(bool, Value)>
  {
    if StampField(attr) then
      if !value.VStr? then Err(TypeError)
      else
        match env.parseStamp(value.s)
        case None => Err(ValueError)
        case Some(t) => Ok((stored != VDateTime(t), VDateTime(t)))
    else PlainUpdate(stored, value)
  }

  /** The rule without the timestamp case, shared with the stock tables: a Decimal column
      reads None as 0 and compares five-place renderings, any other compares with ==. */
  function PlainUpdate(stored: Value, value: Value): Result<(bool, Value)>
  {
    if stored.VDecimal? then
      var v := if value == VNone then VInt(0) else value;
      var a := Render5(stored.d);
      var b :- Fixed5(v);
      Ok((a != b, AsStored(v)))
    else Ok((!PyEq(stored, value), value))
  }

  /** The three rules: a "_at" field fails unless the value parses and then changes when the
      stored value is not that timestamp; a Decimal field reads None as zero; any other
      field changes when the values differ under ==. */
  lemma FieldUpdateRules(env: Env, attr: string, stored: Value, value: Value)
    ensures var r := FieldUpdate(env, attr, stored, value);
      && (StampField(attr) ==> (r.Ok? <==> value.VStr? && env.parseStamp(value.s).Some?))
      && (StampField(attr) && r.Ok? ==>
            r.value == (stored != VDateTime(env.parseStamp(value.s).value), VDateTime(env.parseStamp(value.s).value)))
      && (!StampField(attr) && stored.VDecimal? && value == VNone ==>
            r == Ok((Render5(stored.d) != Rendered(false, 0), VDecimal(Decimal(0, 0)))))
      && (!StampField(attr) && stored.VDecimal? && value.VStr? ==> r == Err(ValueError))
      && (!StampField(attr) && !stored.VDecimal? ==> r == Ok((!PyEq(stored, value), value)))
  {
  }

  // ---------------------------------------------------------------- one product

  /** A field's verdict as a value: FieldUpdate with the conversions fixed. */
  type FieldRule = (string, Value, Value) -> Result<(bool, Value)>

  function Rule(env: Env): (rule: FieldRule)
    ensures forall a, st, v :: rule(a, st, v) == FieldUpdate(env, a, st, v)
  {
    (a: string, st: Value, v: Value) => FieldUpdate(env, a, st, v)
  }

  /** A rule settles when the value it writes compares unchanged with the same input. */
  ghost predicate Settling(rule: FieldRule)
  {
    forall a, st, v :: rule(a, st, v).Ok? ==>
      rule(a, rule(a, st, v).value.1, v).Ok? && !rule(a, rule(a, st, v).value.1, v).value.0
  }

  /** The verdict of every merged field on the product as it was before the loop. */
  function Verdicts(rule: FieldRule, obj: Record, m: Record): (vs: map<string, Result<(bool, Value)>>)
    ensures vs.Keys == m.Keys
  {
    map a | a in m :: rule(a, Get(obj, a), m[a])
  }

  /** A field that raises stops the sync task. */
  predicate FieldsFail(rule: FieldRule, obj: Record, m: Record)
  {
    exists a :: a in m && Verdicts(rule, obj, m)[a].Err?
  }

  /** The exception kinds the raising fields raise. */
  function FailKinds(rule: FieldRule, obj: Record, m: Record): (ks: set<Error>)
    ensures ks != {} <==> FieldsFail(rule, obj, m)
  {
    var vs := Verdicts(rule, obj, m);
    var ks := set a | a in m && vs[a].Err? :: vs[a].error;
    assert FieldsFail(rule, obj, m) ==> ks != {} by {
      if FieldsFail(rule, obj, m) {
        var a :| a in m && vs[a].Err?;
        assert vs[a].error in ks;
      }
    }
    ks
  }

  lemma OnlyOne(ks: set<Error>, e: Error)
    requires e in ks
    ensures forall k :: k in ks ==> k == e || |ks| > 1
  {
    forall k | k in ks && k != e
      ensures |ks| > 1
    {
      assert ks == (ks - {e}) + {e};
      assert k in ks - {e};
    }
  }

  /** Every kind is one of the declared ones. */
  lemma SomeKind(ks: set<Error>)
    requires ks != {}
    ensures KeyError in ks || TypeError in ks || ValueError in ks || ZeroDivision in ks
      || Overflow in ks || IntegrityError in ks || DoesNotExist in ks || MultipleObjects in ks
      || BadApiKey in ks || RateLimit in ks || Locked in ks || RequestError in ks
      || NotFound in ks || IsLocked in ks || Validation in ks || UnboundLocal in ks
      || CardinalityViolation in ks || ResponseError in ks
  {
    var x :| x in ks;
    match x
    case KeyError =>
    case TypeError =>
    case ValueError =>
    case ZeroDivision =>
    case Overflow =>
    case IntegrityError =>
    case DoesNotExist =>
    case MultipleObjects =>
    case BadApiKey =>
    case RateLimit =>
    case Locked =>
    case RequestError =>
    case NotFound =>
    case IsLocked =>
    case Validation =>
    case UnboundLocal =>
    case CardinalityViolation =>
    case ResponseError =>
  }

  /** The kind reported out of several: the first in declaration order. The loop raises
      the kind of the first raising field in the merged dict's order, which a map does not
      keep; when only one kind is raised the two agree. */
  function Pick(ks: set<Error>): (e: Error)
    requires ks != {}
    ensures e in ks
    ensures forall k :: k in ks ==> k == e || |ks| > 1
  {
    SomeKind(ks);
    var e :=
      if KeyError in ks then KeyError
      else if TypeError in ks then TypeError
      else if ValueError in ks then ValueError
      else if ZeroDivision in ks then ZeroDivision
      else if Overflow in ks then Overflow
      else if IntegrityError in ks then IntegrityError
      else if DoesNotExist in ks then DoesNotExist
      else if MultipleObjects in ks then MultipleObjects
      else if BadApiKey in ks then BadApiKey
      else if RateLimit in ks then RateLimit
      else if Locked in ks then Locked
      else if RequestError in ks then RequestError
      else if NotFound in ks then NotFound
      else if IsLocked in ks then IsLocked
      else if Validation in ks then Validation
      else if UnboundLocal in ks then UnboundLocal
      else if CardinalityViolation in ks then CardinalityViolation
      else ResponseError;
    OnlyOne(ks, e);
    e
  }

  function ChangedFields(rule: FieldRule, obj: Record, m: Record): set<string>
    requires !FieldsFail(rule, obj, m)
  {
    var vs := Verdicts(rule, obj, m);
    set a | a in m && vs[a].value.0
  }

  /** The loop over the merged fields: changed_fields and the product after the setattr calls. */
  function ApplyFields(rule: FieldRule, obj: Record, m: Record): (r: Result<(Record, set<string>)>)
    ensures r.Err? <==> FieldsFail(rule, obj, m)
    ensures r.Err? ==> exists a :: a in m && Verdicts(rule, obj, m)[a] == Err(r.error)
    ensures forall e :: FailKinds(rule, obj, m) == {e} ==> r == Err(e)
    ensures r.Ok? ==> r.value.1 == ChangedFields(rule, obj, m) && r.value.1 <= m.Keys
    ensures r.Ok? ==> r.value.0.Keys == obj.Keys + r.value.1
    ensures r.Ok? ==> forall a :: a in r.value.0 && a !in r.value.1 ==> r.value.0[a] == obj[a]
  {
    if FieldsFail(rule, obj, m) then Err(Pick(FailKinds(rule, obj, m)))
    else
      var vs := Verdicts(rule, obj, m);
      var changed := ChangedFields(rule, obj, m);
      Ok((map a | a in obj.Keys + changed :: if a in changed then vs[a].value.1 else obj[a], changed))
  }

  /** The product's shop before the field loop: a new product is given the shop; one held by
      another shop is handed over and that shop, if any, switched off and saved. */
  function Assign(obj: Record, created: bool, shop: nat, shops: map<nat, Shop>): (r: Result<(Record, map<nat, Shop>)>)
    ensures r.Ok? ==> r.value.0 == obj["shop" := VRef(shop)]
    ensures r.Err? <==> !created && Get(obj, "shop").VRef? && Get(obj, "shop") != VRef(shop) && Get(obj, "shop").id !in shops
    ensures r.Ok? && !created && Get(obj, "shop").VRef? && Get(obj, "shop") != VRef(shop) ==>
      r.value.1 == shops[Get(obj, "shop").id := shops[Get(obj, "shop").id].(isActive := false)]
    ensures r.Ok? && !(!created && Get(obj, "shop").VRef? && Get(obj, "shop") != VRef(shop)) ==> r.value.1 == shops
  {
    var owner := Get(obj, "shop");
    if created || owner == VRef(shop) then Ok((obj["shop" := VRef(shop)], shops))
    else if owner.VRef? then
      if owner.id !in shops then Err(DoesNotExist)
      else Ok((obj["shop" := VRef(shop)], shops[owner.id := shops[owner.id].(isActive := false)]))
    else Ok((obj["shop" := VRef(shop)], shops))
  }

  /** The state the product loop carries: the catalog and total. */
  datatype Progress = Progress(catalog: Catalog, total: nat)

  /** A product fetched or created, and handed to the shop. */
  datatype Prepared = Prepared(id: Value, rows: map<Value, Record>, obj: Record, shops: map<nat, Shop>)

  /** get_or_create by id (a new row holds only its id until it is saved), then the shop. */
  function Prepare(shop: nat, g: Progress, p: Record): (r: Result<Prepared>)
    ensures r.Ok? ==> "id" in p && r.value.id == p["id"] && r.value.id in r.value.rows
    ensures r.Ok? && p["id"] !in g.catalog.products ==> r.value.rows == g.catalog.products[p["id"] := map["id" := p["id"]]]
    ensures r.Ok? && p["id"] in g.catalog.products ==> r.value.rows == g.catalog.products
    ensures r.Ok? ==> r.value.obj == r.value.rows[r.value.id]["shop" := VRef(shop)]
  {
    if "id" !in p then Err(KeyError)
    else
      var id := p["id"];
      var created := id !in g.catalog.products;
      var obj := if created then map["id" := id] else g.catalog.products[id];
      var (obj', shops) :- Assign(obj, created, shop, g.catalog.shops);
      Ok(Prepared(id, g.catalog.products[id := obj], obj', shops))
  }

  /** The rest of the iteration: the fields, and a save when some field changed. */
  function Finish(pre: Prepared, applied: (Record, set<string>), total: nat): Progress
  {
    if applied.1 != {} then Progress(Catalog(pre.rows[pre.id := applied.0], pre.shops), total + 1)
    else Progress(Catalog(pre.rows, pre.shops), total)
  }

  /** One iteration of `for p in products`. get_or_create and the other shop's save commit
      before the fields are merged and compared, so an exception there keeps both. */
  function ProductStep(env: Env, fields: set<string>, shop: nat, src: Sources, g: Progress, p: Record): Committed<Progress>
  {
    var pre := Prepare(shop, g, p);
    if pre.Err? then Committed(g, Some(pre.error))
    else
      var kept := Progress(Catalog(pre.value.rows, pre.value.shops), g.total);
      var m := Merged(src, p, fields);
      if m.Err? then Committed(kept, Some(m.error))
      else
        var applied := ApplyFields(Rule(env), pre.value.obj, m.value);
        if applied.Err? then Committed(kept, Some(applied.error))
        else Committed(Finish(pre.value, applied.value, g.total), None)
  }

  /** The products in turn, up to the first that raises. */
  function Steps(env: Env, fields: set<string>, shop: nat, src: Sources, g: Progress, ps: seq<Record>): Committed<Progress>
    decreases |ps|
  {
    if |ps| == 0 then Committed(g, None)
    else
      var s := ProductStep(env, fields, shop, src, g, ps[0]);
      if s.error.Some? then s
      else Steps(env, fields, shop, src, s.store, ps[1..])
  }

  /** Product.objects.filter(shop=shop).exclude(id__in=ids) */
  function ToDelete(rows: map<Value, Record>, shop: nat, ids: set<Value>): (d: set<Value>)
    ensures forall id :: id in d <==> id in rows && Get(rows[id], "shop") == VRef(shop) && id !in ids
  {
    set id | id in rows && Get(rows[id], "shop") == VRef(shop) && id !in ids
  }

  /** The products after the run, the shops, total and the number deleted; a run that
      raises deletes nothing and has counted the products saved before. */
  datatype ProductReport = ProductReport(catalog: Catalog, total: nat, deleted: nat)

  function ListedIds(ps: seq<Record>): set<Value>
  {
    set p | p in ps && "id" in p :: p["id"]
  }

  /** to_delete.delete() and the count the message reports, as written:
      len(to_delete) after delete(), which has emptied the queryset's cache, runs the
      filter again over the rows that are left. */
  function DeleteUnlistedAsWritten(c: Catalog, shop: nat, listed: set<Value>): (Catalog, nat)
  {
    var gone := ToDelete(c.products, shop, listed);
    var rows := c.products - gone;
    (Catalog(rows, c.shops), |ToDelete(rows, shop, listed)|)
  }

  /** to_delete.delete() and the count of the rows it deleted, as the message means it. */
  function DeleteUnlisted(c: Catalog, shop: nat, listed: set<Value>): (Catalog, nat)
  {
    var gone := ToDelete(c.products, shop, listed);
    (Catalog(c.products - gone, c.shops), |gone|)
  }

  /** The product list's ids, chunked, and the info, price and attribute lookups of every
      chunk. */
  function Fetched(api: ProductApi, ps: seq<Record>): Result<Sources>
  {
    var ids :- ProductIds(ps);
    var cs := Chunks.Chunks(ids, ProductChunkSize);
    var info :- FetchAll(api.info, cs);
    var price :- FetchAll(api.price, cs);
    var attribute :- FetchAll(api.attribute, cs);
    Ok(Sources(info, price, attribute))
  }

  /** The body of update_products once the key is known; no exception is caught, and the
      catalog is what the run committed before it raised. */
  function RefreshProducts(env: Env, fields: set<string>, shop: nat, api: ProductApi, c: Catalog): Committed<ProductReport>
  {
    if api.products.Err? then Committed(ProductReport(c, 0, 0), Some(api.products.error))
    else
      var ps := api.products.value;
      var src := Fetched(api, ps);
      if src.Err? then Committed(ProductReport(c, 0, 0), Some(src.error))
      else
        var g := Steps(env, fields, shop, src.value, Progress(c, 0), ps);
        if g.error.Some? then Committed(ProductReport(g.store.catalog, g.store.total, 0), g.error)
        else
          var (c', deleted) := DeleteUnlisted(g.store.catalog, shop, ListedIds(ps));
          Committed(ProductReport(c', g.store.total, deleted), None)
  }

  /** How update_products ended: without a key id, with the message of its report, or with
      an exception from get_key or the run, which escapes. */
  datatype ProductsEnd = NoKey | Reported(total: nat, deleted: nat) | Escaped(e: Error)

  /** What update_products leaves: the catalog, and how it ended. */
  datatype ProductsTask = ProductsTask(catalog: Catalog, end: ProductsEnd)

  function UpdateProducts(keyId: Option<nat>, keys: seq<ApiKey>, now: int, env: Env, fields: set<string>,
                          api: ProductApi, c: Catalog): (r: ProductsTask)
    ensures r.end.NoKey? <==> keyId.None?
    ensures keyId.None? || GetKey(keys, c.shops, keyId, now).Err? ==> r.catalog == c
    ensures keyId.Some? && GetKey(keys, c.shops, keyId, now).Err? ==> r.end == Escaped(GetKey(keys, c.shops, keyId, now).error)
    ensures keyId.Some? && GetKey(keys, c.shops, keyId, now).Ok? ==>
      var run := RefreshProducts(env, fields, GetKey(keys, c.shops, keyId, now).value.shop.value, api, c);
      && r.catalog == run.store.catalog
      && (run.error.None? ==> r.end == Reported(run.store.total, run.store.deleted))
      && (run.error.Some? ==> r.end == Escaped(run.error.value))
  {
    if keyId.None? then ProductsTask(c, NoKey)
    else
      var key := GetKey(keys, c.shops, keyId, now);
      if key.Err? then ProductsTask(c, Escaped(key.error))
      else
        var run := RefreshProducts(env, fields, key.value.shop.value, api, c);
        if run.error.None? then ProductsTask(run.store.catalog, Reported(run.store.total, run.store.deleted))
        else ProductsTask(run.store.catalog, Escaped(run.error.value))
  }

  // ---------------------------------------------------------------- the loops

  function Prepend<T>(got: seq<T>, r: Result<seq<T>>): Result<seq<T>>
  {
    if r.Ok? then Ok(got + r.value) else r
  }

  /** The list comprehension over chunks of ids. */
  method FetchAllM(fetch: ProductFetch, cs: seq<seq<Value>>) returns (res: Result<seq<Lookup>>)
    ensures res == FetchAll(fetch, cs)
  {
    var got: seq<Lookup> := [];
    PrependNothing(FetchAll(fetch, cs));
    for i := 0 to |cs|
      invariant FetchAll(fetch, cs) == Prepend(got, FetchAll(fetch, cs[i..]))
    {
      var m := fetch(cs[i]);
      FetchAllStep(fetch, cs, i, got);
      if m.Err? {
        return Err(m.error);
      }
      got := got + [m.value];
    }
    assert cs[|cs|..] == [];
    assert got + [] == got;
    return Ok(got);
  }

  lemma PrependNothing<T>(r: Result<seq<T>>)
    ensures Prepend([], r) == r
  {
    if r.Ok? {
      assert [] + r.value == r.value;
    }
  }

  /** One chunk further: its lookup joins the lookups so far, or its error ends the run. */
  lemma FetchAllStep(fetch: ProductFetch, cs: seq<seq<Value>>, i: nat, got: seq<Lookup>)
    requires i < |cs|
    ensures fetch(cs[i]).Err? ==> Prepend(got, FetchAll(fetch, cs[i..])) == Err(fetch(cs[i]).error)
    ensures fetch(cs[i]).Ok? ==>
      Prepend(got, FetchAll(fetch, cs[i..])) == Prepend(got + [fetch(cs[i]).value], FetchAll(fetch, cs[i + 1..]))
  {
    assert cs[i..][0] == cs[i] && cs[i..][1..] == cs[i + 1..];
    var rest := FetchAll(fetch, cs[i + 1..]);
    if fetch(cs[i]).Ok? && rest.Ok? {
      var m := fetch(cs[i]).value;
      assert got + ([m] + rest.value) == (got + [m]) + rest.value;
    }
  }

  /** for attr, value in fields.items(): ... setattr(product, attr, value) */
  method ApplyFieldsM(rule: FieldRule, obj: Record, m: Record) returns (res: Result<(Record, set<string>)>)
    ensures res == ApplyFields(rule, obj, m)
  {
    var vs := Verdicts(rule, obj, m);
    var cur := obj;
    var changed: set<string> := {};
    var todo := m.Keys;
    while todo != {}
      invariant todo <= m.Keys && changed <= m.Keys - todo
      invariant forall a :: a in m.Keys - todo ==> vs[a].Ok?
      invariant forall a :: a in changed <==> a in m.Keys - todo && vs[a].value.0
      invariant cur.Keys == obj.Keys + changed
      invariant forall a :: a in cur ==> cur[a] == if a in changed then vs[a].value.1 else obj[a]
      decreases todo
    {
      var a :| a in todo;
      assert Get(cur, a) == Get(obj, a);
      var u := rule(a, Get(cur, a), m[a]);
      assert u == vs[a];
      if u.Err? {
        assert FieldsFail(rule, obj, m);
        return Err(Pick(FailKinds(rule, obj, m)));
      }
      if u.value.0 {
        changed := changed + {a};
        cur := cur[a := u.value.1];
      }
      todo := todo - {a};
    }
    ApplyFieldsDone(rule, obj, m, cur, changed);
    return Ok((cur, changed));
  }

  /** A loop that went through every field without a raise ends where ApplyFields says. */
  lemma ApplyFieldsDone(rule: FieldRule, obj: Record, m: Record, cur: Record, changed: set<string>)
    requires forall a :: a in m ==> Verdicts(rule, obj, m)[a].Ok?
    requires forall a :: a in changed <==> a in m && Verdicts(rule, obj, m)[a].value.0
    requires cur.Keys == obj.Keys + changed
    requires forall a :: a in cur ==> cur[a] == if a in changed then Verdicts(rule, obj, m)[a].value.1 else obj[a]
    ensures ApplyFields(rule, obj, m) == Ok((cur, changed))
  {
    assert !FieldsFail(rule, obj, m);
    assert ChangedFields(rule, obj, m) == changed;
    assert ApplyFields(rule, obj, m).value.0 == cur;
  }

  method ProductStepM(env: Env, fields: set<string>, shop: nat, src: Sources, g: Progress, p: Record) returns (res: Committed<Progress>)
    ensures res == ProductStep(env, fields, shop, src, g, p)
  {
    var pre := Prepare(shop, g, p);
    if pre.Err? {
      return Committed(g, Some(pre.error));
    }
    var kept := Progress(Catalog(pre.value.rows, pre.value.shops), g.total);
    var m := Merged(src, p, fields);
    if m.Err? {
      return Committed(kept, Some(m.error));
    }
    var applied := ApplyFieldsM(Rule(env), pre.value.obj, m.value);
    if applied.Err? {
      return Committed(kept, Some(applied.error));
    }
    return Committed(Finish(pre.value, applied.value, g.total), None);
  }

  /** for p in products: ... one product after the other until one raises. */
  method StepsM(env: Env, fields: set<string>, shop: nat, src: Sources, g0: Progress, ps: seq<Record>)
    returns (res: Committed<Progress>)
    ensures res == Steps(env, fields, shop, src, g0, ps)
  {
    var g := g0;
    for i := 0 to |ps|
      invariant Steps(env, fields, shop, src, g0, ps) == Steps(env, fields, shop, src, g, ps[i..])
    {
      assert ps[i..][0] == ps[i] && ps[i..][1..] == ps[i + 1..];
      var next := ProductStepM(env, fields, shop, src, g, ps[i]);
      if next.error.Some? {
        return next;
      }
      g := next.store;
    }
    assert ps[|ps|..] == [];
    return Committed(g, None);
  }

  /** The body of update_products after get_key: the fetches, the product loop, the delete. */
  method RefreshProductsM(env: Env, fields: set<string>, shop: nat, api: ProductApi, c: Catalog)
    returns (res: Committed<ProductReport>)
    ensures res == RefreshProducts(env, fields, shop, api, c)
  {
    if api.products.Err? {
      return Committed(ProductReport(c, 0, 0), Some(api.products.error));
    }
    var ps := api.products.value;
    var ids := ProductIds(ps);
    if ids.Err? {
      return Committed(ProductReport(c, 0, 0), Some(ids.error));
    }
    var cs := Chunks.Chunks(ids.value, ProductChunkSize);
    var info := FetchAllM(api.info, cs);
    if info.Err? {
      return Committed(ProductReport(c, 0, 0), Some(info.error));
    }
    var price := FetchAllM(api.price, cs);
    if price.Err? {
      return Committed(ProductReport(c, 0, 0), Some(price.error));
    }
    var attribute := FetchAllM(api.attribute, cs);
    if attribute.Err? {
      return Committed(ProductReport(c, 0, 0), Some(attribute.error));
    }
    var g := StepsM(env, fields, shop, Sources(info.value, price.value, attribute.value), Progress(c, 0), ps);
    if g.error.Some? {
      return Committed(ProductReport(g.store.catalog, g.store.total, 0), g.error);
    }
    var gone := ToDelete(g.store.catalog.products, shop, ListedIds(ps));
    return Committed(ProductReport(Catalog(g.store.catalog.products - gone, g.store.catalog.shops), g.store.total, |gone|), None);
  }

  method UpdateProductsM(keyId: Option<nat>, keys: seq<ApiKey>, now: int, env: Env, fields: set<string>,
                         api: ProductApi, c: Catalog) returns (res: ProductsTask)
    ensures res == UpdateProducts(keyId, keys, now, env, fields, api, c)
  {
    if keyId.None? {
      return ProductsTask(c, NoKey);
    }
    var key := GetKey(keys, c.shops, keyId, now);
    if key.Err? {
      return ProductsTask(c, Escaped(key.error));
    }
    var run := RefreshProductsM(env, fields, key.value.shop.value, api, c);
    if run.error.Some? {
      return ProductsTask(run.store.catalog, Escaped(run.error.value));
    }
    return ProductsTask(run.store.catalog, Reported(run.store.total, run.store.deleted));
  }
}
