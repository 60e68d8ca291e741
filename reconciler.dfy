/** bulk_insert_update of backend/mp/helpers: the generic batch reconciler and its change rules. */
module Reconciler {
  import opened Wrappers
  import opened Values

  /** The tuple of str(key field) values that identifies a row. */
  type Key = seq<string>

  /** A table: rows by primary key.  A query without ORDER BY is read in key order;
      bulk_create hands out the keys from nextId on. */
  datatype Table = Table(rows: map<nat, Record>, nextId: nat)

  predicate ValidTable(t: Table)
  {
    forall id :: id in t.rows ==> id < t.nextId
  }

  /** changed_or_skip_func(changed, obj, attr, value) -> (changed, skip); it may raise. */
  type Hook = (bool, Record, string, Value) -> Result<(bool, bool)>

  /** The arguments of one bulk_insert_update call; schema is the model's field names. */
  datatype Call = Call(
    env: Env,
    data: seq<Record>,
    keyFields: seq<string>,
    schema: set<string>,
    hook: Option<Hook>,
    shop: Option<nat>)

  /** What the call reports: received, found, updated, changed columns, created. */
  datatype Summary = Summary(received: nat, found: nat, updated: nat, changedFields: set<string>, created: nat)

  datatype Outcome = Outcome(table: Table, summary: Summary)

  // ---------------------------------------------------------------- change rules

  /** The type-aware comparison of a stored value with an incoming one: dates and ints
      by str, datetimes against fromisoformat(value), decimals at five places of
      float(value), anything else by !=. */
  function BaseChanged(env: Env, stored: Value, incoming: Value): Result<bool>
  {
    match stored
    case VInt(_) => Ok(env.show(stored) != env.show(incoming))
    case VDate(_) => Ok(env.show(stored) != env.show(incoming))
    case VDateTime(t) =>
      if !incoming.VStr? then Err(TypeError)
      else (match env.parseIso(incoming.s)
            case Some(u) => Ok(t != u)
            case None => Err(ValueError))
    case VDecimal(d) =>
      var x :- AsNumber(env, incoming);
      Ok(Render5(d) != Render5(x))
    case _ => Ok(!PyEq(stored, incoming))
  }

  /** The (changed, skip) verdict for one field: the rule, then the hook if there is one. */
  function FieldVerdict(env: Env, hook: Option<Hook>, obj: Record, attr: string, value: Value): Result<(bool, bool)>
  {
    var changed :- BaseChanged(env, Get(obj, attr), value);
    if hook.Some? then hook.value(changed, obj, attr, value) else Ok((changed, false))
  }

  /** The incoming fields that are also model fields. */
  function Attrs(inc: Record, schema: set<string>): set<string>
  {
    inc.Keys * schema
  }

  predicate RowFails(env: Env, hook: Option<Hook>, obj: Record, inc: Record, schema: set<string>)
  {
    exists a :: a in Attrs(inc, schema) && FieldVerdict(env, hook, obj, a, inc[a]).Err?
  }

  function ChangedAttrs(env: Env, hook: Option<Hook>, obj: Record, inc: Record, schema: set<string>): set<string>
    requires !RowFails(env, hook, obj, inc, schema)
  {
    set a | a in Attrs(inc, schema) && FieldVerdict(env, hook, obj, a, inc[a]).value.0
  }

  predicate RowSkipped(env: Env, hook: Option<Hook>, obj: Record, inc: Record, schema: set<string>)
    requires !RowFails(env, hook, obj, inc, schema)
  {
    exists a :: a in Attrs(inc, schema) && FieldVerdict(env, hook, obj, a, inc[a]).value.1
  }

  /** A row is written when some field changed and no field asked to skip it. */
  predicate RowWritten(env: Env, hook: Option<Hook>, obj: Record, inc: Record, schema: set<string>)
    requires !RowFails(env, hook, obj, inc, schema)
  {
    ChangedAttrs(env, hook, obj, inc, schema) != {} && !RowSkipped(env, hook, obj, inc, schema)
  }

  /** The stored row after setattr of the changed fields. */
  function Patch(obj: Record, inc: Record, changed: set<string>): Record
  {
    obj + map a | a in changed && a in inc :: inc[a]
  }

  // ---------------------------------------------------------------- keys and lookups

  function KeyOf(env: Env, r: Record, keyFields: seq<string>): (key: Key)
    ensures |key| == |keyFields|
  {
    seq(|keyFields|, i requires 0 <= i < |keyFields| => env.show(Get(r, keyFields[i])))
  }

  /** Every incoming row has every key field (r[k] raises otherwise). */
  predicate HasKeyFields(c: Call)
  {
    forall r, k :: r in c.data && k in c.keyFields ==> k in r
  }

  /** id_rows: incoming rows by key, a later row replacing an earlier one. */
  function IdRowsOf(env: Env, data: seq<Record>, keyFields: seq<string>): map<Key, Record>
  {
    if |data| == 0 then map[]
    else
      var last := data[|data| - 1];
      IdRowsOf(env, data[..|data| - 1], keyFields)[KeyOf(env, last, keyFields) := last]
  }

  /** id_rows has one entry per distinct key of the batch, holding a row with that key. */
  lemma {:induction false} IdRowsOfKeys(env: Env, data: seq<Record>, keyFields: seq<string>)
    ensures IdRowsOf(env, data, keyFields).Keys == set r | r in data :: KeyOf(env, r, keyFields)
    ensures forall key :: key in IdRowsOf(env, data, keyFields) ==>
      IdRowsOf(env, data, keyFields)[key] in data && KeyOf(env, IdRowsOf(env, data, keyFields)[key], keyFields) == key
  {
    if |data| > 0 {
      var last := data[|data| - 1];
      assert data == data[..|data| - 1] + [last];
      IdRowsOfKeys(env, data[..|data| - 1], keyFields);
    }
  }

  function IdRows(c: Call): map<Key, Record>
  {
    IdRowsOf(c.env, c.data, c.keyFields)
  }

  /** The set of str values an incoming batch holds for field k (the k__in filter). */
  function ValuesOf(env: Env, data: seq<Record>, k: string): set<string>
  {
    set r | r in data :: env.show(Get(r, k))
  }

  /** filter_existing: every key field's value occurs in the batch, and the shop matches. */
  predicate InScope(c: Call, row: Record)
  {
    && (forall k :: k in c.keyFields ==> c.env.show(Get(row, k)) in ValuesOf(c.env, c.data, k))
    && (c.shop.Some? ==> Get(row, "shop") == VRef(c.shop.value))
  }

  /** existing_objs over the rows with keys below n, a later row replacing an earlier one. */
  function ExistingUpTo(c: Call, t: Table, n: nat): map<Key, nat>
  {
    if n == 0 then map[]
    else
      var m := ExistingUpTo(c, t, n - 1);
      if n - 1 in t.rows && InScope(c, t.rows[n - 1])
      then m[KeyOf(c.env, t.rows[n - 1], c.keyFields) := n - 1]
      else m
  }

  function Existing(c: Call, t: Table): map<Key, nat>
  {
    ExistingUpTo(c, t, t.nextId)
  }

  /** existing_objs maps each key to an in-scope row with that key, and every in-scope row
      below n has its key there, with that row or a later one. */
  lemma {:induction false} ExistingUpToSound(c: Call, t: Table, n: nat)
    ensures forall key :: key in ExistingUpTo(c, t, n) ==>
      var id := ExistingUpTo(c, t, n)[key];
      id < n && id in t.rows && InScope(c, t.rows[id]) && KeyOf(c.env, t.rows[id], c.keyFields) == key
    ensures forall id :: id < n && id in t.rows && InScope(c, t.rows[id]) ==>
      KeyOf(c.env, t.rows[id], c.keyFields) in ExistingUpTo(c, t, n)
      && ExistingUpTo(c, t, n)[KeyOf(c.env, t.rows[id], c.keyFields)] >= id
  {
    if n > 0 {
      ExistingUpToSound(c, t, n - 1);
    }
  }

  /** The primary keys of the rows existing_objs holds. */
  function Found(c: Call, t: Table): (ids: set<nat>)
    ensures ids <= t.rows.Keys
  {
    ExistingUpToSound(c, t, t.nextId);
    Existing(c, t).Values
  }

  /** What the loop over one found row's fields yields: the incoming row it is matched
      with, the fields that changed, and whether the hook asked to skip the row. */
  datatype Diff = Diff(inc: Record, changed: set<string>, skip: bool)

  /** The diff of one found row, or the exception its loop raises: a KeyError when no
      incoming row has its key, otherwise whatever a field's rule or the hook raised. */
  function DiffOf(c: Call, idRows: map<Key, Record>, row: Record): (r: Result<Diff>)
    ensures r.Ok? <==> KeyOf(c.env, row, c.keyFields) in idRows
                       && !RowFails(c.env, c.hook, row, idRows[KeyOf(c.env, row, c.keyFields)], c.schema)
    ensures r.Ok? ==>
      var inc := idRows[KeyOf(c.env, row, c.keyFields)];
      && r.value.inc == inc
      && r.value.changed == ChangedAttrs(c.env, c.hook, row, inc, c.schema)
      && r.value.skip == RowSkipped(c.env, c.hook, row, inc, c.schema)
      && r.value.changed <= Attrs(inc, c.schema)
  {
    var key := KeyOf(c.env, row, c.keyFields);
    if key !in idRows then Err(KeyError)
    else if RowFails(c.env, c.hook, row, idRows[key], c.schema) then Err(TypeError)
    else Ok(Diff(idRows[key], ChangedAttrs(c.env, c.hook, row, idRows[key], c.schema),
                 RowSkipped(c.env, c.hook, row, idRows[key], c.schema)))
  }

  /** A row goes into bulk_update when some field changed and nothing asked to skip it. */
  predicate Writes(d: Diff)
  {
    d.changed != {} && !d.skip
  }

  /** The diffs of the given rows, when none of them raises. */
  function Diffs(c: Call, idRows: map<Key, Record>, rows: map<nat, Record>, ids: set<nat>): map<nat, Diff>
    requires forall id :: id in ids ==> id in rows && DiffOf(c, idRows, rows[id]).Ok?
  {
    map id | id in ids :: DiffOf(c, idRows, rows[id]).value
  }

  /** The rows that go into the bulk update. */
  function Written(ds: map<nat, Diff>): set<nat>
  {
    set id | id in ds && Writes(ds[id])
  }

  /** The new contents of the written rows. */
  function UpdatedRows(rows: map<nat, Record>, ds: map<nat, Diff>): map<nat, Record>
  {
    map id | id in Written(ds) && id in rows :: Patch(rows[id], ds[id].inc, ds[id].changed)
  }

  /** update_fields: the union of the changed columns of the written rows. */
  function ChangedUnion(ds: map<nat, Diff>): set<string>
  {
    set id, a | id in Written(ds) && a in ds[id].changed :: a
  }

  // ---------------------------------------------------------------- creates

  /** The distinct keys of a batch in order of first appearance (the order of id_rows). */
  function KeyOrder(env: Env, data: seq<Record>, keyFields: seq<string>): (ks: seq<Key>)
    ensures forall i, j :: 0 <= i < j < |ks| ==> ks[i] != ks[j]
    ensures (set k | k in ks) == set r | r in data :: KeyOf(env, r, keyFields)
  {
    if |data| == 0 then []
    else
      var last := data[|data| - 1];
      assert data == data[..|data| - 1] + [last];
      var ks := KeyOrder(env, data[..|data| - 1], keyFields);
      var key := KeyOf(env, last, keyFields);
      assert (set r | r in data :: KeyOf(env, r, keyFields))
        == (set r | r in data[..|data| - 1] :: KeyOf(env, r, keyFields)) + {key};
      assert (set k | k in ks + [key]) == (set k | k in ks) + {key};
      if key in ks then ks else ks + [key]
  }

  /** cls(**{obj_data, shop}): model fields only, and the shop when one is given. */
  function NewRecord(inc: Record, schema: set<string>, shop: Option<nat>): Record
  {
    Restrict(inc, schema) + (if shop.Some? then map["shop" := VRef(shop.value)] else map[])
  }

  function CreatesOf(idRows: map<Key, Record>, existing: map<Key, nat>, keys: seq<Key>, schema: set<string>, shop: Option<nat>): seq<Record>
    requires forall k :: k in keys ==> k in idRows
  {
    if |keys| == 0 then []
    else
      (if keys[0] in existing then [] else [NewRecord(idRows[keys[0]], schema, shop)])
      + CreatesOf(idRows, existing, keys[1..], schema, shop)
  }

  /** The rows bulk_create inserts, in the order of id_rows. */
  function Creates(c: Call, t: Table): seq<Record>
  {
    IdRowsOfKeys(c.env, c.data, c.keyFields);
    CreatesOf(IdRows(c), Existing(c, t), KeyOrder(c.env, c.data, c.keyFields), c.schema, c.shop)
  }

  /** rows numbered from start on */
  function FreshRows(start: nat, rows: seq<Record>): (m: map<nat, Record>)
    ensures forall id :: id in m <==> start <= id < start + |rows|
    ensures forall i :: 0 <= i < |rows| ==> m[start + i] == rows[i]
  {
    if |rows| == 0 then map[]
    else FreshRows(start, rows[..|rows| - 1])[start + |rows| - 1 := rows[|rows| - 1]]
  }

  /** bulk_create: the new rows take the next primary keys. */
  function Append(t: Table, rows: seq<Record>): (t': Table)
    ensures t'.nextId == t.nextId + |rows|
  {
    Table(t.rows + FreshRows(t.nextId, rows), t.nextId + |rows|)
  }

  // ---------------------------------------------------------------- the reconciliation

  /** What bulk_insert_update computes, stated on whole sets: the error cases, the rows
      created, the found rows written with only their changed fields, and the summary. */
  function Reconcile(c: Call, t: Table): Result<Outcome>
  {
    var idRows := IdRows(c);
    var found := Found(c, t);
    if !HasKeyFields(c) then Err(KeyError)
    else if exists id :: id in found && DiffOf(c, idRows, t.rows[id]).Err? then
      if exists id :: id in found && KeyOf(c.env, t.rows[id], c.keyFields) !in idRows then Err(KeyError)
      else Err(TypeError)
    else
      var t1 := Append(t, Creates(c, t));
      var (rows, updated, fields) := Collected(t1.rows, t.rows, Diffs(c, idRows, t.rows, found));
      Ok(Outcome(Table(rows, t1.nextId), Summary(|idRows|, |Existing(c, t)|, updated, fields, |Creates(c, t)|)))
  }

  // ---------------------------------------------------------------- the loops

  /** Two outcomes agree when both fail or both succeed with the same value; which
      exception a failing batch raises first depends on the order rows are visited. */
  predicate Agrees<T(==)>(a: Result<T>, b: Result<T>)
  {
    (a.Err? <==> b.Err?) && (a.Ok? ==> a == b)
  }

  /** The loop over one row's fields (lines 128-156): the changed fields and the skip flag. */
  method DiffRow(env: Env, hook: Option<Hook>, obj: Record, inc: Record, schema: set<string>)
    returns (res: Result<(set<string>, bool)>)
    ensures res.Err? <==> RowFails(env, hook, obj, inc, schema)
    ensures res.Ok? ==> res.value == (ChangedAttrs(env, hook, obj, inc, schema), RowSkipped(env, hook, obj, inc, schema))
  {
    var attrs := Attrs(inc, schema);
    var todo := attrs;
    var changed: set<string> := {};
    var skip := false;
    while todo != {}
      invariant todo <= attrs
      invariant forall a :: a in attrs - todo ==> FieldVerdict(env, hook, obj, a, inc[a]).Ok?
      invariant forall a :: a in changed <==> a in attrs - todo && FieldVerdict(env, hook, obj, a, inc[a]).value.0
      invariant skip <==> exists a :: a in attrs - todo && FieldVerdict(env, hook, obj, a, inc[a]).value.1
      decreases todo
    {
      var a :| a in todo;
      var v := FieldVerdict(env, hook, obj, a, inc[a]);
      if v.Err? {
        return Err(v.error);
      }
      if v.value.0 {
        changed := changed + {a};
      }
      if v.value.1 {
        skip := true;
      }
      todo := todo - {a};
    }
    assert attrs - todo == attrs;
    assert changed == ChangedAttrs(env, hook, obj, inc, schema);
    return Ok((changed, skip));
  }

  /** bulk_insert_update(data, key_fields, changed_or_skip_func, cls, shop). */
  method BulkInsertUpdate(c: Call, t: Table) returns (res: Result<Outcome>)
    ensures Agrees(res, Reconcile(c, t))
  {
    if !HasKeyFields(c) {
      return Err(KeyError);
    }
    var idRows := IdRows(c);
    var existing := Existing(c, t);
    var creates := Creates(c, t);
    var t1 := Append(t, creates);
    var u := UpdateFound(c, idRows, t.rows, Found(c, t), t1.rows);
    if u.Err? {
      return Err(u.error);
    }
    var (rows, updated, fields) := u.value;
    return Ok(Outcome(Table(rows, t1.nextId), Summary(|idRows|, |existing|, updated, fields, |creates|)));
  }

  /** The loop over existing_objs (lines 124-163): diff every found row against its
      incoming row and collect the rows to update, on top of the table base. */
  method UpdateFound(c: Call, idRows: map<Key, Record>, rows0: map<nat, Record>, found: set<nat>, base: map<nat, Record>)
    returns (res: Result<(map<nat, Record>, nat, set<string>)>)
    requires found <= rows0.Keys
    ensures res.Err? <==> exists id :: id in found && DiffOf(c, idRows, rows0[id]).Err?
    ensures res.Ok? ==>
      && (forall id :: id in found ==> DiffOf(c, idRows, rows0[id]).Ok?)
      && res.value == Collected(base, rows0, Diffs(c, idRows, rows0, found))
  {
    var rows := base;
    var updated: nat := 0;
    var fields: set<string> := {};
    var todo := found;
    ghost var ds: map<nat, Diff> := map[];
    CollectedEmpty(base, rows0);
    while todo != {}
      invariant todo <= found
      invariant ds.Keys == found - todo
      invariant forall id :: id in ds ==> DiffOf(c, idRows, rows0[id]) == Ok(ds[id])
      invariant (rows, updated, fields) == Collected(base, rows0, ds)
      decreases todo
    {
      var id :| id in todo;
      var obj := rows0[id];
      var r := DiffFound(c, idRows, obj);
      if r.Err? {
        return Err(r.error);
      }
      var diff := r.value;
      CollectStep(base, rows0, ds, id, diff);
      if diff.changed != {} && !diff.skip {
        rows := rows[id := Patch(obj, diff.inc, diff.changed)];
        updated := updated + 1;
        fields := fields + diff.changed;
      }
      todo := todo - {id};
      ds := ds[id := diff];
    }
    assert ds == Diffs(c, idRows, rows0, found);
    return Ok((rows, updated, fields));
  }

  /** The body of the loop for one found row: its key looked up in id_rows, then its fields. */
  method DiffFound(c: Call, idRows: map<Key, Record>, obj: Record) returns (r: Result<Diff>)
    ensures r.Err? <==> DiffOf(c, idRows, obj).Err?
    ensures r.Ok? ==> r == DiffOf(c, idRows, obj)
  {
    var key := KeyOf(c.env, obj, c.keyFields);
    if key !in idRows {
      return Err(KeyError);
    }
    var d := DiffRow(c.env, c.hook, obj, idRows[key], c.schema);
    if d.Err? {
      return Err(d.error);
    }
    return Ok(Diff(idRows[key], d.value.0, d.value.1));
  }

  /** The table base with the written rows' new contents, the number of rows written, and
      update_fields. */
  function Collected(base: map<nat, Record>, rows0: map<nat, Record>, ds: map<nat, Diff>): (map<nat, Record>, nat, set<string>)
  {
    (base + UpdatedRows(rows0, ds), |Written(ds)|, ChangedUnion(ds))
  }

  lemma CollectedEmpty(base: map<nat, Record>, rows0: map<nat, Record>)
    ensures Collected(base, rows0, map[]) == (base, 0, {})
  {
    var e: map<nat, Diff> := map[];
    assert Written(e) == {};
    assert UpdatedRows(rows0, e) == map[];
    assert base + map[] == base;
    assert ChangedUnion(e) == {};
  }

  lemma CollectStep(base: map<nat, Record>, rows0: map<nat, Record>, ds: map<nat, Diff>, id: nat, d: Diff)
    requires id !in ds && id in rows0
    ensures var (rows, updated, fields) := Collected(base, rows0, ds);
      Collected(base, rows0, ds[id := d]) ==
        if Writes(d) then (rows[id := Patch(rows0[id], d.inc, d.changed)], updated + 1, fields + d.changed)
        else (rows, updated, fields)
  {
    WrittenStep(ds, id, d);
    UpdatedStep(rows0, ds, id, d);
    UnionStep(ds, id, d);
    if Writes(d) {
      CollectWritten(base, rows0, ds, id, d);
    }
  }

  lemma CollectWritten(base: map<nat, Record>, rows0: map<nat, Record>, ds: map<nat, Diff>, id: nat, d: Diff)
    requires id in rows0 && Writes(d)
    requires UpdatedRows(rows0, ds[id := d]) == UpdatedRows(rows0, ds)[id := Patch(rows0[id], d.inc, d.changed)]
    requires |Written(ds[id := d])| == |Written(ds)| + 1
    requires ChangedUnion(ds[id := d]) == ChangedUnion(ds) + d.changed
    ensures var (rows, updated, fields) := Collected(base, rows0, ds);
      Collected(base, rows0, ds[id := d]) == (rows[id := Patch(rows0[id], d.inc, d.changed)], updated + 1, fields + d.changed)
  {
    MergeUpdate(base, UpdatedRows(rows0, ds), id, Patch(rows0[id], d.inc, d.changed));
  }

  lemma MergeUpdate<K, V>(a: map<K, V>, b: map<K, V>, k: K, v: V)
    ensures (a + b)[k := v] == a + b[k := v]
  {
  }

  /** Adding one more row's diff adds that row to the written rows if it is written. */
  lemma WrittenStep(ds: map<nat, Diff>, id: nat, d: Diff)
    requires id !in ds
    ensures Written(ds[id := d]) == Written(ds) + (if Writes(d) then {id} else {})
    ensures |Written(ds[id := d])| == |Written(ds)| + (if Writes(d) then 1 else 0)
  {
    var w, w' := Written(ds), Written(ds[id := d]);
    assert w' == w + (if Writes(d) then {id} else {});
    assert id !in w;
  }

  /** ... and that row's new contents to the updated rows. */
  lemma UpdatedStep(rows: map<nat, Record>, ds: map<nat, Diff>, id: nat, d: Diff)
    requires id !in ds && id in rows
    ensures UpdatedRows(rows, ds[id := d]) ==
      if Writes(d) then UpdatedRows(rows, ds)[id := Patch(rows[id], d.inc, d.changed)]
      else UpdatedRows(rows, ds)
  {
    WrittenStep(ds, id, d);
  }

  /** ... and that row's changed columns to update_fields. */
  lemma UnionStep(ds: map<nat, Diff>, id: nat, d: Diff)
    requires id !in ds
    ensures ChangedUnion(ds[id := d]) == if Writes(d) then ChangedUnion(ds) + d.changed else ChangedUnion(ds)
  {
    var u, u' := ChangedUnion(ds), ChangedUnion(ds[id := d]);
    assert Written(ds[id := d]) == Written(ds) + (if Writes(d) then {id} else {});
    forall a | a in u' ensures a in u || (Writes(d) && a in d.changed) {
      var j :| j in Written(ds[id := d]) && a in ds[id := d][j].changed;
      if j != id {
        assert j in Written(ds);
      }
    }
    forall a | a in u ensures a in u' {
      var j :| j in Written(ds) && a in ds[j].changed;
      assert j in Written(ds[id := d]);
    }
    if Writes(d) {
      assert id in Written(ds[id := d]);
    }
  }
}
