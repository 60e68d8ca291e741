/** What bulk_insert_update guarantees, proved about the reconciliation it computes. */
module ReconcilerFacts {
  import opened Wrappers
  import opened Values
  import opened Reconciler
  import opened Collections

  // ---------------------------------------------------------------- id_rows

  /** A row is the one id_rows keeps for its key when no later row has the same key. */
  lemma {:induction false} IdRowsLastWins(env: Env, data: seq<Record>, keyFields: seq<string>, i: nat)
    requires i < |data|
    requires forall j :: i < j < |data| ==> KeyOf(env, data[j], keyFields) != KeyOf(env, data[i], keyFields)
    ensures KeyOf(env, data[i], keyFields) in IdRowsOf(env, data, keyFields)
    ensures IdRowsOf(env, data, keyFields)[KeyOf(env, data[i], keyFields)] == data[i]
  {
    var n := |data| - 1;
    if i < n {
      var pre := data[..n];
      forall j | i < j < |pre| ensures KeyOf(env, pre[j], keyFields) != KeyOf(env, pre[i], keyFields) {
        assert pre[j] == data[j];
      }
      IdRowsLastWins(env, pre, keyFields, i);
    }
  }

  // ---------------------------------------------------------------- scope

  /** With a shop, only that shop's rows are found. */
  lemma FoundInShop(c: Call, t: Table, id: nat)
    requires c.shop.Some? && id in Found(c, t)
    ensures Get(t.rows[id], "shop") == VRef(c.shop.value)
  {
    ExistingUpToSound(c, t, t.nextId);
  }

  /** A found row holds, in every key field, a value that occurs in the batch. */
  lemma FoundInBatch(c: Call, t: Table, id: nat, k: string)
    requires id in Found(c, t) && k in c.keyFields
    ensures c.env.show(Get(t.rows[id], k)) in ValuesOf(c.env, c.data, k)
  {
    ExistingUpToSound(c, t, t.nextId);
  }

  // ---------------------------------------------------------------- the composite-key KeyError

  /** A found row whose key no incoming row has makes the update loop raise KeyError. */
  lemma UnmatchedFoundRaises(c: Call, t: Table, id: nat)
    requires HasKeyFields(c) && id in Found(c, t)
    requires KeyOf(c.env, t.rows[id], c.keyFields) !in IdRows(c)
    ensures Reconcile(c, t) == Err(KeyError)
  {
    assert DiffOf(c, IdRows(c), t.rows[id]).Err?;
  }

  /** With key fields (a, b), a stored row (1, 4) passes the per-field IN filter of a batch
      holding (1, 2) and (3, 4), but its combination is not an incoming key: the update
      loop's id_rows[key] raises KeyError. */
  lemma CompositeKeyError(env: Env, schema: set<string>)
    requires env.show(VInt(1)) != env.show(VInt(3)) && env.show(VInt(2)) != env.show(VInt(4))
    ensures var c := Call(env, [map["a" := VInt(1), "b" := VInt(2)], map["a" := VInt(3), "b" := VInt(4)]],
                          ["a", "b"], schema, None, None);
            Reconcile(c, Table(map[0 := map["a" := VInt(1), "b" := VInt(4)]], 1)) == Err(KeyError)
  {
    var r1, r2 := map["a" := VInt(1), "b" := VInt(2)], map["a" := VInt(3), "b" := VInt(4)];
    var row := map["a" := VInt(1), "b" := VInt(4)];
    var c := Call(env, [r1, r2], ["a", "b"], schema, None, None);
    var t := Table(map[0 := row], 1);
    CompositeFound(c, t, r1, r2, row);
    CompositeUnmatched(c, r1, r2, row);
    UnmatchedFoundRaises(c, t, 0);
  }

  lemma CompositeFound(c: Call, t: Table, r1: Record, r2: Record, row: Record)
    requires r1 == map["a" := VInt(1), "b" := VInt(2)] && r2 == map["a" := VInt(3), "b" := VInt(4)]
    requires row == map["a" := VInt(1), "b" := VInt(4)]
    requires c.data == [r1, r2] && c.keyFields == ["a", "b"] && c.shop == None
    requires t == Table(map[0 := row], 1)
    ensures HasKeyFields(c) && 0 in Found(c, t) && t.rows[0] == row
  {
    assert r1 in c.data && r2 in c.data;
    assert InScope(c, row) by {
      assert c.env.show(Get(row, "a")) == c.env.show(Get(r1, "a"));
      assert c.env.show(Get(row, "b")) == c.env.show(Get(r2, "b"));
    }
    assert ExistingUpTo(c, t, 0) == map[];
    assert Existing(c, t)[KeyOf(c.env, row, c.keyFields)] == 0;
  }

  lemma CompositeUnmatched(c: Call, r1: Record, r2: Record, row: Record)
    requires r1 == map["a" := VInt(1), "b" := VInt(2)] && r2 == map["a" := VInt(3), "b" := VInt(4)]
    requires row == map["a" := VInt(1), "b" := VInt(4)]
    requires c.data == [r1, r2] && c.keyFields == ["a", "b"]
    requires c.env.show(VInt(1)) != c.env.show(VInt(3)) && c.env.show(VInt(2)) != c.env.show(VInt(4))
    ensures KeyOf(c.env, row, c.keyFields) !in IdRows(c)
  {
    var key := KeyOf(c.env, row, c.keyFields);
    IdRowsOfKeys(c.env, c.data, c.keyFields);
    assert c.keyFields[0] == "a" && c.keyFields[1] == "b";
    assert Get(row, "b") == VInt(4) && Get(r1, "b") == VInt(2);
    assert Get(row, "a") == VInt(1) && Get(r2, "a") == VInt(3);
    assert key[1] != KeyOf(c.env, r1, c.keyFields)[1];
    assert key[0] != KeyOf(c.env, r2, c.keyFields)[0];
    assert forall r :: r in c.data ==> r == r1 || r == r2;
  }

  // ---------------------------------------------------------------- the table afterwards

  /** The diffs of the found rows, in a reconciliation that succeeded. */
  function FoundDiffs(c: Call, t: Table): map<nat, Diff>
    requires Reconcile(c, t).Ok?
  {
    Diffs(c, IdRows(c), t.rows, Found(c, t))
  }

  /** A successful reconciliation: every key field present and every found row diffed. */
  lemma OkMeans(c: Call, t: Table)
    requires Reconcile(c, t).Ok?
    ensures HasKeyFields(c)
    ensures forall id :: id in Found(c, t) ==> DiffOf(c, IdRows(c), t.rows[id]).Ok?
    ensures Reconcile(c, t).value.table ==
      Table(Append(t, Creates(c, t)).rows + UpdatedRows(t.rows, FoundDiffs(c, t)), t.nextId + |Creates(c, t)|)
    ensures Reconcile(c, t).value.summary ==
      Summary(|IdRows(c)|, |Existing(c, t)|, |Written(FoundDiffs(c, t))|, ChangedUnion(FoundDiffs(c, t)), |Creates(c, t)|)
  {
  }

  /** The table after bulk_create of creates and bulk_update of the written diffs. */
  function After(t: Table, creates: seq<Record>, ds: map<nat, Diff>): Table
  {
    Table(Append(t, creates).rows + UpdatedRows(t.rows, ds), t.nextId + |creates|)
  }

  lemma AfterShape(t: Table, creates: seq<Record>, ds: map<nat, Diff>)
    requires ValidTable(t) && ds.Keys <= t.rows.Keys
    ensures var o := After(t, creates, ds);
      && ValidTable(o)
      && (forall id :: id in t.rows ==> id in o.rows)
      && (forall id :: id in t.rows && id !in ds ==> o.rows[id] == t.rows[id])
      && (forall i :: 0 <= i < |creates| ==> o.rows[t.nextId + i] == creates[i])
      && (forall id :: id in o.rows ==> id in t.rows || t.nextId <= id < o.nextId)
  {
    var upd := UpdatedRows(t.rows, ds);
    assert forall id :: id in upd ==> id in t.rows && id in ds;
  }

  lemma AfterFound(t: Table, creates: seq<Record>, ds: map<nat, Diff>, id: nat)
    requires ValidTable(t) && ds.Keys <= t.rows.Keys && id in ds
    ensures var o := After(t, creates, ds);
      && (Writes(ds[id]) ==> o.rows[id] == Patch(t.rows[id], ds[id].inc, ds[id].changed) && ds[id].changed <= ChangedUnion(ds))
      && (!Writes(ds[id]) ==> o.rows[id] == t.rows[id])
  {
    assert id !in FreshRows(t.nextId, creates);
    if Writes(ds[id]) {
      assert id in Written(ds);
      forall a | a in ds[id].changed ensures a in ChangedUnion(ds) {
      }
    }
  }

  /** Rows that were not found keep their contents; no row is deleted; the new rows take
      the keys from nextId on, in the order bulk_create received them. */
  lemma RowsOutsideFoundUntouched(c: Call, t: Table)
    requires ValidTable(t) && Reconcile(c, t).Ok?
    ensures var o := Reconcile(c, t).value.table;
      && ValidTable(o)
      && o.nextId == t.nextId + |Creates(c, t)|
      && (forall id :: id in t.rows ==> id in o.rows)
      && (forall id :: id in t.rows && id !in Found(c, t) ==> o.rows[id] == t.rows[id])
      && (forall i :: 0 <= i < |Creates(c, t)| ==> o.rows[t.nextId + i] == Creates(c, t)[i])
      && (forall id :: id in o.rows ==> id in t.rows || t.nextId <= id < o.nextId)
  {
    OkMeans(c, t);
    AfterShape(t, Creates(c, t), FoundDiffs(c, t));
  }

  /** A found row is rewritten only when it is written: then its changed fields take the
      incoming values and they are among update_fields; a row with no change, or one the
      hook asked to skip, keeps its contents. */
  lemma FoundRowsUpdated(c: Call, t: Table, id: nat)
    requires ValidTable(t) && Reconcile(c, t).Ok? && id in Found(c, t)
    ensures var o := Reconcile(c, t).value;
      var d := DiffOf(c, IdRows(c), t.rows[id]).value;
      && (Writes(d) ==> o.table.rows[id] == Patch(t.rows[id], d.inc, d.changed) && d.changed <= o.summary.changedFields)
      && (!Writes(d) ==> o.table.rows[id] == t.rows[id])
  {
    OkMeans(c, t);
    AfterFound(t, Creates(c, t), FoundDiffs(c, t), id);
  }

  /** bulk_update writes only update_fields: every other column of every old row keeps its
      value. */
  lemma OnlyChangedColumnsWritten(c: Call, t: Table, id: nat, f: string)
    requires ValidTable(t) && Reconcile(c, t).Ok? && id in t.rows
    requires f !in Reconcile(c, t).value.summary.changedFields
    ensures id in Reconcile(c, t).value.table.rows
    ensures Get(Reconcile(c, t).value.table.rows[id], f) == Get(t.rows[id], f)
  {
    RowsOutsideFoundUntouched(c, t);
    if id in Found(c, t) {
      FoundRowsUpdated(c, t, id);
    }
  }

  // ---------------------------------------------------------------- creates

  /** Each created row is the model-field part of the incoming row of a key that has no
      existing row, with the shop set when one is given — never a matched key. */
  lemma {:induction false} CreatesOfShape(idRows: map<Key, Record>, existing: map<Key, nat>, keys: seq<Key>,
                                          schema: set<string>, shop: Option<nat>, i: nat)
    requires forall k :: k in keys ==> k in idRows
    requires i < |CreatesOf(idRows, existing, keys, schema, shop)|
    ensures exists k ::
      && k in keys && k !in existing
      && CreatesOf(idRows, existing, keys, schema, shop)[i] == NewRecord(idRows[k], schema, shop)
  {
    var rest := CreatesOf(idRows, existing, keys[1..], schema, shop);
    if keys[0] in existing {
      CreatesOfShape(idRows, existing, keys[1..], schema, shop, i);
    } else if i == 0 {
      assert CreatesOf(idRows, existing, keys, schema, shop)[0] == NewRecord(idRows[keys[0]], schema, shop);
    } else {
      assert CreatesOf(idRows, existing, keys, schema, shop)[i] == rest[i - 1];
      CreatesOfShape(idRows, existing, keys[1..], schema, shop, i - 1);
    }
  }

  /** There is one created row per distinct key without an existing row. */
  lemma {:induction false} CreatesOfCount(idRows: map<Key, Record>, existing: map<Key, nat>, keys: seq<Key>,
                                          schema: set<string>, shop: Option<nat>)
    requires forall k :: k in keys ==> k in idRows
    requires forall i, j :: 0 <= i < j < |keys| ==> keys[i] != keys[j]
    ensures |CreatesOf(idRows, existing, keys, schema, shop)| == |(set k | k in keys) - existing.Keys|
  {
    if |keys| > 0 {
      DistinctKeysCons(keys, existing.Keys);
      CreatesOfCount(idRows, existing, keys[1..], schema, shop);
    }
  }

  /** The first of distinct keys adds one to the keys without a row exactly when it has none. */
  lemma DistinctKeysCons(keys: seq<Key>, e: set<Key>)
    requires |keys| > 0
    requires forall i, j :: 0 <= i < j < |keys| ==> keys[i] != keys[j]
    ensures forall i, j :: 0 <= i < j < |keys[1..]| ==> keys[1..][i] != keys[1..][j]
    ensures |(set k | k in keys) - e| == |(set k | k in keys[1..]) - e| + (if keys[0] in e then 0 else 1)
  {
    var tail := keys[1..];
    assert forall i, j :: 0 <= i < j < |tail| ==> tail[i] != tail[j] by {
      forall i, j | 0 <= i < j < |tail| ensures tail[i] != tail[j] {
        assert tail[i] == keys[i + 1] && tail[j] == keys[j + 1];
      }
    }
    assert keys[0] !in tail by {
      forall j | 0 <= j < |tail| ensures tail[j] != keys[0] {
        assert tail[j] == keys[j + 1];
      }
    }
    SeqSetCons(keys);
    DiffStep(keys[0], (set k | k in tail), e);
  }

  /** cls(**{obj_data, shop}) holds model fields only, and the shop when one is given. */
  lemma NewRecordShape(inc: Record, schema: set<string>, shop: Option<nat>)
    ensures NewRecord(inc, schema, shop).Keys <= schema + {"shop"}
    ensures shop.Some? ==> NewRecord(inc, schema, shop)["shop"] == VRef(shop.value)
    ensures forall f :: f in inc && f in schema && f != "shop" ==> NewRecord(inc, schema, shop)[f] == inc[f]
  {
  }

  /** Each created row is built from an incoming key that matched nothing: model fields
      only, tagged with the shop. */
  lemma CreatedRowShape(c: Call, t: Table, i: nat)
    requires i < |Creates(c, t)|
    ensures exists k :: k in IdRows(c) && k !in Existing(c, t) && Creates(c, t)[i] == NewRecord(IdRows(c)[k], c.schema, c.shop)
    ensures Creates(c, t)[i].Keys <= c.schema + {"shop"}
    ensures c.shop.Some? ==> Creates(c, t)[i]["shop"] == VRef(c.shop.value)
  {
    IdRowsOfKeys(c.env, c.data, c.keyFields);
    var keys := KeyOrder(c.env, c.data, c.keyFields);
    CreatesOfShape(IdRows(c), Existing(c, t), keys, c.schema, c.shop, i);
    var k :| k in keys && k !in Existing(c, t) && Creates(c, t)[i] == NewRecord(IdRows(c)[k], c.schema, c.shop);
    NewRecordShape(IdRows(c)[k], c.schema, c.shop);
  }

  /** In a successful reconciliation every existing key is an incoming key. */
  lemma ExistingKeysIncoming(c: Call, t: Table)
    requires Reconcile(c, t).Ok?
    ensures Existing(c, t).Keys <= IdRows(c).Keys
  {
    OkMeans(c, t);
    ExistingUpToSound(c, t, t.nextId);
    forall k | k in Existing(c, t) ensures k in IdRows(c) {
      assert Existing(c, t)[k] in Found(c, t);
    }
  }

  /** One row is created per incoming key that matched nothing. */
  lemma CreatesCount(c: Call, t: Table)
    ensures |Creates(c, t)| == |IdRows(c).Keys - Existing(c, t).Keys|
  {
    IdRowsOfKeys(c.env, c.data, c.keyFields);
    var keys := KeyOrder(c.env, c.data, c.keyFields);
    CreatesOfCount(IdRows(c), Existing(c, t), keys, c.schema, c.shop);
  }

  /** Every incoming key is either matched to an existing row or created, never both:
      found + created == received. */
  lemma EveryKeyMatchedOrCreated(c: Call, t: Table)
    requires Reconcile(c, t).Ok?
    ensures var s := Reconcile(c, t).value.summary; s.found + s.created == s.received
  {
    OkMeans(c, t);
    ExistingKeysIncoming(c, t);
    CreatesCount(c, t);
    SubsetSplit(Existing(c, t).Keys, IdRows(c).Keys);
  }

  // ---------------------------------------------------------------- the change rules

  /** A value compared with itself is unchanged, except a datetime, which the rule passes
      to fromisoformat and so must arrive as a string. */
  lemma SameValueUnchanged(env: Env, v: Value)
    requires !v.VDateTime?
    ensures BaseChanged(env, v, v) == Ok(false)
  {
    PyEqReflexive(v);
  }

  /** A stored datetime is unchanged exactly when the incoming string parses to it; a
      non-string raises TypeError and an unparsable one ValueError. */
  lemma DateTimeRule(env: Env, t: int, v: Value)
    ensures !v.VStr? ==> BaseChanged(env, VDateTime(t), v) == Err(TypeError)
    ensures v.VStr? && env.parseIso(v.s).None? ==> BaseChanged(env, VDateTime(t), v) == Err(ValueError)
    ensures v.VStr? && env.parseIso(v.s).Some? ==> BaseChanged(env, VDateTime(t), v) == Ok(env.parseIso(v.s).value != t)
  {
  }

  /** A stored Decimal is compared with float(value) at five places: None raises, and two
      numbers differing only after the fifth decimal are equal. */
  lemma DecimalRule(env: Env, d: Decimal)
    ensures BaseChanged(env, VDecimal(d), VNone) == Err(TypeError)
    ensures BaseChanged(env, VDecimal(Decimal(123450, 5)), VDecimal(Decimal(1234500004, 9))) == Ok(false)
    ensures BaseChanged(env, VDecimal(Decimal(123450, 5)), VDecimal(Decimal(123451, 5))) == Ok(true)
    ensures BaseChanged(env, VDecimal(Decimal(5, 0)), VInt(5)) == Ok(false)
  {
    assert Pow10(4) == 10000;
  }

  /** The fallback rule is Python's !=: True against 1 is unchanged, "1" against 1 changed. */
  lemma FallbackRule(env: Env)
    ensures BaseChanged(env, VBool(true), VInt(1)) == Ok(false)
    ensures BaseChanged(env, VStr("1"), VInt(1)) == Ok(true)
    ensures BaseChanged(env, VNone, VStr("x")) == Ok(true)
  {
    PyEqBoolInt();
  }

  // ---------------------------------------------------------------- nothing to write

  /** Every incoming model field of the row is unchanged under the rules. */
  predicate Agreeing(env: Env, row: Record, inc: Record, schema: set<string>)
  {
    forall a :: a in Attrs(inc, schema) ==> BaseChanged(env, Get(row, a), inc[a]) == Ok(false)
  }

  /** A stored row holding exactly the incoming values agrees with them, unless one of
      them is a datetime. */
  lemma EqualRowAgrees(env: Env, row: Record, inc: Record, schema: set<string>)
    requires forall a :: a in Attrs(inc, schema) ==> a in row && row[a] == inc[a] && !inc[a].VDateTime?
    ensures Agreeing(env, row, inc, schema)
  {
    forall a | a in Attrs(inc, schema) ensures BaseChanged(env, Get(row, a), inc[a]) == Ok(false) {
      SameValueUnchanged(env, inc[a]);
    }
  }

  /** Without a hook, an agreeing row diffs to no change. */
  lemma AgreeingRowUnchanged(c: Call, idRows: map<Key, Record>, row: Record)
    requires c.hook.None? && KeyOf(c.env, row, c.keyFields) in idRows
    requires Agreeing(c.env, row, idRows[KeyOf(c.env, row, c.keyFields)], c.schema)
    ensures DiffOf(c, idRows, row) == Ok(Diff(idRows[KeyOf(c.env, row, c.keyFields)], {}, false))
  {
    var inc := idRows[KeyOf(c.env, row, c.keyFields)];
    assert forall a :: a in Attrs(inc, c.schema) ==> FieldVerdict(c.env, c.hook, row, a, inc[a]) == Ok((false, false));
    assert !RowFails(c.env, c.hook, row, inc, c.schema);
    assert ChangedAttrs(c.env, c.hook, row, inc, c.schema) == {};
  }

  /** A batch that agrees with every found row writes nothing: no row is updated, no
      column is in update_fields, and every old row keeps its contents. */
  lemma AgreeingBatchWritesNothing(c: Call, t: Table)
    requires ValidTable(t) && c.hook.None? && Reconcile(c, t).Ok?
    requires forall id :: id in Found(c, t) ==>
      KeyOf(c.env, t.rows[id], c.keyFields) in IdRows(c)
      && Agreeing(c.env, t.rows[id], IdRows(c)[KeyOf(c.env, t.rows[id], c.keyFields)], c.schema)
    ensures Reconcile(c, t).value.summary.updated == 0
    ensures Reconcile(c, t).value.summary.changedFields == {}
    ensures forall id :: id in t.rows ==> Reconcile(c, t).value.table.rows[id] == t.rows[id]
  {
    OkMeans(c, t);
    var ds := FoundDiffs(c, t);
    forall id | id in ds ensures !Writes(ds[id]) {
      AgreeingRowUnchanged(c, IdRows(c), t.rows[id]);
    }
    assert Written(ds) == {};
    AfterShape(t, Creates(c, t), ds);
  }

  /** A row the hook asks to skip keeps its contents, whatever else changed. */
  lemma SkippedRowKept(c: Call, t: Table, id: nat)
    requires ValidTable(t) && Reconcile(c, t).Ok? && id in Found(c, t)
    requires KeyOf(c.env, t.rows[id], c.keyFields) in IdRows(c)
    requires var inc := IdRows(c)[KeyOf(c.env, t.rows[id], c.keyFields)];
      exists a :: a in Attrs(inc, c.schema) && FieldVerdict(c.env, c.hook, t.rows[id], a, inc[a]).Ok?
                  && FieldVerdict(c.env, c.hook, t.rows[id], a, inc[a]).value.1
    ensures Reconcile(c, t).value.table.rows[id] == t.rows[id]
  {
    OkMeans(c, t);
    FoundRowsUpdated(c, t, id);
  }

  // ---------------------------------------------------------------- one shop's writes

  /** What a shop's writes may do to a table: keep it valid, delete no row, and leave every
      row that is not the shop's as it was. */
  predicate KeepsOthers(t: Table, t': Table, shop: nat)
  {
    && ValidTable(t')
    && (forall id :: id in t.rows ==> id in t'.rows)
    && (forall id :: id in t.rows && Get(t.rows[id], "shop") != VRef(shop) ==> t'.rows[id] == t.rows[id])
  }

  lemma KeepsOthersRefl(t: Table, shop: nat)
    requires ValidTable(t)
    ensures KeepsOthers(t, t, shop)
  {
  }

  lemma KeepsOthersTrans(t: Table, t1: Table, t2: Table, shop: nat)
    requires KeepsOthers(t, t1, shop) && KeepsOthers(t1, t2, shop)
    ensures KeepsOthers(t, t2, shop)
  {
    forall id | id in t.rows && Get(t.rows[id], "shop") != VRef(shop)
      ensures t2.rows[id] == t.rows[id]
    {
      assert t1.rows[id] == t.rows[id];
    }
  }

  /** A reconciliation scoped to a shop deletes nothing and touches only that shop's rows. */
  lemma ReconcileKeepsOthers(c: Call, t: Table, shop: nat)
    requires ValidTable(t) && c.shop == Some(shop) && Reconcile(c, t).Ok?
    ensures KeepsOthers(t, Reconcile(c, t).value.table, shop)
  {
    RowsOutsideFoundUntouched(c, t);
    forall id | id in t.rows && Get(t.rows[id], "shop") != VRef(shop)
      ensures id !in Found(c, t)
    {
      if id in Found(c, t) {
        FoundInShop(c, t, id);
      }
    }
  }
}
