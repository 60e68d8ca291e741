/** The month windows of api_transactions, the first date_to as written, and what the
    transaction_changed hook decides. */
module TransactionFacts {
  import opened Wrappers
  import opened Values
  import opened Calendar
  import opened Windows
  import opened Reconciler
  import opened Accounts
  import opened Tasks
  import opened ServiceLists
  import opened Transactions
  import Chunks
  import RF = ReconcilerFacts

  // ---------------------------------------------------------------- the first date_to

  /** As written, the first date_to cannot be computed in December: date(y, 13, 1) raises. */
  lemma DecemberFails(today: Date)
    requires ValidDate(today) && today.month == 12
    ensures FirstDateToAsWritten(today) == Err(ValueError)
  {
  }

  /** In every other month it is the last day of the month, as MonthEnd gives for all months. */
  lemma FirstDateToOtherMonths(today: Date)
    requires ValidDate(today) && today.month < 12
    ensures FirstDateToAsWritten(today) == Ok(MonthEnd(today))
  {
    var first := Date(today.year, today.month + 1, 1);
    assert MakeDate(today.year, today.month + 1, 1) == Ok(first);
  }

  // ---------------------------------------------------------------- the chunk writes

  /** The chunk writes of one response stop at the first failing chunk: the table is the
      one the chunks before it reach, each committed on its own; without a failure every
      chunk is written. */
  lemma {:induction false} WriteAllStops(write: TableWriter, t: Table, cs: seq<seq<Record>>)
    ensures var c := WriteAll(write, t, cs);
      exists i :: 0 <= i <= |cs| && WriteAll(write, t, cs[..i]) == Committed(c.store, None)
        && (c.error.None? <==> i == |cs|)
        && (i < |cs| ==> c.error.Some? && write(c.store, cs[i]) == Err(c.error.value))
    decreases |cs|
  {
    var c := WriteAll(write, t, cs);
    if |cs| == 0 {
      assert WriteAll(write, t, cs[..0]) == Committed(c.store, None);
    } else {
      var w := write(t, cs[0]);
      if w.Err? {
        assert WriteAll(write, t, cs[..0]) == Committed(c.store, None);
      } else {
        WriteAllStops(write, w.value, cs[1..]);
        var j :| 0 <= j <= |cs[1..]| && WriteAll(write, w.value, cs[1..][..j]) == Committed(c.store, None)
          && (c.error.None? <==> j == |cs[1..]|)
          && (j < |cs[1..]| ==> c.error.Some? && write(c.store, cs[1..][j]) == Err(c.error.value));
        var pre := cs[..j + 1];
        assert pre[0] == cs[0] && pre[1..] == cs[1..][..j];
        assert WriteAll(write, t, pre) == Committed(c.store, None);
      }
    }
  }

  // ---------------------------------------------------------------- the windows

  /** Window w spans the whole calendar month m: its first day to its last. */
  predicate WholeMonth(w: (Date, Date), m: int)
  {
    && ValidDate(w.0) && ValidDate(w.1)
    && w.0.day == 1 && w.0.year == w.1.year && w.0.month == w.1.month
    && w.1.day == DaysIn(w.1.year, w.1.month)
    && MonthIndex(w.0) == m
  }

  /** The rows of the responses to the given windows. */
  function WindowRows(fetch: TransactionFetch, ws: seq<(Date, Date)>): int
  {
    if |ws| == 0 then 0
    else (if fetch(ws[0].0, ws[0].1).Ok? then |fetch(ws[0].0, ws[0].1).value| else 0) + WindowRows(fetch, ws[1..])
  }

  lemma {:induction false} WindowRowsAppend(fetch: TransactionFetch, a: seq<(Date, Date)>, b: seq<(Date, Date)>)
    ensures WindowRows(fetch, a + b) == WindowRows(fetch, a) + WindowRows(fetch, b)
  {
    if |a| > 0 {
      assert (a + b)[1..] == a[1..] + b;
      WindowRowsAppend(fetch, a[1..], b);
    } else {
      assert a + b == b;
    }
  }

  /** From a month's last day on, the k-th further window is the whole month k months
      back, however the run ends. */
  lemma {:induction false} MonthsWindows(r: MonthRun, t: Table, dateTo: Date, left: int, total: int,
                                         windows: seq<(Date, Date)>)
    requires ValidDate(dateTo) && dateTo.day == DaysIn(dateTo.year, dateTo.month)
    ensures var p := Months(r, t, dateTo, left, total, windows).value;
      && |windows| <= |p.windows| <= |windows| + Max(left, 0)
      && p.windows[..|windows|] == windows
      && (forall k :: |windows| <= k < |p.windows| ==> WholeMonth(p.windows[k], MonthIndex(dateTo) - (k - |windows|)))
    decreases left
  {
    if left > 0 {
      var from := MonthStart(dateTo);
      var data := r.fetch(from, dateTo);
      var ws := windows + [(from, dateTo)];
      if data.Ok? && |data.value| > 0 {
        var w := r.write(t, data.value);
        var prev := PrevDay(from);
        if w.error.None? && prev.Ok? {
          MonthsWindows(r, w.store, prev.value, left - 1, total + |data.value|, ws);
          var p := Months(r, t, dateTo, left, total, windows).value;
          assert p.windows[..|ws|] == ws;
          assert p.windows[..|windows|] == ws[..|windows|];
        }
      }
    }
  }

  /** The table reached by writing, in order, the responses to the given windows: it stops
      at the first failed call and at the first empty response, and a failed write leaves
      the chunks committed before it. */
  function WrittenThrough(r: MonthRun, t: Table, ws: seq<(Date, Date)>): Table
    decreases |ws|
  {
    if |ws| == 0 then t
    else
      var data := r.fetch(ws[0].0, ws[0].1);
      if data.Err? || |data.value| == 0 then t
      else
        var w := r.write(t, data.value);
        if w.error.Some? then w.store else WrittenThrough(r, w.store, ws[1..])
  }

  /** However the loop ends, its table is the one its calls' responses, written in order,
      reach: a failure keeps everything committed before it. */
  lemma {:induction false} MonthsStore(r: MonthRun, t: Table, dateTo: Date, left: int, total: int,
                                       windows: seq<(Date, Date)>)
    requires ValidDate(dateTo)
    ensures var p := Months(r, t, dateTo, left, total, windows).value;
      && |windows| <= |p.windows| && p.windows[..|windows|] == windows
      && p.table == WrittenThrough(r, t, p.windows[|windows|..])
    decreases left
  {
    var p := Months(r, t, dateTo, left, total, windows).value;
    MonthsPrefix(r, t, dateTo, left, total, windows);
    if left > 0 {
      var from := MonthStart(dateTo);
      var data := r.fetch(from, dateTo);
      var ws := windows + [(from, dateTo)];
      if data.Ok? && |data.value| > 0 {
        var w := r.write(t, data.value);
        var prev := PrevDay(from);
        if w.error.None? && prev.Ok? {
          assert p == Months(r, w.store, prev.value, left - 1, total + |data.value|, ws).value;
          MonthsStore(r, w.store, prev.value, left - 1, total + |data.value|, ws);
          assert p.windows[|windows|] == ws[|windows|] == (from, dateTo);
          assert p.windows[|windows|..] == [(from, dateTo)] + p.windows[|ws|..];
        } else {
          assert p.windows[|windows|..] == [(from, dateTo)];
          assert p.windows[|windows|..][1..] == [];
        }
      } else {
        assert p.windows[|windows|..] == [(from, dateTo)];
      }
    } else {
      assert p.windows[|windows|..] == [];
    }
  }

  /** Each window was answered, all but the last with rows, and a run cut short ended on an
      empty response. */
  lemma {:induction false} MonthsAnswered(r: MonthRun, t: Table, dateTo: Date, left: int, total: int,
                                          windows: seq<(Date, Date)>)
    requires ValidDate(dateTo)
    requires Months(r, t, dateTo, left, total, windows).Finished?
    ensures var p := Months(r, t, dateTo, left, total, windows).value;
      && |windows| <= |p.windows| <= |windows| + Max(left, 0)
      && (forall k :: |windows| <= k < |p.windows| ==> r.fetch(p.windows[k].0, p.windows[k].1).Ok?)
      && (forall k :: |windows| <= k < |p.windows| - 1 ==> |r.fetch(p.windows[k].0, p.windows[k].1).value| > 0)
      && (|p.windows| < |windows| + left ==>
            |p.windows| > |windows| && r.fetch(p.windows[|p.windows| - 1].0, p.windows[|p.windows| - 1].1) == Ok([]))
    decreases left
  {
    if left > 0 {
      var from := MonthStart(dateTo);
      var data := r.fetch(from, dateTo).value;
      var ws := windows + [(from, dateTo)];
      if |data| > 0 {
        var t' := r.write(t, data).store;
        var prev := PrevDay(from).value;
        MonthsAnswered(r, t', prev, left - 1, total + |data|, ws);
        MonthsPrefix(r, t', prev, left - 1, total + |data|, ws);
        var p := Months(r, t, dateTo, left, total, windows).value;
        assert p.windows[|windows|] == ws[|windows|] == (from, dateTo);
      }
    }
  }

  /** The windows already recorded stay in front, however the loop ends. */
  lemma {:induction false} MonthsPrefix(r: MonthRun, t: Table, dateTo: Date, left: int, total: int,
                                        windows: seq<(Date, Date)>)
    requires ValidDate(dateTo)
    ensures var p := Months(r, t, dateTo, left, total, windows).value;
      |windows| <= |p.windows| && p.windows[..|windows|] == windows
    decreases left
  {
    if left > 0 {
      var from := MonthStart(dateTo);
      var data := r.fetch(from, dateTo);
      var ws := windows + [(from, dateTo)];
      if data.Ok? && |data.value| > 0 {
        var w := r.write(t, data.value);
        var prev := PrevDay(from);
        if w.error.None? && prev.Ok? {
          MonthsPrefix(r, w.store, prev.value, left - 1, total + |data.value|, ws);
          var p := Months(r, t, dateTo, left, total, windows).value;
          assert p.windows[..|windows|] == p.windows[..|ws|][..|windows|];
        }
      }
    }
  }

  /** total_rows is the number of rows of the responses. */
  lemma {:induction false} MonthsTotal(r: MonthRun, t: Table, dateTo: Date, left: int, total: int,
                                       windows: seq<(Date, Date)>)
    requires ValidDate(dateTo)
    requires Months(r, t, dateTo, left, total, windows).Finished?
    ensures var p := Months(r, t, dateTo, left, total, windows).value;
      && |windows| <= |p.windows| && p.windows[..|windows|] == windows
      && p.total == total + WindowRows(r.fetch, p.windows[|windows|..])
    decreases left
  {
    var p := Months(r, t, dateTo, left, total, windows).value;
    if left > 0 {
      var from := MonthStart(dateTo);
      var data := r.fetch(from, dateTo).value;
      var ws := windows + [(from, dateTo)];
      if |data| > 0 {
        var t' := r.write(t, data).store;
        var prev := PrevDay(from).value;
        MonthsTotal(r, t', prev, left - 1, total + |data|, ws);
        assert p.windows[..|windows|] == ws[..|windows|];
        assert p.windows[|windows|..] == [(from, dateTo)] + p.windows[|ws|..];
        WindowRowsAppend(r.fetch, [(from, dateTo)], p.windows[|ws|..]);
      } else {
        assert p.windows[|windows|..] == [(from, dateTo)];
      }
    } else {
      assert p.windows[|windows|..] == [];
    }
  }

  /** A finished run from the end of the current month asks for at most ceil(days / 30) + 1
      windows: the k-th is the whole calendar month k months before the current one, so the
      windows are consecutive months, disjoint and without gaps; every response but the
      last is non-empty, a run cut short ended on an empty response, and total_rows counts
      the rows. */
  lemma TransactionSchedule(r: MonthRun, t: Table, days: int)
    requires ValidDate(r.today)
    requires ApiTransactionsCorrected(r, t, days).Finished?
    ensures var p := ApiTransactionsCorrected(r, t, days).value;
      var n := CeilDiv(days, DaysPerMonthWindow) + 1;
      && |p.windows| <= Max(n, 0)
      && (forall k :: 0 <= k < |p.windows| ==> r.fetch(p.windows[k].0, p.windows[k].1).Ok?)
      && (forall k :: 0 <= k < |p.windows| ==> WholeMonth(p.windows[k], MonthIndex(r.today) - k))
      && (forall k :: 0 <= k < |p.windows| - 1 ==> PrevDay(p.windows[k].0) == Ok(p.windows[k + 1].1))
      && (forall k :: 0 <= k < |p.windows| - 1 ==> |r.fetch(p.windows[k].0, p.windows[k].1).value| > 0)
      && (|p.windows| < n ==> |p.windows| > 0 && r.fetch(p.windows[|p.windows| - 1].0, p.windows[|p.windows| - 1].1) == Ok([]))
      && p.total == WindowRows(r.fetch, p.windows)
  {
    var n := CeilDiv(days, DaysPerMonthWindow) + 1;
    var start := MonthEnd(r.today);
    var p := Months(r, t, start, n, 0, []).value;
    assert ApiTransactionsCorrected(r, t, days).value == p;
    MonthsWindows(r, t, start, n, 0, []);
    assert forall k :: 0 <= k < |p.windows| ==> WholeMonth(p.windows[k], MonthIndex(r.today) - k);
    MonthsAnswered(r, t, start, n, 0, []);
    MonthsTotal(r, t, start, n, 0, []);
    assert p.windows[0..] == p.windows;
    MonthsChain(MonthIndex(r.today), p.windows);
  }

  /** Whole months counted down one by one follow each other without gap: the day before
      each window's first day is the next window's last. */
  lemma MonthsChain(m: int, ws: seq<(Date, Date)>)
    requires forall k :: 0 <= k < |ws| ==> WholeMonth(ws[k], m - k)
    ensures forall k :: 0 <= k < |ws| - 1 ==> ValidDate(ws[k].0) && PrevDay(ws[k].0) == Ok(ws[k + 1].1)
  {
    forall k | 0 <= k < |ws| - 1 ensures PrevDay(ws[k].0) == Ok(ws[k + 1].1) {
      var a, b := ws[k], ws[k + 1];
      assert WholeMonth(a, m - k) && WholeMonth(b, m - k - 1);
      var q := PrevDay(a.0);
      assert q.Ok?;
      assert MonthIndex(q.value) == MonthIndex(b.1);
      SameMonth(q.value, b.1);
    }
  }

  // ---------------------------------------------------------------- the hook

  /** The hook reads of the stored row only its type and the field it is called for:
      setting any other field first does not change its verdict. */
  lemma HookReads(changed: bool, obj: Record, attr: string, value: Value, other: string, w: Value)
    requires other != "type" && other != attr
    ensures TransactionChanged(changed, obj[other := w], attr, value) == TransactionChanged(changed, obj, attr, value)
  {
    assert Get(obj[other := w], "type") == Get(obj, "type");
    assert Get(obj[other := w], attr) == Get(obj, attr);
  }

  /** For an order transaction's changed services: the field is changed exactly when the
      two lists hold different services, whatever their order, provided no two different
      stored services share a name; and such a change is skipped when the new list is empty. */
  lemma HookVerdict(obj: Record, value: Value)
    requires Get(obj, "type") == VStr("orders")
    requires ItemsOf(Get(obj, "services")).Ok? && CheckNames(ItemsOf(Get(obj, "services")).value).Ok?
    requires ItemsOf(value).Ok? && CheckNames(ItemsOf(value).value).Ok?
    requires NamesDetermine(ItemsOf(Get(obj, "services")).value)
    ensures var stored := ItemsOf(Get(obj, "services")).value;
      var incoming := ItemsOf(value).value;
      var c := multiset(stored) != multiset(incoming);
      TransactionChanged(true, obj, "services", value) == Ok((c, c && incoming == []))
  {
    var stored := ItemsOf(Get(obj, "services")).value;
    var incoming := ItemsOf(value).value;
    SortedDiffer(stored, incoming);
    SortFacts(incoming);
  }

  /** Reordering the services of an order transaction is not a change. */
  lemma ReorderedServicesUnchanged(obj: Record, items: seq<Value>, reordered: seq<Value>)
    requires Get(obj, "type") == VStr("orders") && Get(obj, "services") == VList(items)
    requires CheckNames(items).Ok? && NamesDetermine(items) && multiset(reordered) == multiset(items)
    ensures TransactionChanged(true, obj, "services", VList(reordered)) == Ok((false, false))
  {
    assert forall i :: 0 <= i < |reordered| ==> reordered[i] in multiset(items);
    assert CheckNames(reordered).Ok? by {
      forall i | 0 <= i < |reordered| ensures NameOf(reordered[i]).Ok? {
        assert reordered[i] in items;
        var j :| 0 <= j < |items| && items[j] == reordered[i];
      }
    }
    HookVerdict(obj, VList(reordered));
  }

  /** Emptying the services of an order transaction is seen as a change and skipped. */
  lemma EmptiedServicesSkipped(obj: Record, items: seq<Value>)
    requires Get(obj, "type") == VStr("orders") && Get(obj, "services") == VList(items)
    requires CheckNames(items).Ok? && items != []
    ensures TransactionChanged(true, obj, "services", VList([])) == Ok((true, true))
  {
    SortFacts(items);
  }

  // ---------------------------------------------------------------- the run as written

  /** api_transactions as written: in December it fails before any call and leaves the
      table as it was; in every other month it is the run from the end of the month. In
      both cases the table is the one the calls' responses, written in order, reach, and
      the k-th call asks for the whole month k months before the current one. */
  lemma TransactionRunStore(r: MonthRun, t: Table, days: int)
    requires ValidDate(r.today)
    ensures var e := ApiTransactions(r, t, days);
      && (r.today.month == 12 ==> e == OtherError(MonthPass(t, [], 0)))
      && (r.today.month < 12 ==> e == ApiTransactionsCorrected(r, t, days))
      && e.value.table == WrittenThrough(r, t, e.value.windows)
      && |e.value.windows| <= Max(CeilDiv(days, DaysPerMonthWindow) + 1, 0)
      && (forall k :: 0 <= k < |e.value.windows| ==> WholeMonth(e.value.windows[k], MonthIndex(r.today) - k))
  {
    var n := CeilDiv(days, DaysPerMonthWindow) + 1;
    if r.today.month == 12 {
      DecemberFails(r.today);
    } else {
      FirstDateToOtherMonths(r.today);
      var start := MonthEnd(r.today);
      MonthsWindows(r, t, start, n, 0, []);
      MonthsStore(r, t, start, n, 0, []);
      var p := Months(r, t, start, n, 0, []).value;
      assert p.windows[0..] == p.windows;
    }
  }

  // ---------------------------------------------------------------- the sync task

  /** update_transactions succeeds exactly when the run finishes, so never in December; a
      rejected key is switched off and every other failure keeps the key; the table is the
      one the run reached, a failed run's included. */
  lemma TransactionTaskOutcome(keyId: nat, keys: seq<ApiKey>, shops: map<nat, Shop>, now: int,
                               r: MonthRun, t: Table, days: int)
    requires ValidDate(r.today) && GetKey(keys, shops, Some(keyId), now).Ok?
    ensures var key := GetKey(keys, shops, Some(keyId), now).value;
      var e := ApiTransactions(r, t, days);
      var res := UpdateTransactions(Some(keyId), keys, shops, now, r, t, days);
      && res.Ok? && res.value.key.Some?
      && (res.value.result.Success? <==> e.Finished?)
      && (res.value.key.value.isActive <==> key.isActive && !(e.ApiError? && e.e == BadApiKey))
      && res.value.table == WrittenThrough(r, t, e.value.windows)
      && (r.today.month == 12 ==> res.value.result == Failure(OtherFailure) && res.value.table == t)
  {
    TransactionRunStore(r, t, days);
  }

  // ---------------------------------------------------------------- the writer the sync task uses

  /** The run writes a response as update_transactions does: transactions2db for the shop
      on each chunk of TRANSACTION_CHUNK_SIZE rows. */
  ghost predicate RealWriter(r: MonthRun, env: Env, schema: set<string>, shop: nat)
  {
    forall t, data :: r.write(t, data) == ResponseWriter(TransactionWriter(env, schema, shop))(t, data)
  }

  /** The chunk writes of one response delete no row and leave other shops' rows alone. */
  lemma {:induction false} WriteAllKeepsOthers(env: Env, schema: set<string>, shop: nat, t: Table, cs: seq<seq<Record>>)
    requires ValidTable(t)
    ensures RF.KeepsOthers(t, WriteAll(TransactionWriter(env, schema, shop), t, cs).store, shop)
    decreases |cs|
  {
    var c := TransactionCall(env, schema, shop, if |cs| == 0 then [] else cs[0]);
    if |cs| > 0 && Reconcile(c, t).Ok? {
      var t1 := Reconcile(c, t).value.table;
      RF.ReconcileKeepsOthers(c, t, shop);
      assert TransactionWriter(env, schema, shop)(t, cs[0]) == Ok(t1);
      WriteAllKeepsOthers(env, schema, shop, t1, cs[1..]);
      RF.KeepsOthersTrans(t, t1, WriteAll(TransactionWriter(env, schema, shop), t1, cs[1..]).store, shop);
    } else {
      RF.KeepsOthersRefl(t, shop);
    }
  }

  /** Every response the run writes deletes no row and leaves other shops' rows alone. */
  ghost predicate Keeping(r: MonthRun, shop: nat)
  {
    forall t, data :: ValidTable(t) ==> RF.KeepsOthers(t, r.write(t, data).store, shop)
  }

  lemma RealWriterKeeping(r: MonthRun, env: Env, schema: set<string>, shop: nat)
    requires RealWriter(r, env, schema, shop)
    ensures Keeping(r, shop)
  {
    forall t, data | ValidTable(t)
      ensures RF.KeepsOthers(t, r.write(t, data).store, shop)
    {
      WriteAllKeepsOthers(env, schema, shop, t, Chunks.Chunks(data, TransactionChunkSize));
    }
  }

  /** One iteration of the month loop: the loop goes on from the written table, or ends
      there or where it began. */
  lemma MonthsStep(r: MonthRun, t: Table, dateTo: Date, left: int, total: int, windows: seq<(Date, Date)>)
    requires ValidDate(dateTo) && left > 0
    ensures var from := MonthStart(dateTo);
      var data := r.fetch(from, dateTo);
      var p := Months(r, t, dateTo, left, total, windows).value;
      && (data.Err? || |data.value| == 0 ==> p.table == t)
      && (data.Ok? && |data.value| > 0 ==>
            var w := r.write(t, data.value);
            var prev := PrevDay(from);
            if w.error.None? && prev.Ok? then
              Months(r, t, dateTo, left, total, windows)
                == Months(r, w.store, prev.value, left - 1, total + |data.value|, windows + [(from, dateTo)])
            else p.table == w.store)
  {
  }

  /** However the month loop ends, it has deleted no row and left other shops' rows alone. */
  lemma {:induction false} MonthsKeepsOthers(r: MonthRun, shop: nat, t: Table,
                                             dateTo: Date, left: int, total: int, windows: seq<(Date, Date)>)
    requires Keeping(r, shop) && ValidTable(t) && ValidDate(dateTo)
    ensures RF.KeepsOthers(t, Months(r, t, dateTo, left, total, windows).value.table, shop)
    decreases left
  {
    if left <= 0 {
      RF.KeepsOthersRefl(t, shop);
      return;
    }
    MonthsStep(r, t, dateTo, left, total, windows);
    var from := MonthStart(dateTo);
    var data := r.fetch(from, dateTo);
    if data.Err? || |data.value| == 0 {
      RF.KeepsOthersRefl(t, shop);
    } else {
      var w := r.write(t, data.value);
      assert RF.KeepsOthers(t, w.store, shop);
      var prev := PrevDay(from);
      if w.error.None? && prev.Ok? {
        var rest := Months(r, w.store, prev.value, left - 1, total + |data.value|, windows + [(from, dateTo)]);
        MonthsKeepsOthers(r, shop, w.store, prev.value, left - 1, total + |data.value|, windows + [(from, dateTo)]);
        RF.KeepsOthersTrans(t, w.store, rest.value.table, shop);
      }
    }
  }

  /** update_transactions for a key of the shop deletes no transaction and changes no row
      of another shop, whatever the API answers and however the run ends. */
  lemma TransactionTaskKeepsOthers(keyId: nat, keys: seq<ApiKey>, shops: map<nat, Shop>, now: int,
                                   r: MonthRun, t: Table, days: int, env: Env, schema: set<string>, shop: nat)
    requires ValidDate(r.today) && GetKey(keys, shops, Some(keyId), now).Ok?
    requires GetKey(keys, shops, Some(keyId), now).value.shop == Some(shop)
    requires RealWriter(r, env, schema, shop) && ValidTable(t)
    ensures RF.KeepsOthers(t, UpdateTransactions(Some(keyId), keys, shops, now, r, t, days).value.table, shop)
  {
    var first := FirstDateToAsWritten(r.today);
    if first.Ok? {
      RealWriterKeeping(r, env, schema, shop);
      MonthsKeepsOthers(r, shop, t, first.value, CeilDiv(days, DaysPerMonthWindow) + 1, 0, []);
    } else {
      RF.KeepsOthersRefl(t, shop);
    }
  }
}
