/** api_transactions, transactions2db with its transaction_changed hook, and the
    update_transactions task of backend/mp/tasks/update_transactions.py. */
module Transactions {
  import opened Wrappers
  import opened Values
  import opened Calendar
  import opened Windows
  import opened Reconciler
  import opened Accounts
  import opened Tasks
  import opened ServiceLists
  import Chunks

  const TransactionChunkSize: nat := 5000
  const DaysPerMonthWindow: int := 30

  // ---------------------------------------------------------------- the hook

  /** The stored row's services are compared only for a changed services field of an
      order transaction. */
  predicate HookActs(changed: bool, obj: Record, attr: string)
  {
    changed && attr == "services" && Get(obj, "type") == VStr("orders")
  }

  /** transaction_changed(changed, obj, attr, value): the stored and the incoming service
      lists, each sorted by name, decide whether the field changed; a change to an empty
      list is skipped. json.loads is the decoding the stored value already holds. */
  function TransactionChanged(changed: bool, obj: Record, attr: string, value: Value): (r: Result<(bool, bool)>)
    ensures !HookActs(changed, obj, attr) ==> r == Ok((changed, false))
    ensures r.Ok? && r.value.0 ==> changed
    ensures r.Ok? && r.value.1 ==> r.value.0 && ItemsOf(value) == Ok([])
  {
    if !HookActs(changed, obj, attr) then Ok((changed, false))
    else
      var stored :- ItemsOf(Get(obj, attr));
      var stored :- CheckNames(stored);
      var incoming :- ItemsOf(value);
      var incoming :- CheckNames(incoming);
      var c := SortByName(stored) != SortByName(incoming);
      SortFacts(incoming);
      Ok((c, c && SortByName(incoming) == []))
  }

  /** transactions2db(data, shop): rows reconciled by operation_id within the shop. */
  function TransactionCall(env: Env, schema: set<string>, shop: nat, data: seq<Record>): Call
  {
    Call(env, data, ["operation_id"], schema, Some(TransactionChanged), Some(shop))
  }

  type TableWriter = (Table, seq<Record>) -> Result<Table>

  function TransactionWriter(env: Env, schema: set<string>, shop: nat): TableWriter
  {
    (t: Table, data: seq<Record>) =>
      var o := Reconcile(TransactionCall(env, schema, shop, data), t);
      if o.Ok? then Ok(o.value.table) else Err(o.error)
  }

  method TransactionsToDb(env: Env, schema: set<string>, shop: nat, t: Table, data: seq<Record>) returns (r: Result<Table>)
    ensures Agrees(r, TransactionWriter(env, schema, shop)(t, data))
  {
    var o := BulkInsertUpdate(TransactionCall(env, schema, shop, data), t);
    if o.Err? {
      return Err(o.error);
    }
    return Ok(o.value.table);
  }

  // ---------------------------------------------------------------- the month windows

  /** The first date_to as written: date(y, m + 1, 1) - timedelta(days=1). */
  function FirstDateToAsWritten(today: Date): Result<Date>
    requires ValidDate(today)
  {
    var first :- MakeDate(today.year, today.month + 1, 1);
    PrevDay(first)
  }

  /** api.transactions(date_from=..., date_to=...) */
  type TransactionFetch = (Date, Date) -> Result<seq<Record>>

  /** What writing one response does: chunk by chunk, each chunk committed on its own. */
  type ResponseWrite = (Table, seq<Record>) -> Committed<Table>

  /** The fixed inputs of one run: the API, what writing one response does, and today. */
  datatype MonthRun = MonthRun(fetch: TransactionFetch, write: ResponseWrite, today: Date)

  /** The table the run reached, the (date_from, date_to) of every call made, and total_rows. */
  datatype MonthPass = MonthPass(table: Table, windows: seq<(Date, Date)>, total: int)

  /** for data_chunk in chunks(data, TRANSACTION_CHUNK_SIZE): transactions2db(data_chunk, shop);
      a failing chunk leaves the chunks before it written. */
  function WriteAll(write: TableWriter, t: Table, cs: seq<seq<Record>>): Committed<Table>
    decreases |cs|
  {
    if |cs| == 0 then Committed(t, None)
    else
      var w := write(t, cs[0]);
      if w.Err? then Committed(t, Some(w.error))
      else WriteAll(write, w.value, cs[1..])
  }

  /** Writing one response: transactions2db on each chunk of TRANSACTION_CHUNK_SIZE rows. */
  function ResponseWriter(chunk: TableWriter): ResponseWrite
  {
    (t: Table, data: seq<Record>) => WriteAll(chunk, t, Chunks.Chunks(data, TransactionChunkSize))
  }

  /** The remaining iterations of the month loop, from date_to on. */
  function Months(r: MonthRun, t: Table, dateTo: Date, left: int, total: int, windows: seq<(Date, Date)>): End<MonthPass>
    requires ValidDate(dateTo)
    decreases left
  {
    if left <= 0 then Finished(MonthPass(t, windows, total))
    else
      var from := MonthStart(dateTo);
      var asked := windows + [(from, dateTo)];
      var data := r.fetch(from, dateTo);
      if data.Err? then ApiError(data.error, MonthPass(t, asked, total))
      else if |data.value| == 0 then Finished(MonthPass(t, asked, total))
      else
        var w := r.write(t, data.value);
        if w.error.Some? then OtherError(MonthPass(w.store, asked, total))
        else
          var prev := PrevDay(from);
          if prev.Err? then OtherError(MonthPass(w.store, asked, total + |data.value|))
          else Months(r, w.store, prev.value, left - 1, total + |data.value|, asked)
  }

  /** The month loop from the last day of the current month on, in
      range(ceil(days / 30) + 1) windows at most. */
  function MonthLoop(r: MonthRun, t: Table, start: Date, days: int): End<MonthPass>
    requires ValidDate(start)
  {
    Months(r, t, start, CeilDiv(days, DaysPerMonthWindow) + 1, 0, [])
  }

  /** api_transactions(shop, api, days): the first date_to as written, which raises in
      December before any call, then the month loop. */
  function ApiTransactions(r: MonthRun, t: Table, days: int): End<MonthPass>
    requires ValidDate(r.today)
  {
    var first := FirstDateToAsWritten(r.today);
    if first.Err? then OtherError(MonthPass(t, [], 0))
    else MonthLoop(r, t, first.value, days)
  }

  /** api_transactions as evidently intended: the month loop from MonthEnd(today) in
      every month, December included. */
  function ApiTransactionsCorrected(r: MonthRun, t: Table, days: int): End<MonthPass>
    requires ValidDate(r.today)
  {
    MonthLoop(r, t, MonthEnd(r.today), days)
  }

  // ---------------------------------------------------------------- the loops

  method WriteAllM(write: TableWriter, t: Table, cs: seq<seq<Record>>) returns (res: Committed<Table>)
    ensures res == WriteAll(write, t, cs)
  {
    var cur := t;
    for i := 0 to |cs|
      invariant WriteAll(write, t, cs) == WriteAll(write, cur, cs[i..])
    {
      assert cs[i..][0] == cs[i] && cs[i..][1..] == cs[i + 1..];
      var w := write(cur, cs[i]);
      if w.Err? {
        return Committed(cur, Some(w.error));
      }
      cur := w.value;
    }
    return Committed(cur, None);
  }

  /** The chunk loop of one response. */
  method WriteResponse(chunk: TableWriter, t: Table, data: seq<Record>) returns (res: Committed<Table>)
    ensures res == ResponseWriter(chunk)(t, data)
  {
    res := WriteAllM(chunk, t, Chunks.Chunks(data, TransactionChunkSize));
  }

  /** The month loop from start on. */
  method MonthLoopM(r: MonthRun, t: Table, start: Date, days: int) returns (res: End<MonthPass>)
    requires ValidDate(start)
    ensures res == MonthLoop(r, t, start, days)
  {
    var n := CeilDiv(days, DaysPerMonthWindow) + 1;
    var dateTo := start;
    var cur := t;
    var total := 0;
    var windows: seq<(Date, Date)> := [];
    var k := 0;
    while k < n
      invariant ValidDate(dateTo)
      invariant MonthLoop(r, t, start, days) == Months(r, cur, dateTo, n - k, total, windows)
      decreases n - k
    {
      var from := MonthStart(dateTo);
      var data := r.fetch(from, dateTo);
      windows := windows + [(from, dateTo)];
      if data.Err? {
        return ApiError(data.error, MonthPass(cur, windows, total));
      }
      if |data.value| == 0 {
        return Finished(MonthPass(cur, windows, total));
      }
      var w := r.write(cur, data.value);
      if w.error.Some? {
        return OtherError(MonthPass(w.store, windows, total));
      }
      cur := w.store;
      total := total + |data.value|;
      var prev := PrevDay(from);
      if prev.Err? {
        return OtherError(MonthPass(cur, windows, total));
      }
      dateTo := prev.value;
      k := k + 1;
    }
    return Finished(MonthPass(cur, windows, total));
  }

  method ApiTransactionsM(r: MonthRun, t: Table, days: int) returns (res: End<MonthPass>)
    requires ValidDate(r.today)
    ensures res == ApiTransactions(r, t, days)
  {
    var first := MakeDate(r.today.year, r.today.month + 1, 1);
    if first.Err? {
      return OtherError(MonthPass(t, [], 0));
    }
    var dateTo := PrevDay(first.value);
    if dateTo.Err? {
      return OtherError(MonthPass(t, [], 0));
    }
    res := MonthLoopM(r, t, dateTo.value, days);
  }

  // ---------------------------------------------------------------- the sync task

  /** What update_transactions leaves: the key, the table, and the result. */
  datatype TransactionTask = TransactionTask(key: Option<ApiKey>, table: Table, result: TaskResult)

  /** update_transactions(apikey_id, days): an exception from get_key escapes. */
  function UpdateTransactions(keyId: Option<nat>, keys: seq<ApiKey>, shops: map<nat, Shop>, now: int,
                              r: MonthRun, t: Table, days: int): Result<TransactionTask>
    requires ValidDate(r.today)
  {
    if keyId.None? then Ok(TransactionTask(None, t, Failure(EmptyKey)))
    else
      var key :- GetKey(keys, shops, keyId, now);
      var e := ApiTransactions(r, t, days);
      var (key', result) := Settle(key, e);
      Ok(TransactionTask(Some(key'), e.value.table, result))
  }

  method UpdateTransactionsM(keyId: Option<nat>, keys: seq<ApiKey>, shops: map<nat, Shop>, now: int,
                             r: MonthRun, t: Table, days: int) returns (res: Result<TransactionTask>)
    requires ValidDate(r.today)
    ensures res == UpdateTransactions(keyId, keys, shops, now, r, t, days)
  {
    if keyId.None? {
      return Ok(TransactionTask(None, t, Failure(EmptyKey)));
    }
    var key := GetKey(keys, shops, keyId, now);
    if key.Err? {
      return Err(key.error);
    }
    var e := ApiTransactionsM(r, t, days);
    var (key', result) := Settle(key.value, e);
    return Ok(TransactionTask(Some(key'), e.value.table, result));
  }
}
