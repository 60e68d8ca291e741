# ka-space synchronisation core in Dafny

ka-space copies a shop's data from the Ozon marketplace APIs into its own PostgreSQL
tables: products, stocks, orders, transactions, analytics, advertising campaigns and their
statistics. It then rolls that data up into one `Daily` row per (shop, date, sku). This
project models the synchronisation core of the Django back end and proves what it promises.
The core covers:

- the generic batch reconciler `bulk_insert_update` with its change rules, and the key
  selection `get_keys` / `get_key`;
- the windowed fetch loops of orders, analytics, transactions and campaign reports;
- the per-record upserts with child mirroring: order lines, products, stock rows,
  campaigns with their product links and history;
- the advertising report queue `check_queue` and its validator `is_correct_report`;
- the `Update_Daily` roll-up statements, as column-isolated upserts on a table keyed by
  (shop, date, sku);
- the Redis-backed `Locking` helper;
- the small pure pieces: the API key form check, `convert_float`, `get_shop_ids`,
  `dict_fetchall`, and the model labels and flags.

How the model represents the system:

- **Stores.** A table is a map from primary key to record, plus the id the next created
  row gets. A record is a map from field name to `Values.Value`. Query order is ascending
  primary key unless the code orders otherwise.
- **Values.** A field the row does not hold reads as `None`, as an unset Django field
  does. `str(...)`, `datetime.fromisoformat`, `strptime` and `float()` of a string are
  the fields of `Values.Env`, total functions left uninterpreted. `json.dumps` is a
  field of `Reports.Maker`, and `json.loads` and `json.dumps` are fields of
  `ReportQueue.Ctx`. The `.5f` formatting
  of a decimal is defined exactly by `Values.Round5` and `Values.Render5`: its sign and its
  exact rounding to five places, so a small negative value renders unlike zero, as
  `-0.00000` does.
- **Time.** Days and seconds are integers passed in as parameters, and so is "today".
  The lock works in whole milliseconds.
- **API calls.** Every call to the marketplace API is a function parameter that returns
  either records or an error. The constants of the unseen `mp_ozon` package are
  positive parameters: `API_LIMIT_DAYS`, `LIMIT_DAYS`, `LIMIT_CAMPAIGNS`,
  `API_LIMIT_METRICS` and `METRICS`.
- **Raw SQL side effects.** The few raw SQL updates the code runs are parameters too.
- **Commits.** No sync task runs inside a database transaction, so every save, create,
  delete and batch write commits on its own. A run that raises hands back the store it
  reached, with every write before the failure kept.
- **Writers.** The transaction, order and analytics runs take their page writer as a
  field (`MonthRun.write`, `Run.write`, `Sweep.write`), so their loop lemmas hold for
  any writer. `TransactionFacts.RealWriter`, `OrderRunFacts.RealWriter` and
  `AnalyticsFacts.RealWriter` say the writer is the one the source uses:
  `transactions2db`, `orders2db` or `analytics2db` for the key's shop, chunk by chunk.
  The `…KeepsOthers` lemmas are proved under these predicates: such a task deletes no row
  and changes no row of another shop.
- **Form of the model.**
  - Each loop of the source is a `method` with a `while` loop, proved equal to a
    recursive specification function (or to agree with it), and the properties are
    lemmas about that function.
  - The `Daily` table, the lock and the Redis store are classes whose methods update
    their fields in place.
  - `convert_float` rewrites an `array` of rows in place.

Where the code's own comments or names suggest otherwise, the model follows the code:

- Two top-level jobs do not catch every exception: an unknown key id makes `get_key`
  raise out of every sync task, and `update_stocks` can raise (see Findings).
- The order, analytics and report windows all have the fixed width `days_max`, so the
  last window is a full one rather than the remaining days.
- The transaction windows are calendar months, not fixed-width windows.
- A second run of the reconciler is not claimed to write nothing. The store's own type
  coercion is not modelled, so the claim is only that a batch which already agrees with
  the store under the change rules writes nothing.

Modules follow the source files:

- `reconciler` / `reconciler_facts`: `bulk_insert_update`, in `backend/mp/helpers/__init__.py`.
- `chunks`, `accounts`: `chunks` and `get_keys`, plus the labels and flags of `backend/mp/models.py`.
- `orders`, `order_facts`, `order_runs`, `order_run_facts`: `update_orders.py`.
- `analytics`, `analytics_facts`: `update_analytics.py`.
- `transactions`, `transaction_facts`, `service_lists`, `calendar`: `update_transactions.py`.
- `products`, `products_facts`: `update_products.py`.
- `stocks`, `stock_facts`: `update_stocks.py`.
- `campaigns`, `campaign_facts`: `update_campaigns.py`.
- `campaign_stats`, `campaign_stats_facts`: `update_campaign_statistics.py`.
- `reports`, `reports_facts`: `create_campaign_report.py`.
- `queue`, `queue_facts`, `queue_order`: `check_campaign_report.py`.
- `daily`, `daily_facts`: `update_daily.py` over the `Daily` model.
- `locking`, `locking_facts`: `locking.py`.
- `views`, `forms`, `rawsql`: the helpers of `api/views.py`, `mp/forms.py` and `api/helpers/db.py`.
- `values`, `wrappers`, `tasks`, `windows`, `collections`: shared definitions.

## Model

| member | source | states |
|---|---|---|
| Values.Get | backend/mp/helpers/__init__.py:133 | getattr on a model instance reads the stored value, and an unset field reads as None |
| Values.Restrict | backend/mp/helpers/__init__.py:113 | the dict comprehension keeps exactly the model's fields, each with its incoming value |
| Values.AsNumber | backend/mp/helpers/__init__.py:142 | float(value) raises on None and reads Decimals and ints as the number they are |
| Values.ItemsOf | backend/mp/tasks/update_orders.py:145 | iterating a child list yields its items; an empty dict or string yields nothing; any other value raises TypeError |
| Values.PyEqReflexive | backend/mp/helpers/__init__.py:133 | the plain `!=` rule never reports a value as changed against itself |
| Values.PyEqBoolInt | backend/mp/helpers/__init__.py:133 | Python's `==` takes True for 1 and False for 0, but never a string for an int |
| Values.Round5Exact | backend/mp/helpers/__init__.py:142 | the `.5f` formatting of a number with at most five decimals is that number exactly |
| Values.Round5Nearest | backend/mp/helpers/__init__.py:142 | with more decimals, the formatted value lies within half a unit of the fifth decimal |
| Values.NegativeZeroRendering | backend/mp/helpers/__init__.py:142 | a value just below zero rounds to the same five decimals as zero but renders with a minus sign, so `.5f` text tells them apart |
| Chunks.Width | backend/mp/helpers/__init__.py:89 | the slice width is n, clamped to at least 1 |
| Chunks.Chunks | backend/mp/helpers/__init__.py:81-90 | the chunks concatenate back to the input; each is non-empty and at most the width long; all but the last are exactly the width; there are none only for an empty input |
| Chunks.ChunksCount | backend/mp/helpers/__init__.py:90 | a non-empty list gives ceil(len / width) chunks |
| Accounts.Mark | backend/mp/models.py:24 | the mark is the check mark exactly when the row is active |
| Accounts.ShopLabel | backend/mp/models.py:23-24 | the label starts with the activity mark and a space and ends with the shop's name |
| Accounts.KeyLabel | backend/mp/models.py:63-64 | the label starts with the activity mark and a space and ends with " / " and the client id |
| Accounts.LabelShowsActivity | backend/mp/models.py:23-24 | an active and an inactive shop never get the same label |
| Accounts.DisabledBoundary | backend/mp/models.py:55-57 | a key disabled till exactly now is neither disabled nor selectable, since `is_disabled` and the selection filter are strict in opposite directions |
| Accounts.UsableIffNotDisabled | backend/mp/helpers/__init__.py:69-74 | an active key of an active shop is selectable exactly when it is not disabled and its disabled_till is not now |
| Accounts.Save | backend/mp/models.py:26-30 | saving a persisted row bumps updated_at to now and keeps created_at; a new row takes now in both stamps |
| Accounts.SaveIdempotent | backend/mp/models.py:26-30 | saving twice at the same instant is the same as saving once |
| Accounts.KeyPairs | backend/mp/models.py:60 | the (shop, client_id) pair of each key, in order |
| Accounts.InsertPair | backend/mp/models.py:60 | an insert fails with IntegrityError exactly when the row has a shop and its pair is taken; otherwise it appends the pair |
| Accounts.InsertKeepsUnique | backend/mp/models.py:60 | an accepted insert keeps the unique_together constraint |
| Accounts.SelfbuyInsert | backend/mp/models.py:88-89 | a Selfbuy row is refused with IntegrityError exactly when its shop is set and a row of that shop already holds the order number, and an accepted row keeps (shop, order) unique |
| Accounts.GetKey | backend/mp/helpers/__init__.py:63-78 | get_key returns a key from the table with that pk that is selectable; it fails with DoesNotExist only when no key with that pk is selectable |
| Accounts.GetKeys | backend/mp/helpers/__init__.py:25-60 | every returned key is eligible (type, active, not disabled, active shop with the token, the given shop); no two share a shop; every shop with an eligible key gets one; the keys come in ascending shop id |
| Accounts.InsertAscending | backend/mp/helpers/__init__.py:43 | inserting a shop id into an ascending list keeps it ascending and adds exactly that id |
| Accounts.SortAscending | backend/mp/helpers/__init__.py:43 | the sort gives the same shop ids, each once, in ascending order |
| Accounts.GroupByShop | backend/mp/helpers/__init__.py:45-48 | the defaultdict groups exactly the eligible keys by their shop, each group non-empty, and lists each shop once |
| Accounts.PickPerShop | backend/mp/helpers/__init__.py:50-53 | one key is picked per shop, in the shops' order, each taken from that shop's group |
| Reconciler.KeyOf | backend/mp/helpers/__init__.py:101 | a row's key is the tuple of the `str` of its key fields, one entry per key field |
| Reconciler.IdRowsOfKeys | backend/mp/helpers/__init__.py:101 | id_rows has one entry per distinct key of the batch, and each entry holds an incoming row with that key |
| Reconciler.ExistingUpToSound | backend/mp/helpers/__init__.py:106-109 | existing_objs maps each key to an in-scope stored row with that key, and every in-scope row has its key there |
| Reconciler.Found | backend/mp/helpers/__init__.py:106-109 | the rows existing_objs holds are rows of the table |
| Reconciler.DiffOf | backend/mp/helpers/__init__.py:127-156 | a found row's diff exists exactly when id_rows has its key (KeyError otherwise); it is matched with that incoming row and its changed fields are model fields of it |
| Reconciler.KeyOrder | backend/mp/helpers/__init__.py:112-116 | the batch's keys in first-appearance order: each distinct key exactly once |
| Reconciler.FreshRows | backend/mp/helpers/__init__.py:121-122 | bulk_create numbers the new rows consecutively from the next free primary key, in order |
| Reconciler.Append | backend/mp/helpers/__init__.py:121-122 | bulk_create advances the next free primary key by the number of rows created |
| Reconciler.DiffRow | backend/mp/helpers/__init__.py:128-156 | the field loop raises exactly when a field's rule or the hook raises; otherwise it yields the changed fields and whether any field asked to skip |
| Reconciler.BulkInsertUpdate | backend/mp/helpers/__init__.py:93-170 | the whole call succeeds exactly when the reconciliation does, with the same table and summary |
| Reconciler.UpdateFound | backend/mp/helpers/__init__.py:124-163 | the update loop raises exactly when some found row's diff raises; otherwise it writes every written row's new contents and returns the count and update_fields |
| Reconciler.DiffFound | backend/mp/helpers/__init__.py:127-131 | the loop body for one found row gives its diff, or raises exactly when the diff does |
| ReconcilerFacts.IdRowsLastWins | backend/mp/helpers/__init__.py:101 | the row id_rows keeps for a key is the last incoming row with that key |
| ReconcilerFacts.FoundInShop | backend/mp/helpers/__init__.py:97-100 | with a shop, only that shop's rows are found |
| ReconcilerFacts.FoundInBatch | backend/mp/helpers/__init__.py:96-98 | a found row holds, in every key field, a value that occurs in the batch |
| ReconcilerFacts.UnmatchedFoundRaises | backend/mp/helpers/__init__.py:127-131 | a found row whose key no incoming row has makes the call raise KeyError |
| ReconcilerFacts.CompositeKeyError | backend/mp/helpers/__init__.py:96-131 | a batch (1,2),(3,4) against a stored row (1,4) raises KeyError, since the per-field IN filter finds the row but id_rows has no entry for its key (lines 96-99 and 127-131) |
| ReconcilerFacts.OkMeans | backend/mp/helpers/__init__.py:96-131 | a successful call had every key field in every row and a diff for every found row (lines 96 and 127-131) |
| ReconcilerFacts.RowsOutsideFoundUntouched | backend/mp/helpers/__init__.py:117-163 | rows that were not found keep their contents, no row is deleted, and the created rows take the next keys in order (lines 117-122 and 163) |
| ReconcilerFacts.ReconcileKeepsOthers | backend/mp/helpers/__init__.py:93-163 | a reconciliation scoped to a shop deletes no row, keeps the table valid and leaves every row that is not the shop's as it was |
| ReconcilerFacts.FoundRowsUpdated | backend/mp/helpers/__init__.py:150-163 | a found row that changed and was not skipped is stored with its changed fields written; any other found row keeps its contents |
| ReconcilerFacts.OnlyChangedColumnsWritten | backend/mp/helpers/__init__.py:159-163 | bulk_update writes only update_fields: every other column of every old row keeps its value (lines 159 and 163) |
| ReconcilerFacts.CreatesOfShape | backend/mp/helpers/__init__.py:112-120 | each created row is the model-field part of the incoming row of a key with no existing row, plus the shop |
| ReconcilerFacts.CreatesOfCount | backend/mp/helpers/__init__.py:112-116 | one row is created per distinct unmatched key |
| ReconcilerFacts.NewRecordShape | backend/mp/helpers/__init__.py:118 | a created row holds model fields only, its incoming values, and the shop when one is given |
| ReconcilerFacts.CreatedRowShape | backend/mp/helpers/__init__.py:112-120 | each created row comes from an incoming key that matched nothing, has model fields only and carries the shop |
| ReconcilerFacts.ExistingKeysIncoming | backend/mp/helpers/__init__.py:127-131 | in a successful call every existing key is an incoming key |
| ReconcilerFacts.CreatesCount | backend/mp/helpers/__init__.py:112-169 | the number created is the number of incoming keys with no existing row (lines 112-116 and 169) |
| ReconcilerFacts.EveryKeyMatchedOrCreated | backend/mp/helpers/__init__.py:165-169 | every incoming key is either found or created, never both: found + created == received |
| ReconcilerFacts.SameValueUnchanged | backend/mp/helpers/__init__.py:133-142 | a value compared with itself is unchanged, except a datetime, which must arrive as a string |
| ReconcilerFacts.DateTimeRule | backend/mp/helpers/__init__.py:137-139 | a stored datetime is unchanged exactly when the incoming string parses to it; a non-string raises TypeError and an unparsable one ValueError |
| ReconcilerFacts.DecimalRule | backend/mp/helpers/__init__.py:140-142 | a Decimal is compared at five places: None raises, numbers differing only after the fifth decimal are equal, 5 equals 5.00000 |
| ReconcilerFacts.FallbackRule | backend/mp/helpers/__init__.py:133 | the fallback rule is Python's `!=`: True against 1 is unchanged, "1" against 1 is changed |
| ReconcilerFacts.EqualRowAgrees | backend/mp/helpers/__init__.py:133-142 | a stored row holding exactly the incoming values (no datetimes) agrees with them under the rules |
| ReconcilerFacts.AgreeingRowUnchanged | backend/mp/helpers/__init__.py:127-156 | without a hook, an agreeing row diffs to no change and no skip |
| ReconcilerFacts.AgreeingBatchWritesNothing | backend/mp/helpers/__init__.py:157-163 | a batch that agrees with every found row writes nothing: no row updated, no column in update_fields, every old row unchanged |
| ReconcilerFacts.SkippedRowKept | backend/mp/helpers/__init__.py:144-157 | a row the hook asks to skip keeps its contents, whatever else changed (lines 144-148 and 157) |
| Tasks.Settle | backend/mp/tasks/update_transactions.py:40-52 | the sync task succeeds exactly when the run finishes; an API error fails it with that error and any other exception with a generic failure; only a rejected key (ErrorBadApiKey) is switched off, and nothing else about the key changes |
| Calendar.DaysIn | backend/mp/tasks/update_transactions.py:64 | a month has between 28 and 31 days |
| Calendar.MakeDate | backend/mp/tasks/update_transactions.py:64-67 | `date(y, m, d)` succeeds exactly for a valid date and raises ValueError otherwise (lines 64 and 67) |
| Calendar.MonthStart | backend/mp/tasks/update_transactions.py:67 | the first day of the date's month |
| Calendar.MonthEnd | backend/mp/tasks/update_transactions.py:64 | the last day of the date's month, not before the date |
| Calendar.PrevDay | backend/mp/tasks/update_transactions.py:83 | the day before, rolling over month and year ends; OverflowError only before 1 January of year 1 |
| Calendar.SameMonth | backend/mp/tasks/update_transactions.py:67 | two dates with the same month index lie in the same month |
| Transactions.TransactionChanged | backend/mp/tasks/update_transactions.py:95-106 | the hook leaves the verdict alone unless the field changed, is "services" and the stored type is "orders"; it can only clear a change; it skips only a change to an empty list |
| Transactions.TransactionsToDb | backend/mp/tasks/update_transactions.py:93-115 | transactions2db is the reconciler keyed by operation_id within the shop, through the hook |
| Transactions.WriteAllM | backend/mp/tasks/update_transactions.py:78-79 | the chunk loop writes the chunks one after another, each committed on its own, and stops at the first failure with the chunks before it kept |
| Transactions.MonthLoopM | backend/mp/tasks/update_transactions.py:66-83 | the month loop computes the windows, the table and total_rows as the month-window function gives |
| Transactions.WriteResponse | backend/mp/tasks/update_transactions.py:78-79 | one response is written as its chunks of at most 5000 rows |
| Transactions.ApiTransactionsM | backend/mp/tasks/update_transactions.py:60-90 | api_transactions as written: date(y, m + 1, 1) minus a day first, which fails in December before any call, then the month loop, as the month-window function gives |
| Transactions.UpdateTransactionsM | backend/mp/tasks/update_transactions.py:24-57 | the sync task fails without a key id, lets get_key's exception escape, settles the run's end, and keeps the table the run reached, a failed run's included |
| TransactionFacts.DecemberFails | backend/mp/tasks/update_transactions.py:64 | as written, the first date_to raises ValueError whenever the current month is December |
| TransactionFacts.FirstDateToOtherMonths | backend/mp/tasks/update_transactions.py:64 | in every other month it is the last day of the current month |
| TransactionFacts.WindowRowsAppend | backend/mp/tasks/update_transactions.py:80 | the row count of two runs of windows adds up |
| TransactionFacts.MonthsWindows | backend/mp/tasks/update_transactions.py:66-83 | from a month's last day, the k-th further window is the whole month k months back, and there are at most as many windows as iterations left |
| TransactionFacts.MonthsAnswered | backend/mp/tasks/update_transactions.py:69-77 | every window was fetched, all but the last with rows, and a loop cut short ended on an empty response |
| TransactionFacts.MonthsPrefix | backend/mp/tasks/update_transactions.py:66-83 | the windows already recorded stay in front |
| TransactionFacts.MonthsTotal | backend/mp/tasks/update_transactions.py:80 | total_rows is the number of rows of the responses |
| TransactionFacts.TransactionSchedule | backend/mp/tasks/update_transactions.py:63-83 | for the corrected run from the end of the current month, December included: at most ceil(days/30)+1 calls; the k-th window is the whole calendar month k months back; consecutive windows are gapless; every response but the last has rows; a run cut short ended on an empty one; total_rows counts the rows |
| TransactionFacts.MonthsChain | backend/mp/tasks/update_transactions.py:83 | the day before each window's first day is the next window's last day |
| TransactionFacts.WriteAllStops | backend/mp/tasks/update_transactions.py:78-79 | the chunk writes of a response stop at the first failing chunk, and the table is the one the chunks before it reach; without a failure every chunk is written |
| TransactionFacts.MonthsStore | backend/mp/tasks/update_transactions.py:66-83 | however the month loop ends, its table is the one its calls' responses, written in order, reach: a failure keeps everything written before it |
| TransactionFacts.TransactionRunStore | backend/mp/tasks/update_transactions.py:60-90 | as written, a December run fails before any call with the table unchanged; other months run from the end of the month; either way the table is the one the responses, written in order, reach, and the k-th window is the whole month k months back |
| TransactionFacts.HookReads | backend/mp/tasks/update_transactions.py:95-106 | the hook reads of the stored row only "type" and the field it is called for: setting any other field first leaves its verdict unchanged |
| TransactionFacts.HookVerdict | backend/mp/tasks/update_transactions.py:99-106 | for an order transaction, a services change stands exactly when the two lists hold different services in any order, and it is skipped exactly when the new list is empty |
| TransactionFacts.ReorderedServicesUnchanged | backend/mp/tasks/update_transactions.py:100-102 | reordering the services of an order transaction is not a change |
| TransactionFacts.EmptiedServicesSkipped | backend/mp/tasks/update_transactions.py:103-105 | emptying the services of an order transaction is a change that is skipped |
| TransactionFacts.TransactionTaskOutcome | backend/mp/tasks/update_transactions.py:38-57 | the sync task succeeds exactly when the run finishes, so never in December; a rejected key is switched off and others kept; the table is the one the responses, written in order, reach, so a failed run keeps the windows written before it |
| TransactionFacts.WriteAllKeepsOthers | backend/mp/tasks/update_transactions.py:78-79 | the chunk writes of one response through transactions2db delete no row and leave other shops' rows alone, up to the failing chunk |
| TransactionFacts.RealWriterKeeping | backend/mp/tasks/update_transactions.py:78-79 | a run that writes each response through transactions2db for the shop keeps other shops' rows on every write |
| TransactionFacts.MonthsKeepsOthers | backend/mp/tasks/update_transactions.py:66-83 | however the month loop ends, it has deleted no row and changed no row of another shop |
| TransactionFacts.TransactionTaskKeepsOthers | backend/mp/tasks/update_transactions.py:38-83 | update_transactions, for a key of the shop and with responses written by transactions2db for that shop, deletes no transaction and changes none of another shop, whatever the API answers, December included |
| ServiceLists.StrLeRefl | backend/mp/tasks/update_transactions.py:100 | Python's string order is reflexive |
| ServiceLists.StrLeTotal | backend/mp/tasks/update_transactions.py:100 | and total |
| ServiceLists.StrLeTrans | backend/mp/tasks/update_transactions.py:100 | and transitive |
| ServiceLists.StrLeAntisym | backend/mp/tasks/update_transactions.py:100 | and antisymmetric |
| ServiceLists.NameOf | backend/mp/tasks/update_transactions.py:100 | `d["name"]` succeeds exactly for a dict with a string name, and gives that name |
| ServiceLists.CheckNames | backend/mp/tasks/update_transactions.py:100-101 | sorting raises exactly when some item's key raises, with that item's error |
| ServiceLists.InsertFacts | backend/mp/tasks/update_transactions.py:100 | inserting into a sorted list keeps it sorted and adds exactly that item |
| ServiceLists.SortFacts | backend/mp/tasks/update_transactions.py:100-101 | `sorted` by name gives a sorted permutation of its input |
| ServiceLists.InsertOfName | backend/mp/tasks/update_transactions.py:100 | insertion puts an item after the items of its own name |
| ServiceLists.SortStable | backend/mp/tasks/update_transactions.py:100-101 | the sort is stable: the items of each name keep their order |
| ServiceLists.HeadsShareName | backend/mp/tasks/update_transactions.py:102 | two sorted orders of the same items start with items of the same name |
| ServiceLists.HeadStep | backend/mp/tasks/update_transactions.py:102 | so, when a name determines its item, they start with the same item |
| ServiceLists.SortedUnique | backend/mp/tasks/update_transactions.py:102 | two sorted orders of the same items are equal when a name determines its item |
| ServiceLists.SortedDiffer | backend/mp/tasks/update_transactions.py:100-102 | the two sorted lists differ exactly when the lists differ as multisets, provided a name determines its item in the stored list |
| Windows.Min | backend/mp/tasks/update_orders.py:80 | `days if days < limit else limit` is the smaller of the two |
| Windows.Max | backend/mp/tasks/update_orders.py:76 | `max(days, days_ago)` is the larger of the two |
| Windows.FloorDiv | backend/mp/tasks/update_orders.py:81 | Python's floor division brackets the quotient from below, for either sign of the divisor |
| Windows.CeilDiv | backend/mp/tasks/update_orders.py:81 | `math.ceil(a / b)` is the least integer not below the quotient |
| Windows.Periods | backend/mp/tasks/update_orders.py:81 | the number of windows is ceil(days / days_max), and days_max == 0 raises ZeroDivisionError |
| Windows.PeriodsCover | backend/mp/tasks/update_orders.py:81 | a positive horizon gets at least one window, and the windows together cover it |
| Windows.SingleWindow | backend/mp/tasks/update_orders.py:80-81 | a horizon within the limit is a single window |
| Orders.FirstMatch | backend/mp/tasks/update_orders.py:238-244 | no match exactly when no SKU_Offer row matches; otherwise the product of the first matching row |
| Orders.LineIds | backend/mp/tasks/update_orders.py:155-157 | exactly the stored lines of that order and product |
| Orders.GetOrCreate | backend/mp/tasks/update_orders.py:155-157 | get_or_create raises MultipleObjectsReturned for more than one match; otherwise it returns the one match unchanged, or adds exactly one new line at the next key, touching no other line |
| Orders.DiffLine | backend/mp/tasks/update_orders.py:159-178 | the line's field loop raises exactly when a rule raises, and otherwise yields the changed fields |
| Orders.UpsertLineM | backend/mp/tasks/update_orders.py:145-180 | one product line: tagged with the order id, its product looked up, got or created, its fields diffed and saved only on change |
| Orders.MirrorOrderM | backend/mp/tasks/update_orders.py:141-184 | one order: found in existing_objs, its lines upserted in order, then its absent lines deleted |
| Orders.OrdersToDbM | backend/mp/tasks/update_orders.py:107-184 | orders2db: the orders reconciled by (order_id, posting_number) within the shop, then every order's lines mirrored |
| OrderFacts.LineChangedReflexive | backend/mp/tasks/update_orders.py:163-172 | a value compared with itself is never a change under the line rules |
| OrderFacts.SavedLineAgrees | backend/mp/tasks/update_orders.py:173-178 | after the field loop the line agrees with every incoming model field |
| OrderFacts.UpsertedLineAgrees | backend/mp/tasks/update_orders.py:145-180 | after one upsert, the line of (order, product) exists and agrees with every incoming model field |
| OrderFacts.LineTaggedWithOrder | backend/mp/tasks/update_orders.py:146 | every upserted line carries its order's order_id |
| OrderFacts.AgreeingLineNotSaved | backend/mp/tasks/update_orders.py:179-180 | an existing line that already agrees with the incoming one is left as it was |
| OrderFacts.UpsertLineKeepsOthers | backend/mp/tasks/update_orders.py:145-180 | one line's upsert leaves the lines of other orders alone |
| OrderFacts.UpsertLinesKeepOthers | backend/mp/tasks/update_orders.py:145-180 | and so do all of one order's upserts |
| OrderFacts.MirrorOrderShape | backend/mp/tasks/update_orders.py:182-184 | after one order is mirrored, each of its stored lines has a sku among the incoming skus, and other orders' lines are as they were |
| OrderFacts.LostProductLine | backend/mp/tasks/update_orders.py:243-247 | a product with no matching SKU_Offer row is looked up as None |
| OrderFacts.FirstMatchSkips | backend/mp/tasks/update_orders.py:230-247 | an SKU_Offer row that does not match may sit anywhere in the table without changing the product get_product finds |
| OrderFacts.OtherShopIgnored | backend/mp/tasks/update_orders.py:241 | an offer of another shop is never used, whatever it matches: adding one anywhere in the SKU_Offer table leaves the product found as it was |
| OrderRuns.OldestUpTo | backend/mp/tasks/update_orders.py:68-69 | no minimum exactly when the shop has no open order; otherwise the least created_at of its open orders |
| OrderRuns.WritePage | backend/mp/tasks/update_orders.py:89-91 | a non-empty page is written as its chunks of at most 3000 orders, one after another |
| OrderRuns.ApiOrdersM | backend/mp/tasks/update_orders.py:64-98 | api_orders widens the horizon and then runs the window loop, as the schedule function gives |
| OrderRuns.PagesM | backend/mp/tasks/update_orders.py:78-98 | the window loop steps date_to back by days_max, writes each non-empty page and stops at the first empty one |
| OrderRuns.UpdateOrdersM | backend/mp/tasks/update_orders.py:27-61 | the sync task fails without a key id, lets get_key's exception escape, fetches FBO then FBS, settles the first failure, and keeps the stores the runs reached, a failed run's included |
| OrderRunFacts.PagesDates | backend/mp/tasks/update_orders.py:81-98 | the k-th call of the loop asks for date_to − k·days_max, and there are at most as many calls as periods left (lines 81-84 and 98) |
| OrderRunFacts.PagesStop | backend/mp/tasks/update_orders.py:89-95 | every page was delivered, all but the last non-empty, and a loop that made fewer calls than periods stopped on an empty page |
| OrderRunFacts.PageSumAppend | backend/mp/tasks/update_orders.py:92 | the rows of two runs of pages add up |
| OrderRunFacts.PagesTotal | backend/mp/tasks/update_orders.py:92 | total_rows is the number of rows of the pages fetched |
| OrderRunFacts.ApiOrdersSchedule | backend/mp/tasks/update_orders.py:78-98 | a finished run makes at most ceil(days/days_max) calls; the k-th asks for today − k·days_max, so consecutive windows share their boundary day; all pages but the last non-empty; a short run ended on an empty page; total_rows sums the pages |
| OrderRunFacts.EmptyShopYear | backend/mp/tasks/update_orders.py:70-72 | a shop without open orders is fetched over 360 days |
| OrderRunFacts.HorizonWidens | backend/mp/tasks/update_orders.py:73-76 | otherwise the horizon is the larger of the requested days and the oldest open order's age capped at API_LIMIT_DAYS |
| OrderRunFacts.ZeroHorizonFails | backend/mp/tasks/update_orders.py:80-81 | a zero horizon divides by zero |
| OrderRunFacts.PositiveHorizonPeriods | backend/mp/tasks/update_orders.py:80-81 | with a positive API limit, a positive horizon gives a period count |
| OrderRunFacts.RejectedKeyStopsTask | backend/mp/tasks/update_orders.py:45-52 | a key the API rejects while fetching FBO orders is switched off, the sync task fails, and FBS is not fetched |
| OrderRunFacts.TaskSucceeds | backend/mp/tasks/update_orders.py:36-61 | the sync task succeeds exactly when there is a key id and both runs finish |
| OrderRunFacts.WriteChunksStops | backend/mp/tasks/update_orders.py:89-91 | the chunk writes of a page stop at the first failing chunk: the store is the chunks before it plus what the failing chunk committed |
| OrderRunFacts.PagesStore | backend/mp/tasks/update_orders.py:78-98 | however the window loop ends, its store is the one its pages, written in order, reach |
| OrderRunFacts.OrdersStore | backend/mp/tasks/update_orders.py:64-98 | a zero horizon fails before any call; otherwise the store is the one the fetched pages, written in order, reach |
| OrderRunFacts.OrdersTaskStores | backend/mp/tasks/update_orders.py:36-61 | whatever the outcome, the FBO store is the one its run reached, and the FBS store is the one its run reached when FBO finished and untouched otherwise |
| OrderRunFacts.OrdersToDbKeepsOthers | backend/mp/tasks/update_orders.py:107-125 | orders2db deletes no order and changes no order of another shop, up to its failure |
| OrderRunFacts.WriteChunksKeepsOthers | backend/mp/tasks/update_orders.py:89-91 | the same for the chunk writes of one page |
| OrderRunFacts.RealWriterKeeping | backend/mp/tasks/update_orders.py:89-91 | a run that writes each page through orders2db for the shop keeps other shops' orders on every write |
| OrderRunFacts.PagesKeepOthers | backend/mp/tasks/update_orders.py:78-98 | however the window loop ends, it has deleted no order and changed no order of another shop |
| OrderRunFacts.ApiOrdersKeepOthers | backend/mp/tasks/update_orders.py:64-98 | the same for api_orders, a zero horizon included |
| OrderRunFacts.OrdersTaskKeepsOthers | backend/mp/tasks/update_orders.py:36-56 | update_orders, for a key of the shop and with FBO and FBS pages written by orders2db for that shop, deletes no order and changes none of another shop in either table, however it ends |
| Analytics.AnalyticsToDb | backend/mp/tasks/update_analytics.py:118-131 | analytics2db is the reconciler keyed by (date, sku) within the shop |
| Analytics.ChunkRunM | backend/mp/tasks/update_analytics.py:89-110 | the period loop of one metrics chunk, as the chunk function gives |
| Analytics.ApiAnalyticsM | backend/mp/tasks/update_analytics.py:67-115 | api_analytics: days_limit, days_max and total_periods, then every metrics chunk from today, as the sweep function gives |
| Analytics.UpdateAnalyticsM | backend/mp/tasks/update_analytics.py:25-64 | the sync task fails without a key id, lets get_key's exception escape, handles the rate limit, the bad key and any other exception in that order, and keeps the table the sweep reached, a failed sweep's included |
| AnalyticsFacts.RowsAppend | backend/mp/tasks/update_analytics.py:107 | the rows of two runs of calls add up |
| AnalyticsFacts.ChunkCallsAt | backend/mp/tasks/update_analytics.py:89-110 | the k-th call of a chunk asks for the window ending at today − k·days_max (lines 89-91 and 110) |
| AnalyticsFacts.ChunkRunCalls | backend/mp/tasks/update_analytics.py:90-110 | a finished chunk makes exactly its periods' calls, with no early stop |
| AnalyticsFacts.ChunkRunTotal | backend/mp/tasks/update_analytics.py:105-107 | a finished chunk counts the rows its calls delivered |
| AnalyticsFacts.ChunkRunAnswered | backend/mp/tasks/update_analytics.py:96-103 | in a finished chunk every request was answered or failed with ErrorRequest |
| AnalyticsFacts.ChunksRun | backend/mp/tasks/update_analytics.py:88-110 | a finished sweep makes the whole schedule and counts every delivered row |
| AnalyticsFacts.PerChunk | backend/mp/tasks/update_analytics.py:88-91 | the calls of each metrics chunk, chunk by chunk |
| AnalyticsFacts.ScheduleAt | backend/mp/tasks/update_analytics.py:88-91 | the schedule is the chunks' calls one chunk after another: chunks × total_periods calls |
| AnalyticsFacts.AnalyticsSchedule | backend/mp/tasks/update_analytics.py:84-110 | a finished sweep has days_max ≠ 0, makes chunks × ceil(days/days_max) calls, each chunk from today backwards, every request answered or failed with ErrorRequest, and total_rows counts the delivered rows |
| AnalyticsFacts.ChunksAnswered | backend/mp/tasks/update_analytics.py:96-103 | in a finished sweep every request was answered or failed with ErrorRequest |
| AnalyticsFacts.ChunkCallsClamp | backend/mp/tasks/update_analytics.py:90 | a non-positive period count makes no call, as zero periods do |
| AnalyticsFacts.ScheduleClamp | backend/mp/tasks/update_analytics.py:88-90 | the same for the whole schedule |
| AnalyticsFacts.AnalyticsCoverage | backend/mp/tasks/update_analytics.py:84-91 | every window is a full days_max, so each chunk reaches back at least days days and by less than one window more; a single window suffices exactly when days is within days_limit |
| AnalyticsFacts.DaysStepRule | backend/mp/tasks/update_analytics.py:79-84 | days_step is used only when given and below API_LIMIT_DAYS, otherwise the limit; days_max is the smaller of days and that |
| AnalyticsFacts.ZeroWindowFails | backend/mp/tasks/update_analytics.py:84-87 | days = 0 gives days_max = 0 and a division by zero |
| AnalyticsFacts.FailedRequestsSkipped | backend/mp/tasks/update_analytics.py:101-106 | a request failing with ErrorRequest is an empty page and the loop goes on: if all fail, the table is untouched and no rows are counted |
| AnalyticsFacts.OtherApiErrorStops | backend/mp/tasks/update_analytics.py:96-103 | any other API exception ends the sweep with that exception |
| AnalyticsFacts.SweptAppend | backend/mp/tasks/update_analytics.py:88-110 | calls that all went through can be written first and the rest after |
| AnalyticsFacts.ChunkRunStore | backend/mp/tasks/update_analytics.py:89-110 | however a chunk ends, its table is the one its calls' pages, written in order, reach, and it ends normally exactly when none of them failed |
| AnalyticsFacts.MetricChunksStore | backend/mp/tasks/update_analytics.py:88-110 | the same for the whole sweep over the metrics chunks |
| AnalyticsFacts.AnalyticsStore | backend/mp/tasks/update_analytics.py:67-115 | a zero days_max fails before any call; otherwise the table is the one the calls' pages reach, and the run finishes exactly when no call or write failed |
| AnalyticsFacts.AnalyticsTaskOutcome | backend/mp/tasks/update_analytics.py:39-64 | the sync task succeeds exactly when the sweep finishes; a rate limit fails it without touching the key; a bad key switches it off; the table is the one the pages, written in order, reach, so a failed sweep keeps the pages written before it |
| AnalyticsFacts.RealWriterKeeping | backend/mp/tasks/update_analytics.py:104-106 | a sweep that writes each page through analytics2db for the shop keeps other shops' rows on every write |
| AnalyticsFacts.ChunkRunKeepsOthers | backend/mp/tasks/update_analytics.py:89-110 | however a metrics chunk ends, it has deleted no row and changed no row of another shop |
| AnalyticsFacts.MetricChunksKeepOthers | backend/mp/tasks/update_analytics.py:88-110 | the same for the whole sweep over the metrics chunks |
| AnalyticsFacts.AnalyticsTaskKeepsOthers | backend/mp/tasks/update_analytics.py:39-110 | update_analytics, for a key of the shop and with pages written by analytics2db for that shop, deletes no row and changes none of another shop, however it ends |
| Products.ProductIds | backend/mp/tasks/update_products.py:40 | the list of product_ids, in order; KeyError exactly when a product has none |
| Products.FetchAll | backend/mp/tasks/update_products.py:41-49 | one response per chunk of ids, in order; the first failing call's error otherwise |
| Products.ChainGet | backend/mp/tasks/update_products.py:74-76 | ChainMap lookup: found exactly when some chunk's response holds the id, and then it is that response's record; KeyError otherwise |
| Products.Merged | backend/mp/tasks/update_products.py:71-80 | the merged field map has model fields only, holds "state" exactly when the model has it, with the listed product's state; a product without product_id raises KeyError |
| Products.Fixed5 | backend/mp/tasks/update_products.py:90 | `.5f` of a Decimal is its sign and its exact five-place rounding, and of a string raises ValueError |
| Products.FieldUpdateRules | backend/mp/tasks/update_products.py:81-90 | a "_at" field needs a parsable string and changes when the stored value is not that instant; a Decimal field reads None as 0; any other field changes when the values differ under == |
| Products.Rule | backend/mp/tasks/update_products.py:81-94 | the per-field rule with the runtime's conversions fixed |
| Products.Verdicts | backend/mp/tasks/update_products.py:71-94 | one verdict per merged field |
| Products.ApplyFields | backend/mp/tasks/update_products.py:71-94 | the field loop fails exactly when some field's rule raises, with an exception some raising field raises, and with that field's own exception when only one kind is raised (a ValueError from an unparsable `_at` text or a text against a Decimal stays a ValueError); otherwise changed_fields lists merged fields only, and the product gains exactly those fields with every other field kept |
| Products.Assign | backend/mp/tasks/update_products.py:57-69 | the product ends up with the sync task's shop; a product held by another shop switches that shop off; a product pointing to a missing shop raises |
| Products.Prepare | backend/mp/tasks/update_products.py:55-69 | get_or_create by id: a new product holds only its id; an existing one is kept; either way it is handed to the shop |
| Products.ToDelete | backend/mp/tasks/update_products.py:101-103 | the rows to delete are exactly the shop's products whose id was not listed |
| Products.FetchAllM | backend/mp/tasks/update_products.py:41-49 | the comprehension over chunks of ids, as FetchAll |
| Products.ApplyFieldsM | backend/mp/tasks/update_products.py:71-94 | the loop over the merged fields, as ApplyFields |
| Products.ProductStepM | backend/mp/tasks/update_products.py:53-98 | one iteration of the product loop |
| Products.StepsM | backend/mp/tasks/update_products.py:52-98 | the product loop returns exactly what the loop specification gives: each product's step in list order, stopping at the first that raises |
| Products.RefreshProductsM | backend/mp/tasks/update_products.py:37-109 | after get_key, the fetches, the loop and the delete leave exactly what update_products' specification gives: the report, or the first error with the products saved before it; the report's deleted count is the corrected one of Findings row 2 |
| Products.UpdateProductsM | backend/mp/tasks/update_products.py:19-109 | the sync task: nothing without a key id, otherwise the fetches, the product loop and the delete, as the specification function gives |
| ProductFacts.MergedPrecedence | backend/mp/tasks/update_products.py:73-78 | later sources win: attribute over info over price, "state" from the product list; a field none holds is absent |
| ProductFacts.PlainSettles | backend/mp/tasks/update_products.py:87-94 | the value a plain or Decimal field is set to compares unchanged with the same API value again |
| ProductFacts.FieldSettles | backend/mp/tasks/update_products.py:81-94 | the same for every field, "_at" fields included |
| ProductFacts.RuleSettles | backend/mp/tasks/update_products.py:81-94 | the rule of update_products settles |
| ProductFacts.OneFieldRaises | backend/mp/tasks/update_products.py:81-90 | when exactly one merged field's rule raises, the field loop raises that field's own exception |
| ProductFacts.NothingChanges | backend/mp/tasks/update_products.py:91-94 | a field loop in which no field changes leaves the product as it was |
| ProductFacts.SettledAt | backend/mp/tasks/update_products.py:91-94 | after the loop, each merged field compares unchanged against the new product |
| ProductFacts.ApplyFieldsSettles | backend/mp/tasks/update_products.py:71-94 | running the field loop again on the product it produced changes no field |
| ProductFacts.StepFrame | backend/mp/tasks/update_products.py:53-98 | one step leaves other products alone, keeps the product's row, counts it at most once, and only switches shops off, never the sync task's own |
| ProductFacts.StepSaves | backend/mp/tasks/update_products.py:95-97 | the product is saved and counted exactly when some merged field changed; otherwise its row stays as get_or_create left it |
| ProductFacts.HandOver | backend/mp/tasks/update_products.py:59-97 | a product held by another shop switches that shop off, and passes to the sync task's shop in the store only when another field also changed (lines 59-69 and 95-97) |
| ProductFacts.Created | backend/mp/tasks/update_products.py:55-97 | a new product is created holding its id only, and holds the sync task's shop once saved (lines 55-58 and 95-97) |
| ProductFacts.StepRepeats | backend/mp/tasks/update_products.py:53-98 | handling the same product again with the same responses changes nothing and counts nothing |
| ProductFacts.PrepareRepeats | backend/mp/tasks/update_products.py:55-69 | get_or_create then finds the row the first pass left |
| ProductFacts.PrepareSaved | backend/mp/tasks/update_products.py:57-69 | a product saved with the sync task's shop is found held by it, so there is no hand-over |
| ProductFacts.ListedSplit | backend/mp/tasks/update_products.py:102 | the listed ids of a list are those of its head and its tail |
| ProductFacts.StepsRows | backend/mp/tasks/update_products.py:53-98 | the loop touches only the listed products, and each of them has a row afterwards |
| ProductFacts.StepFailKeeps | backend/mp/tasks/update_products.py:53-98 | a step that raises saves nothing: stored rows are unchanged, the only new row is the one get_or_create made holding its id alone, total is unchanged, and shops are only switched off, never the own shop |
| ProductFacts.StepKeeps | backend/mp/tasks/update_products.py:53-98 | whether it finishes or raises, a step keeps every other row, adds at most the product's row, counts at most one, and only switches shops off, never the own shop |
| ProductFacts.StepsKeep | backend/mp/tasks/update_products.py:52-98 | whether the loop finishes or raises, it deletes no row, leaves unlisted rows as they were, counts at most one save per listed product, and only switches shops off, never the own shop |
| ProductFacts.StepsStops | backend/mp/tasks/update_products.py:52-98 | the loop runs the products in order up to the first that raises; a failed loop leaves the store the products before it reached, with what the failing step committed on top |
| ProductFacts.RefreshCalls | backend/mp/tasks/update_products.py:40-49 | the ids go out in chunks of at most 1000 that together are the product list in order, and every info, price and attribute call was answered |
| ProductFacts.RefreshOutcome | backend/mp/tasks/update_products.py:53-107 | afterwards no product of the shop is outside the list; every listed product has a row; an unlisted row is deleted exactly when it is the shop's; the deleted count is the corrected one of Findings row 2, the number of rows the delete removes (the source reports 0); total is at most the list |
| ProductFacts.RefreshShops | backend/mp/tasks/update_products.py:64-67 | a run only switches shops off, and never the sync task's own |
| ProductFacts.RefreshErrors | backend/mp/tasks/update_products.py:38-40 | the run fails with the product list's error, and with KeyError when a product has no product_id |
| ProductFacts.RefreshFails | backend/mp/tasks/update_products.py:37-98 | a run that raises deletes nothing and reports no deletion: every stored row is still there, unlisted rows are as they were, and total is at most the list |
| ProductFacts.DeletedCountAsWritten | backend/mp/tasks/update_products.py:104-107 | as written, len(to_delete) after delete() runs the query again and gives 0, which differs from the number deleted whenever a row was deleted |
| ProductFacts.DeletedCount | backend/mp/tasks/update_products.py:101-107 | the intended count is the number of rows the delete took out, and those are exactly the shop's unlisted rows |
| ProductFacts.UpdateProductsKeeps | backend/mp/tasks/update_products.py:19-109 | without a key id or when the sync task raises, no row is deleted; a reported run had a key and a product list, and deleted only the key shop's unlisted rows |
| Products.UpdateProducts | backend/mp/tasks/update_products.py:19-37 | the sync task ends without a key id exactly when there is none; get_key's exception escapes with the catalog untouched; otherwise it reports the run's counts or lets its exception escape, keeping the catalog the run reached |
| Stocks.LookupKey | backend/mp/tasks/update_stocks.py:80-83 | the lookup key is the shop plus the record's key fields, with their record values |
| Stocks.MatchIds | backend/mp/tasks/update_stocks.py:84 | exactly the rows get_or_create would find, ascending |
| Stocks.GetOrCreate | backend/mp/tasks/update_stocks.py:84-132 | MultipleObjectsReturned exactly for several matches; IntegrityError exactly when nothing matched and the store rejects the new row; otherwise the one match unchanged, or the table plus one new row holding the key (lines 84 and 127-132) |
| Stocks.Rule | backend/mp/tasks/update_stocks.py:90-95 | the stock field rule is update_products' rule without the timestamp case |
| Stocks.UpsertStep | backend/mp/tasks/update_stocks.py:78-105 | the record handler is the per-record upsert |
| Stocks.PartOf | backend/mp/tasks/update_stocks.py:45-55 | a run's result is its count when it finished, and the error text otherwise |
| Stocks.ShopProducts | backend/mp/tasks/update_stocks.py:41 | exactly the products of the shop |
| Stocks.UpsertM | backend/mp/tasks/update_stocks.py:78-105 | one record: get_or_create, the field loop, and a save only when something changed |
| Stocks.UpsertAllM | backend/mp/tasks/update_stocks.py:77-150 | the loop over the records, counting saves, as the loop function gives (lines 77-109 and 125-150) |
| Stocks.ApiStocksM | backend/mp/tasks/update_stocks.py:72-109 | a failed fetch raises and leaves the table; otherwise the record loop |
| Stocks.UpdateStocksM | backend/mp/tasks/update_stocks.py:22-69 | update_stocks with the result built whether or not the shop has products |
| StockFacts.RuleSettles | backend/mp/tasks/update_stocks.py:90-99 | a value written compares unchanged with its input again |
| StockFacts.RuleSteady | backend/mp/tasks/update_stocks.py:90-95 | a field already holding the incoming value is unchanged |
| StockFacts.OnlyMatch | backend/mp/tasks/update_stocks.py:84 | a row that alone matches the key is the one get_or_create finds |
| StockFacts.GetOrCreateFrame | backend/mp/tasks/update_stocks.py:84 | get_or_create keeps every row, adds at most a new row at the next id, and returns a row that matches |
| StockFacts.UpsertShape | backend/mp/tasks/update_stocks.py:84-105 | a failed lookup leaves the table; otherwise only the row get_or_create returned can change |
| StockFacts.UpsertFrame | backend/mp/tasks/update_stocks.py:78-105 | one record touches only the row its key finds or the row it creates, and creates one only when nothing matched |
| StockFacts.UpsertOwned | backend/mp/tasks/update_stocks.py:80-83 | the shop's rows stay the shop's and new rows are the shop's, when records carry no shop of their own |
| StockFacts.TenantTrans | backend/mp/tasks/update_stocks.py:78 | leaving other shops' rows alone composes |
| StockFacts.UpsertTenant | backend/mp/tasks/update_stocks.py:80-84 | one record keyed by the shop keeps other shops' rows and deletes nothing |
| StockFacts.KeyKept | backend/mp/tasks/update_stocks.py:90-99 | the found row still matches its key after the field loop |
| StockFacts.SoleMatchAfter | backend/mp/tasks/update_stocks.py:84-104 | after one record its key finds exactly the row it used |
| StockFacts.UpsertRepeats | backend/mp/tasks/update_stocks.py:78-105 | the same record handled again finds its row and saves nothing |
| StockFacts.UpsertAllTotal | backend/mp/tasks/update_stocks.py:102-146 | total counts saves: at most one per record (lines 102-103 and 145-146) |
| StockFacts.StepKeepsTenants | backend/mp/tasks/update_stocks.py:80-84 | the record handler keeps other shops' rows |
| StockFacts.UpsertAllTenant | backend/mp/tasks/update_stocks.py:78-147 | the loop never deletes a row and never touches another shop's row, whether it ends normally or raises (lines 78-105 and 126-147) |
| StockFacts.OwnedTrans | backend/mp/tasks/update_stocks.py:78 | keeping the shop's rows the shop's composes |
| StockFacts.StepKeepsOwned | backend/mp/tasks/update_stocks.py:80-84 | the record handler keeps the shop's rows the shop's |
| StockFacts.UpsertAllOwned | backend/mp/tasks/update_stocks.py:78-147 | every new row and every row of the shop is the shop's after the loop (lines 78-105 and 126-147) |
| StockFacts.Rejected | backend/mp/tasks/update_stocks.py:85-132 | a record whose create raises IntegrityError is skipped by api_stocks, but stops warehouse_stocks_to_db (lines 85-87 and 127-132) |
| StockFacts.Ambiguous | backend/mp/tasks/update_stocks.py:84-127 | two rows matching a record's key end either loop with MultipleObjectsReturned (lines 84 and 127) |
| StockFacts.GetKeyStable | backend/mp/tasks/update_stocks.py:37-39 | get_key after update_products finds the same key |
| StockFacts.PreludeKey | backend/mp/tasks/update_stocks.py:37-41 | update_stocks gets past its start exactly when update_products succeeds, and then works on that key's shop |
| StockFacts.EmptyListingFails | backend/mp/tasks/update_stocks.py:41-68 | when the product list is empty the shop is left without products, and as written the sync task raises UnboundLocalError where the intended version reports that nothing ran |
| StockFacts.AsWrittenAgrees | backend/mp/tasks/update_stocks.py:41-68 | once the shop has a product, the code as written and the intended version agree |
| StockFacts.PartsSeparate | backend/mp/tasks/update_stocks.py:45-55 | each run is caught separately: the warehouse result is the same whatever the stock fetch returns, and a failed stock fetch changes no stock row |
| Campaigns.SkuMatches | backend/mp/tasks/update_campaigns.py:111 | the matching products are empty exactly when no SKU_Offer row has the sku |
| Campaigns.SkuProduct | backend/mp/tasks/update_campaigns.py:110-117 | None (the DoesNotExist skip) exactly when no SKU_Offer row has the sku; the only failure is MultipleObjectsReturned |
| Campaigns.Stamp | backend/mp/tasks/update_campaigns.py:94-95 | a timestamp field parses exactly when it is text the "%Y-%m-%dT%H:%M:%S.%f%z" format accepts, to that instant |
| Campaigns.CampaignRule | backend/mp/tasks/update_campaigns.py:91-99 | the campaign field rule is the "_at" conversion followed by the text comparison, for every field |
| Campaigns.LinkRule | backend/mp/tasks/update_campaigns.py:124-132 | the link field rule is the plain text comparison, for every field |
| Campaigns.Caught | backend/mp/tasks/update_campaigns.py:48-53 | ErrorLocked, and only it, becomes the "Locked" failure; every other error is a failure with its message |
| Campaigns.UpdateCampaigns | backend/mp/tasks/update_campaigns.py:27-58 | no key id leaves the stores and reports the empty-key failure; a missing key raises DoesNotExist; otherwise success exactly when api_campaigns raises nothing, "Locked" exactly for ErrorLocked, and the stores are the ones the run reached, a failed run's included |
| Campaigns.SaveLinkM | backend/mp/tasks/update_campaigns.py:118-133 | the link loop computes the link's get_or_create, field loop and save |
| Campaigns.SyncLinkM | backend/mp/tasks/update_campaigns.py:107-157 | one linked-product iteration computes its links and history |
| Campaigns.SyncCampaignM | backend/mp/tasks/update_campaigns.py:76-161 | one campaign iteration computes the campaign's save and, when running, its links, history and deletions |
| Campaigns.ApiCampaignsM | backend/mp/tasks/update_campaigns.py:61-165 | the campaign loop computes api_campaigns |
| Campaigns.UpdateCampaignsM | backend/mp/tasks/update_campaigns.py:27-58 | the sync task method computes update_campaigns, keeping the stores a failed run reached |
| CampaignFacts.SkuMatchesSound | backend/mp/tasks/update_campaigns.py:111 | every matched product is the product of a SKU_Offer row with the sku, and two rows with the sku give at least two matches |
| CampaignFacts.SkuFound | backend/mp/tasks/update_campaigns.py:111 | a found product comes from the one and only SKU_Offer row with that sku |
| CampaignFacts.SkuAmbiguous | backend/mp/tasks/update_campaigns.py:111 | two SKU_Offer rows with the same sku make the lookup raise MultipleObjectsReturned |
| CampaignFacts.UnknownSkuSkipped | backend/mp/tasks/update_campaigns.py:110-117 | a linked product whose sku is unknown changes neither links nor history |
| CampaignFacts.CampaignRuleSettles | backend/mp/tasks/update_campaigns.py:91-99 | after the campaign fields are applied, a second comparison with the same data finds nothing changed |
| CampaignFacts.LinkRuleSettles | backend/mp/tasks/update_campaigns.py:124-132 | after the link fields are applied, a second comparison with the same data finds nothing changed |
| CampaignFacts.SavedShape | backend/mp/tasks/update_campaigns.py:76-100 | a campaign's save writes its own row only: the field loop over the claimed row, saved when something changed |
| CampaignFacts.CampaignStep | backend/mp/tasks/update_campaigns.py:76-104 | the campaign table after an iteration is the campaign's own save; a campaign that is not running leaves links and history alone |
| CampaignFacts.RunningLinksFrame | backend/mp/tasks/update_campaigns.py:102-161 | the link part of an iteration never touches the campaign table, and does nothing for a campaign that is not running |
| CampaignFacts.CampaignFieldsAgree | backend/mp/tasks/update_campaigns.py:89-100 | after an iteration every field the API sent reads, as text, as the sent value (a "_at" field as its parsed instant); only this campaign's row changes or is added |
| CampaignFacts.CampaignOwner | backend/mp/tasks/update_campaigns.py:76-100 | a stored campaign belongs to the shop afterwards; a new one belongs to it exactly when some field changed, and otherwise holds only its id (lines 76-87 and 100) |
| CampaignFacts.AgreeingCampaignUnsaved | backend/mp/tasks/update_campaigns.py:89-100 | a stored campaign of the shop whose fields already read as sent is not saved and the table is unchanged |
| CampaignFacts.NotRunningKeepsLinks | backend/mp/tasks/update_campaigns.py:102-104 | a campaign whose saved state is not running keeps its links and history |
| CampaignFacts.LinksKeptTrans | backend/mp/tasks/update_campaigns.py:107-133 | the link-table invariant (no deletion, other campaigns untouched, ids below the next id) composes |
| CampaignFacts.SaveLinkKeeps | backend/mp/tasks/update_campaigns.py:118-133 | saving one link keeps the link-table invariant |
| CampaignFacts.SaveLinkStore | backend/mp/tasks/update_campaigns.py:118-133 | whether or not the field loop raises, the link table is the one get_or_create left, changed in at most the link it picked; a failed get_or_create leaves it as it was |
| CampaignFacts.LinkKeeps | backend/mp/tasks/update_campaigns.py:107-157 | one linked-product iteration keeps the link-table invariant |
| CampaignFacts.LinksLoopKeeps | backend/mp/tasks/update_campaigns.py:107-157 | the whole loop over linked products keeps the link-table invariant |
| CampaignFacts.LinksOfCampaign | backend/mp/tasks/update_campaigns.py:107-161 | links of other campaigns survive an iteration unchanged; the campaign's own links afterwards all have a sku the API still lists |
| CampaignFacts.HistoryWritten | backend/mp/tasks/update_campaigns.py:136-157 | a product without visibility index writes no history; with one, the day's row holds the bid and index and keeps its other fields, unless the table refuses to create it, and no other row changes |
| CampaignFacts.SyncAllFrame | backend/mp/tasks/update_campaigns.py:73-161 | the campaign loop keeps every stored campaign, and leaves unchanged each one the API does not list |
| CampaignFacts.RunningLinksKeep | backend/mp/tasks/update_campaigns.py:102-161 | the link part of a running campaign keeps other campaigns' links, and the campaign's own links afterwards all have a sku the API lists |
| CampaignFacts.FailedCampaignKeeps | backend/mp/tasks/update_campaigns.py:76-161 | a campaign whose iteration raises deletes nothing: earlier links and history rows stay, and of the campaign table only its own row can differ, holding what get_or_create and the field loop committed |
| CampaignFacts.FailedLinksKeep | backend/mp/tasks/update_campaigns.py:102-157 | the link part of an iteration that raises keeps the campaign table, every link row and every history row |
| CampaignFacts.LinksLoopHistory | backend/mp/tasks/update_campaigns.py:107-157 | the loop over linked products never removes a history row |
| CampaignFacts.SyncAllStops | backend/mp/tasks/update_campaigns.py:73-161 | the campaign loop runs the campaigns in order up to the first that raises; a failed loop leaves the store the campaigns before it reached, with what the failing one committed on top |
| CampaignStats.StatisticsCall | backend/mp/tasks/update_campaign_statistics.py:63-67 | the statistics are reconciled by (dt, campaign_id) with no shop and no hook |
| CampaignStats.ApiCampaignStatisticsM | backend/mp/tasks/update_campaign_statistics.py:55-68 | the method agrees with api_campaign_statistics: same table on success, a failure when it fails |
| CampaignStats.UpdateCampaignStatistics | backend/mp/tasks/update_campaign_statistics.py:21-52 | no key id reports the empty-key failure; a missing key raises DoesNotExist; a shop without products fails with nothing changed; otherwise the campaign stores are the ones update_campaigns reached (its result ignored) and success is exactly the statistics' success, with their table, a failure leaving the table unchanged |
| CampaignStats.UpdateCampaignStatisticsM | backend/mp/tasks/update_campaign_statistics.py:21-52 | the method agrees with the sync task: same outcome, same campaign stores, the same statistics on success and the unchanged table otherwise |
| CampaignStatsFacts.ScopeIgnoresShop | backend/mp/tasks/update_campaign_statistics.py:63-67 | whether a stored statistics row takes part in the lookup does not depend on its shop |
| CampaignStatsFacts.CreatedWithoutShop | backend/mp/tasks/update_campaign_statistics.py:63-67 | a created statistics row holds model fields only and no shop unless the data sends one |
| Reports.PendingIds | backend/mp/tasks/create_campaign_report.py:94-100 | exactly the rows below the bound that get_or_create's filter (conditions, unparsed, shop) matches |
| Reports.SetMin | backend/mp/tasks/create_campaign_report.py:82 | the least selected campaign id |
| Reports.SortedIds | backend/mp/tasks/create_campaign_report.py:82 | sorted(list(q)): each id of the set once, strictly ascending |
| Reports.CappedDays | backend/mp/tasks/create_campaign_report.py:23-68 | the days are capped at MAX_STATISTICS_PERIOD (60) and kept below it (lines 23 and 68) |
| Reports.CreateCampaignReport | backend/mp/tasks/create_campaign_report.py:26-54 | no key id reports the empty-key failure; a missing key raises DoesNotExist; success exactly when new_report succeeds, after which the shop's old reports are removed; a failure keeps the reports new_report queued before it and removes no old one |
| Reports.ChunkRunM | backend/mp/tasks/create_campaign_report.py:89-102 | the chunk loop computes the requests and get_or_create of one date_to |
| Reports.PeriodRunM | backend/mp/tasks/create_campaign_report.py:84-105 | the period loop computes every period from today, date_to stepping back days_max |
| Reports.NewReportM | backend/mp/tasks/create_campaign_report.py:57-107 | the method computes new_report |
| Reports.CreateCampaignReportM | backend/mp/tasks/create_campaign_report.py:26-54 | the method computes create_campaign_report, keeping the reports queued before a failure |
| ReportsFacts.SelectionByDays | backend/mp/tasks/create_campaign_report.py:70-80 | only the shop's campaigns are selected; from five days on all of them; a running one always; below five days only running ones or those updated after the window's start |
| ReportsFacts.IdsSorted | backend/mp/tasks/create_campaign_report.py:82 | campaign_ids holds exactly the selected ids, strictly ascending |
| ReportsFacts.NoCampaignsNoRequests | backend/mp/tasks/create_campaign_report.py:83-107 | without a selected campaign nothing is requested and no report is queued (lines 83 and 106-107) |
| ReportsFacts.ChunkCalls | backend/mp/tasks/create_campaign_report.py:89-92 | one request per chunk, in order, for the same date_to and days_max |
| ReportsFacts.ScheduleLength | backend/mp/tasks/create_campaign_report.py:86-92 | n periods make n times the number of chunks requests |
| ReportsFacts.PerPeriod | backend/mp/tasks/create_campaign_report.py:86-105 | period p requests every chunk for the date days_max times p before today |
| ReportsFacts.ScheduleByPeriod | backend/mp/tasks/create_campaign_report.py:86-105 | the requests are the periods' requests one period after another |
| ReportsFacts.GetOrCreateFacts | backend/mp/tasks/create_campaign_report.py:94-100 | get_or_create fails exactly when the request waits more than once; otherwise afterwards it waits exactly once, the table only grows, and a request already waiting once changes nothing |
| ReportsFacts.GrowsTrans | backend/mp/tasks/create_campaign_report.py:89-105 | the growth relation between report tables composes |
| ReportsFacts.ServedGrows | backend/mp/tasks/create_campaign_report.py:89-105 | requests waiting once keep waiting once as the table grows |
| ReportsFacts.ChunkRunServes | backend/mp/tasks/create_campaign_report.py:89-102 | a successful chunk loop grows the table, leaves every chunk's request waiting exactly once, and makes one request per chunk |
| ReportsFacts.PeriodRunServes | backend/mp/tasks/create_campaign_report.py:84-105 | a successful period loop grows the table, leaves every request waiting exactly once, and makes the whole schedule of requests |
| ReportsFacts.ChunkRunRerun | backend/mp/tasks/create_campaign_report.py:89-102 | when every chunk's request already waits, the loop makes the same requests and changes no report |
| ReportsFacts.PeriodRunRerun | backend/mp/tasks/create_campaign_report.py:84-105 | when every period's requests already wait, the loop makes the schedule's requests and changes no report |
| ReportsFacts.ChunkRunStops | backend/mp/tasks/create_campaign_report.py:89-102 | however the chunk loop ends it removes and changes no report; a failed one made the requests up to the failing one, and each request before it waits exactly once |
| ReportsFacts.FirstChunkFails | backend/mp/tasks/create_campaign_report.py:89-102 | a failure at the first chunk made just that request |
| ReportsFacts.LaterChunkFails | backend/mp/tasks/create_campaign_report.py:89-102 | a failure j chunks into the rest is j + 1 chunks into the whole |
| ReportsFacts.PeriodRunStops | backend/mp/tasks/create_campaign_report.py:84-105 | however the period loop ends it removes and changes no report; a failed one made every request of the periods before the failing one, all still waiting |
| ReportsFacts.FirstPeriodFails | backend/mp/tasks/create_campaign_report.py:84-105 | a failure in the first period is that period's chunk loop, with no whole period before it |
| ReportsFacts.LaterPeriodFails | backend/mp/tasks/create_campaign_report.py:84-105 | a failure k periods into the rest is k + 1 periods into the whole |
| ReportsFacts.PeriodNext | backend/mp/tasks/create_campaign_report.py:84-105 | after a first period that succeeds, the loop goes on from its queue, days_max earlier |
| ReportsFacts.NewReportSchedule | backend/mp/tasks/create_campaign_report.py:57-107 | a successful new_report grows the table; with no campaign it requests nothing; otherwise it makes the schedule over the chunks of the sorted ids and leaves each request waiting exactly once |
| ReportsFacts.NewReportFails | backend/mp/tasks/create_campaign_report.py:57-107 | a failed new_report had a selected campaign, removes and changes no report, and keeps every report queued by the periods before the failing one, all still waiting |
| ReportsFacts.FreshRunFails | backend/mp/tasks/create_campaign_report.py:84-105 | the same for the period loop from an empty queue |
| ReportsFacts.NewReportIdempotent | backend/mp/tasks/create_campaign_report.py:57-107 | running new_report again right after a successful run gives the same requests and the same reports: nothing is queued twice |
| ReportsFacts.PeriodsCoverDays | backend/mp/tasks/create_campaign_report.py:68-86 | days_max is positive and at most LIMIT_DAYS, there is at least one period, and the periods together cover the capped days (lines 68 and 85-86) |
| ReportsFacts.RemoveOldFacts | backend/mp/tasks/create_campaign_report.py:110-113 | remove_old_report deletes exactly the shop's reports created at or before three days ago and changes no other row |
| ReportsFacts.RemoveOldKeepsFresh | backend/mp/tasks/create_campaign_report.py:110-113 | another shop's report, or one created within the last three days, survives |
| ReportsFacts.RemoveOldIdempotent | backend/mp/tasks/create_campaign_report.py:110-113 | removing twice removes nothing more |
| ReportQueue.Index | backend/mp/tasks/check_campaign_report.py:232-236 | indexing decoded JSON by a key succeeds exactly on an object holding it, with that value; KeyError on an object without it, TypeError on anything else |
| ReportQueue.ParseDay | backend/mp/tasks/check_campaign_report.py:233-234 | a date parses exactly when it is text the "%Y-%m-%d" format accepts; ValueError for other text, TypeError for a non-text |
| ReportQueue.Len | backend/mp/tasks/check_campaign_report.py:235-237 | len() succeeds exactly on a list, an object or a text; TypeError otherwise |
| ReportQueue.PatchM | backend/mp/tasks/check_campaign_report.py:156-159 | the field loop of a statistics row computes the patch and save |
| ReportQueue.ProductLineM | backend/mp/tasks/check_campaign_report.py:147-159 | one product line's get_or_create and patch |
| ReportQueue.StatisticsProductM | backend/mp/tasks/check_campaign_report.py:137-159 | the loop computes statistics_product, keeping the lines saved before one that raises |
| ReportQueue.OrderLineM | backend/mp/tasks/check_campaign_report.py:175-191 | one order line's get_or_create, duplicate skip and patch |
| ReportQueue.StatisticsOrderM | backend/mp/tasks/check_campaign_report.py:162-194 | the loop computes statistics_order, its noted campaigns and the refresh |
| ReportQueue.PayloadM | backend/mp/tasks/check_campaign_report.py:87-98 | the loop over the downloaded payload stores "SKU" and "SEARCH_PROMO" lines only |
| ReportQueue.DownloadedM | backend/mp/tasks/check_campaign_report.py:77-101 | a ready report is downloaded, stored and closed, or closed as FAIL on a 404 |
| ReportQueue.StepM | backend/mp/tasks/check_campaign_report.py:75-134 | one iteration of the report loop |
| ReportQueue.CheckQueueM | backend/mp/tasks/check_campaign_report.py:70-134 | the loop computes check_queue over the batch |
| ReportQueue.CheckCampaignReportM | backend/mp/tasks/check_campaign_report.py:31-67 | the method computes check_campaign_report |
| ReportQueueFacts.IsCorrectReportMeaning | backend/mp/tasks/check_campaign_report.py:226-239 | a report is correct exactly when its two dates parse, span at most LIMIT_DAYS days and it names at most LIMIT_CAMPAIGNS campaigns; a longer span is incorrect whatever the campaigns; the only errors are KeyError, TypeError and ValueError |
| ReportQueueFacts.IsCorrectReportMissingParams | backend/mp/tasks/check_campaign_report.py:232 | conditions without params raise KeyError, and conditions that are not an object TypeError |
| ReportQueueFacts.StepErrorCloses | backend/mp/tasks/check_campaign_report.py:102-106 | a report in state ERROR is marked parsed and saved, and nothing else changes |
| ReportQueueFacts.StepDownloads | backend/mp/tasks/check_campaign_report.py:77-101 | a ready report's payload is stored and the report marked parsed and saved; report_sent and the requests are untouched |
| ReportQueueFacts.StepDownloadMissing | backend/mp/tasks/check_campaign_report.py:80-101 | a ready report the API answers with 404 is saved as FAIL and parsed, with nothing stored (lines 80-86 and 100-101) |
| ReportQueueFacts.StepChecks | backend/mp/tasks/check_campaign_report.py:107-117 | a sent report gets the status response and state saved; any state but OK blocks new requests |
| ReportQueueFacts.StepDeletes | backend/mp/tasks/check_campaign_report.py:118-124 | an unsent report with incorrect conditions is deleted while requests are not blocked |
| ReportQueueFacts.StepRequests | backend/mp/tasks/check_campaign_report.py:118-134 | an unsent correct report is requested; a UUID answer is stored and blocks further requests, an error answer or one without UUID changes nothing |
| ReportQueueFacts.StepBlocked | backend/mp/tasks/check_campaign_report.py:118 | once requests are blocked, an unsent report is left alone |
| ReportQueueFacts.StepFrame | backend/mp/tasks/check_campaign_report.py:75-134 | one iteration writes or deletes only its own report, never unblocks, and accepts a request only as the first of the pass |
| ReportQueueFacts.StepsFrame | backend/mp/tasks/check_campaign_report.py:75-134 | the loop writes or deletes only reports of the batch and adds none |
| ReportQueueFacts.StepsAtMostOne | backend/mp/tasks/check_campaign_report.py:71-134 | a pass accepts at most one request, and once blocked sends nothing more (lines 71, 116, 118 and 131-134) |
| ReportQueueFacts.BatchIdsQueue | backend/mp/tasks/check_campaign_report.py:72-74 | every report of the batch is an unparsed report of the shop |
| ReportQueueFacts.CheckQueueFacts | backend/mp/tasks/check_campaign_report.py:70-134 | check_queue leaves other shops' and parsed reports alone, adds no row, and accepts at most one request |
| ReportQueueFacts.CampaignIdsCons | backend/mp/tasks/check_campaign_report.py:172-174 | the campaigns named by lines are the first line's and the rest's |
| ReportQueueFacts.OrderLinesNotes | backend/mp/tasks/check_campaign_report.py:172-187 | the loop only adds campaign ids; a clean loop has noted the campaign of every line, skipped or not |
| ReportQueueFacts.StatisticsOrderRefresh | backend/mp/tasks/check_campaign_report.py:162-194 | a clean statistics_order stores the orders and rebuilds the product statistics for exactly the campaigns named, or leaves them alone when there are no lines |
| ReportQueueFacts.OrderLineSkipsDuplicates | backend/mp/tasks/check_campaign_report.py:175-187 | a line whose order matches several stored rows changes nothing |
| ReportQueueFacts.ProductKeyDefaults | backend/mp/tasks/check_campaign_report.py:147-155 | a product line's lookup needs campaign_id, dt and sku (else KeyError) and defaults page and condition to "Трафареты" |
| ReportQueueFacts.ProductLineFrame | backend/mp/tasks/check_campaign_report.py:146-159 | one product line keeps every stored row |
| ReportQueueFacts.StatisticsProductGrows | backend/mp/tasks/check_campaign_report.py:137-159 | statistics_product keeps every row, whether or not a line raises |
| ReportQueueFacts.CheckCampaignReportFacts | backend/mp/tasks/check_campaign_report.py:31-67 | no key id fails at once; a missing key raises DoesNotExist; success exactly when the pass raises nothing; a lock or rate limit, and only those, switches the key off for fifteen minutes; anything else fails; the pass's saves are kept in every case |
| QueueOrder.StrLtIrreflexive | backend/mp/tasks/check_campaign_report.py:72-74 | the text order is irreflexive |
| QueueOrder.StrLtTransitive | backend/mp/tasks/check_campaign_report.py:72-74 | the text order is transitive |
| QueueOrder.StrLtTotal | backend/mp/tasks/check_campaign_report.py:72-74 | two different texts are ordered one way or the other |
| QueueOrder.BeforeIrreflexive | backend/mp/tasks/check_campaign_report.py:72-74 | no report comes before itself in order_by("uuid", "-updated_at") |
| QueueOrder.BeforeTransitive | backend/mp/tasks/check_campaign_report.py:72-74 | the report order is transitive |
| QueueOrder.BeforeTotal | backend/mp/tasks/check_campaign_report.py:72-74 | two different reports are ordered one way or the other |
| QueueOrder.LeTransitive | backend/mp/tasks/check_campaign_report.py:72-74 | the non-strict report order is transitive |
| QueueOrder.Insert | backend/mp/tasks/check_campaign_report.py:72-74 | insertion adds exactly the one report to the multiset |
| QueueOrder.InsertFacts | backend/mp/tasks/check_campaign_report.py:72-74 | insertion into a sorted list keeps it sorted |
| QueueOrder.Sort | backend/mp/tasks/check_campaign_report.py:72-74 | the sorted reports are a permutation of the input |
| QueueOrder.SortFacts | backend/mp/tasks/check_campaign_report.py:72-74 | the sorted reports are in the query's order |
| QueueOrder.UnparsedIds | backend/mp/tasks/check_campaign_report.py:72 | the filter lists reports of the table |
| QueueOrder.UnparsedIdsSound | backend/mp/tasks/check_campaign_report.py:72 | the filter lists exactly the shop's unparsed reports |
| QueueOrder.UnparsedIdsOnce | backend/mp/tasks/check_campaign_report.py:72 | the filter lists no report twice |
| QueueOrder.Take | backend/mp/tasks/check_campaign_report.py:74 | slicing [:5] gives the first at most five, or everything when there are fewer |
| QueueOrder.QueuePrefix | backend/mp/tasks/check_campaign_report.py:72-74 | the batch is the first at most five of the shop's unparsed reports sorted by the query, each listed once |
| QueueOrder.QueueUnparsed | backend/mp/tasks/check_campaign_report.py:72-74 | the batch holds unparsed reports of the shop only |
| QueueOrder.QueueOrdered | backend/mp/tasks/check_campaign_report.py:72-74 | the batch is strictly in the query's order, so no report is in it twice |
| QueueOrder.QueueFirst | backend/mp/tasks/check_campaign_report.py:72-74 | in a table whose rows all lie below its next id, an unparsed report of the shop left out of the batch comes after each of the five in it |
| DailyRollup.Overwrite | backend/api/helpers/update_daily.py:24-99 | a conflicting row takes exactly the DO UPDATE SET columns from excluded and keeps every other column (lines 24-25, 47-49, 72-74 and 97-99) |
| DailyRollup.MaxOf | backend/api/helpers/update_daily.py:89 | MAX over a non-empty group is one of its values and no value exceeds it |
| DailyRollup.MinOf | backend/api/helpers/update_daily.py:90 | MIN over a non-empty group is one of its values and no value is below it |
| DailyRollup.Dedup | backend/api/helpers/update_daily.py:46-96 | the groups are the distinct keys of the lines, each once (lines 46, 71 and 96) |
| DailyRollup.OfKeyMembers | backend/api/helpers/update_daily.py:46-96 | a group holds exactly the lines of its key (lines 46, 71 and 96) |
| DailyRollup.KeysOf | backend/api/helpers/update_daily.py:46-96 | the key of every line, in order (lines 46, 71 and 96) |
| DailyRollup.Grouped | backend/api/helpers/update_daily.py:46-96 | GROUP BY proposes one row per distinct key of the lines, computed from exactly that key's lines, and never proposes a key twice (lines 46, 71 and 96) |
| DailyRollup.GroupedKeys | backend/api/helpers/update_daily.py:46-96 | the proposed keys are exactly the keys of the lines (lines 46, 71 and 96) |
| DailyRollup.StockBatch | backend/api/helpers/update_daily.py:13-23 | every proposed stock row is for the shop and a positive sku |
| DailyRollup.CountedTransactions | backend/api/helpers/update_daily.py:44-45 | the transactions counted are exactly the shop's premium-cashback and installment operations |
| DailyRollup.Copies | backend/api/helpers/update_daily.py:69 | the inner join with mp_selfbuy repeats a line once per matching self-buy |
| DailyRollup.ShopHistory | backend/api/helpers/update_daily.py:95 | the history lines counted are exactly those of the shop's campaigns |
| DailyRollup.DailyTable.constructor | backend/api/models.py:6-31 | the Daily table starts empty |
| DailyRollup.DailyTable.Upsert | backend/api/helpers/update_daily.py:10-25 | one INSERT ... ON CONFLICT DO UPDATE applies every proposed row in turn, or, when it proposes a key twice, fails with a cardinality violation and changes nothing |
| DailyRollup.DailyTable.UpdateStocks | backend/api/helpers/update_daily.py:7-28 | Update_Daily.stocks upserts the stock column only, and fails with nothing changed when a (date, sku) is proposed twice |
| DailyRollup.DailyTable.UpdateTransactions | backend/api/helpers/update_daily.py:31-52 | Update_Daily.transactions upserts premium and rassrochka only, grouping by the raw operation_date instant and storing its day; when one day's groups of a sku collide on the Daily key it fails with a cardinality violation and changes nothing |
| DailyRollup.DailyTable.UpdateOrders | backend/api/helpers/update_daily.py:55-77 | Update_Daily.orders upserts selfbuy_cnt and selfbuy_amount only |
| DailyRollup.DailyTable.UpdateCampaigns | backend/api/helpers/update_daily.py:80-102 | Update_Daily.campaigns upserts adv_promo_bid and adv_promo_visibility only |
| DailyFacts.DistinctTail | backend/api/helpers/update_daily.py:24-25 | a statement with distinct keys keeps them distinct after its first row |
| DailyFacts.BatchKeysCons | backend/api/helpers/update_daily.py:24-25 | the keys of a statement are its first key and the rest's |
| DailyFacts.ApplyAt | backend/api/helpers/update_daily.py:24-25 | with distinct keys every proposed key ends up upserted against the table as it was before the statement, the key set is the old keys plus the proposed ones, and the order of proposal is immaterial |
| DailyFacts.ColumnIsolation | backend/api/helpers/update_daily.py:24-99 | an upsert keeps every row and never changes a column outside its DO UPDATE SET (lines 24-25, 47-49, 72-74 and 97-99) |
| DailyFacts.ApplySets | backend/api/helpers/update_daily.py:24-99 | every proposed row's own columns are stored, inserted or updated (lines 24-25, 47-49, 72-74 and 97-99) |
| DailyFacts.Untouched | backend/api/helpers/update_daily.py:10-25 | rows the statement does not propose are neither added, changed nor removed |
| DailyFacts.OverwriteTwice | backend/api/helpers/update_daily.py:24-25 | taking the same columns twice is taking them once |
| DailyFacts.IdempotentAt | backend/api/helpers/update_daily.py:10-25 | a second identical statement leaves each row as the first left it |
| DailyFacts.ApplyIdempotent | backend/api/helpers/update_daily.py:10-25 | running a statement again on the same source lines changes nothing |
| DailyFacts.SameKeys | backend/api/helpers/update_daily.py:46-96 | two orderings of the same proposed rows propose the same keys (lines 46, 71 and 96) |
| DailyFacts.SameRow | backend/api/helpers/update_daily.py:46-96 | two orderings of the same distinct proposed rows leave each proposed key with the same row (lines 46, 71 and 96) |
| DailyFacts.OrderIndependent | backend/api/helpers/update_daily.py:46-96 | the order in which GROUP BY hands out its groups does not change the table (lines 46, 71 and 96) |
| DailyFacts.StocksIncluded | backend/api/helpers/update_daily.py:13-23 | each of the shop's stock lines with a positive sku is proposed, with its key and present count |
| DailyFacts.StocksFromLines | backend/api/helpers/update_daily.py:13-23 | each proposed stock row comes from one of the shop's lines with a positive sku |
| DailyFacts.StocksTwiceFails | backend/api/helpers/update_daily.py:13-25 | two of the shop's stock lines for one (date, sku) make the stocks statement fail, there being no GROUP BY |
| DailyFacts.CountedConcat | backend/api/helpers/update_daily.py:44-45 | the WHERE filter distributes over concatenation |
| DailyFacts.TransactionsIgnoreOthers | backend/api/helpers/update_daily.py:44-45 | an operation of another type or another shop changes nothing the statement proposes |
| DailyFacts.PremiumPlusInstallment | backend/api/helpers/update_daily.py:40-41 | over counted operations, premium plus rassrochka is their whole amount |
| DailyFacts.TransactionsSplit | backend/api/helpers/update_daily.py:37-46 | the SELECT's groups are exactly the (operation_date, sku) pairs of the shop's counted operations, the proposed Daily keys are exactly their days, and each group's premium plus rassrochka is all of its amount |
| DailyFacts.TransactionsDistinct | backend/api/helpers/update_daily.py:36-49 | the transactions statement succeeds exactly when no sku of the shop has counted operations at two different instants of one day |
| DailyFacts.SameDayFails | backend/api/helpers/update_daily.py:36-49 | two counted operations of one sku an hour apart on one day make the statement fail |
| DailyFacts.FreshRowNulls | backend/api/helpers/update_daily.py:7-102 | a row the statement inserts holds NULL in every column the INSERT does not list |
| DailyFacts.OfKeyConcat | backend/api/helpers/update_daily.py:71 | a group of concatenated lines is the concatenation of the groups |
| DailyFacts.SumsConcat | backend/api/helpers/update_daily.py:64-65 | the quantity and amount sums distribute over concatenation |
| DailyFacts.CopiesSums | backend/api/helpers/update_daily.py:64-69 | m join copies of a line contribute m times its quantity and m times quantity times price (lines 64-65 and 69) |
| DailyFacts.OrderSumsWeighted | backend/api/helpers/update_daily.py:61-71 | the joined sums of a key are the sums of the shop's lines of that key, each weighted by the number of self-buys it matches |
| DailyFacts.OrderBatchSums | backend/api/helpers/update_daily.py:58-74 | each proposed order row's selfbuy_cnt and selfbuy_amount are those weighted sums |
| DailyFacts.UnmatchedWeighsNothing | backend/api/helpers/update_daily.py:69 | an order no self-buy names adds nothing to any sum |
| DailyFacts.NoMatches | backend/api/helpers/update_daily.py:69 | an order no self-buy of its shop names by order or posting number has no join partner |
| DailyFacts.HistoryMaxMin | backend/api/helpers/update_daily.py:86-96 | each proposed campaign row's bid is the largest and visibility the smallest of the shop's history lines of its key, each attained by one of those lines |
| DailyFacts.GroupBounds | backend/api/helpers/update_daily.py:89-90 | the group maximum and minimum bound every line of the group |
| Locks.LookupIn | backend/ka_space/helpers/locking.py:28-66 | GET finds a key exactly while it has not expired, with its stored value (lines 28 and 65-66) |
| Locks.Redis.constructor | backend/ka_space/helpers/locking.py:14-15 | the Redis server starts with no keys at the given clock |
| Locks.Redis.Set | backend/ka_space/helpers/locking.py:44-60 | SET with EX stores the value until clock plus the expiry and answers true; a non-positive expiry is refused and changes nothing (lines 44-48 and 60) |
| Locks.Redis.Delete | backend/ka_space/helpers/locking.py:57 | DEL removes the key and answers 1 exactly when it was live |
| Locks.Redis.Sleep | backend/ka_space/helpers/locking.py:38-55 | sleeping advances the clock by exactly the time slept and changes no key (lines 38 and 55) |
| Locks.Or | backend/ka_space/helpers/locking.py:32-33 | `x or default` gives the default for None and 0, and x otherwise |
| Locks.Locking.constructor | backend/ka_space/helpers/locking.py:13-25 | the lock keeps its key, timeout, expire and minimum life, and release_at starts at the current time |
| Locks.Locking.Default | backend/ka_space/helpers/locking.py:13-25 | Locking(key) as the views call it: timeout 60 s, expire 300 s, minimum life 0 and release_at at the current time |
| Locks.Locking.IsLocked | backend/ka_space/helpers/locking.py:27-29 | is_locked raises exactly when a live non-number is stored under the lock flag, and is true exactly while the stamp plus the instance's expire, and the key's own expiry, are both ahead |
| Locks.Locking.Acquire | backend/ka_space/helpers/locking.py:31-48 | acquire polls every 0.1 s until the lock is free or the deadline passes; it raises ErrorIsLocked exactly when the lock is still held then, changing nothing; otherwise it sets release_at to now plus the minimum life and stores the current time under the lock flag for the given expiry |
| Locks.Locking.Release | backend/ka_space/helpers/locking.py:50-57 | release waits until release_at when that is ahead, then deletes the lock flag whoever set it, answering 1 exactly when it was live |
| Locks.Locking.SetState | backend/ka_space/helpers/locking.py:59-60 | set_state stores the text under the state flag for the instance's expiry and changes nothing else |
| Locks.Locking.State | backend/ka_space/helpers/locking.py:62-67 | state() raises exactly when is_locked does, and otherwise reports is_locked and the raw lock and state values |
| LockFacts.FlagsDistinct | backend/ka_space/helpers/locking.py:22-23 | the lock flag of a key is never a state flag, and different keys have different flags |
| LockFacts.IsLockedMeaning | backend/ka_space/helpers/locking.py:27-29 | is_locked raises exactly on a live text under the flag, and otherwise is true exactly before the stamp's release moment |
| LockFacts.FreeStaysFree | backend/ka_space/helpers/locking.py:27-37 | without a write, a free lock stays free as time passes (lines 27-29 and 37) |
| LockFacts.InstanceExpireDecides | backend/ka_space/helpers/locking.py:27-47 | a flag stored with acquire(expire=600) on an instance with expire 300 still exists after 300 seconds while is_locked already says it is free (lines 27-29, 33 and 47) |
| LockFacts.PollEndFacts | backend/ka_space/helpers/locking.py:34-38 | polling never waits for a free lock or a passed deadline, advances in whole 0.1 s polls, and stops at the first poll on or after the lock's release or the deadline |
| LockFacts.AcquireGivesUp | backend/ka_space/helpers/locking.py:37-41 | acquire raises ErrorIsLocked exactly when the lock is still held at the first poll at or after the deadline |
| LockFacts.StateKeepsLock | backend/ka_space/helpers/locking.py:59-60 | set_state never changes whether the lock is held |
| LockFacts.AcquiredIsHeld | backend/ka_space/helpers/locking.py:43-48 | after a successful acquire the lock is held, until the sooner of the instance's expire and the key's expiry |
| Views.QueryGet | backend/api/views.py:661-666 | QueryDict.get finds the last value of a name, and None when it has none (lines 661 and 666) |
| Views.ParseIds | backend/api/views.py:662-670 | an id__in list raises ValueError exactly when one value is not an integer, and otherwise compares against exactly the values' integers (lines 662, 667 and 670) |
| Views.Select | backend/api/views.py:669-671 | the query returns exactly the ids of the admitted shops, no more rows than the table has |
| Views.SelectOrdered | backend/api/views.py:669-671 | over the shop table in its default order (active first, then ascending id, as the Meta ordering of Shop gives) the admitted shops, all active, come out in strictly ascending id |
| Views.GetShopIds | backend/api/views.py:659-675 | get_shop_ids raises exactly when shop_id or exclude_shop_id is given with a non-integer value; otherwise it returns active shops only, ascending |
| Views.OnlyRequested | backend/api/views.py:661-662 | with shop_id given, only the named shops are returned |
| Views.ExcludedNeverReturned | backend/api/views.py:666-670 | an excluded shop is never returned (lines 666-667 and 670) |
| Views.OwnShopsOnly | backend/api/views.py:659-665 | an ordinary user, or a superuser not naming shops, gets only their own shops (lines 659 and 661-665) |
| Views.SuperuserSeesNamed | backend/api/views.py:661-665 | a superuser naming shops gets every active named shop, whoever owns it |
| Views.Commas | backend/api/views.py:688 | replace(".", ",") turns every point into a comma and changes nothing else |
| Views.ConvertRow | backend/api/views.py:686-688 | the inner loop keeps a row's columns |
| Views.ConvertRowUntouched | backend/api/views.py:686-688 | a column not in FIELD_FLOAT is left as it was |
| Views.ConvertRowOnce | backend/api/views.py:686-688 | a column listed once is converted once: None to 0, anything else to its text with a decimal comma |
| Views.RepeatedFieldConvertsTwice | backend/api/views.py:679-688 | a Decimal field named again in fields is converted twice, so a None ends as the text of 0 |
| Views.ConvertFields | backend/api/views.py:686-688 | the inner loop computes the row's conversion over FIELD_FLOAT |
| Views.ConvertFloat | backend/api/views.py:678-690 | convert_float rewrites every row in place over the model's Decimal fields followed by fields |
| Forms.DuplicateCount | backend/mp/forms.py:64-70 | the duplicate query returns rows exactly when another active key has the same client id and secret |
| Forms.Clean | backend/mp/forms.py:54-74 | clean raises ValidationError exactly when the key is active and another active key (not the instance) shares its client id and secret; otherwise it returns cleaned_data unchanged |
| Forms.InactiveNeverRejected | backend/mp/forms.py:62-70 | an inactive key is never rejected (lines 62 and 70) |
| Forms.InstanceExcluded | backend/mp/forms.py:64-65 | editing a key does not collide with its own stored row |
| Forms.NewDuplicateRejected | backend/mp/forms.py:64-73 | a new active key repeating an active key is rejected |
| Forms.ShopChoices | backend/mp/forms.py:40-91 | with a user, the shop choices are exactly that user's shops in order; without one, all shops (lines 40-43 and 88-91) |
| RawSql.ZipDictKeys | backend/api/helpers/db.py:22 | dict(zip(columns, row)) has exactly the first min(len(columns), len(row)) column names as keys |
| RawSql.ZipDictValue | backend/api/helpers/db.py:22 | a column holds its row value when no later paired column has the same name, so for a repeated column name the last value wins |
| RawSql.DictFetchall | backend/api/helpers/db.py:19-22 | one dict per fetched row, in order |
| RawSql.FetchallColumns | backend/api/helpers/db.py:19-22 | with distinct column names and full rows every column maps to its own value |
| RawSql.ShortRowOmits | backend/api/helpers/db.py:22 | a short row leaves its missing columns out |

## Left out

- update_sku_offer (backend/mp/tasks/update_stocks.py:153-245) and update_selfbuys (backend/mp/tasks/update_orders.py:187-227): raw SQL side effects on tables outside the core; the stock and order tasks are modelled up to the point where they call them.
- update_product_statistics (backend/mp/tasks/check_campaign_report.py:197-223): a raw SQL refresh; it is the `refresh` parameter of ReportQueue.Ctx and its effect is not modelled.
- The Update_Daily calls at the end of each sync task are not composed into the sync task functions; each statement is modelled on its own in DailyRollup, and each sync task model stops before them.
- The SELECT joins of update_daily are not modelled: the roll-up statements take already-joined lines. NULL keys and NULL values in the joined lines, decimal precision and the path where params is None are not modelled either. A column an INSERT does not list is NULL (`None`), because the `default=0` of the `Daily` fields is applied by Django only.
- get_product calls lost_product(params) from mp_ozon.helpers, which is not part of this model; only its None result is modelled.
- The reporting views of api/views.py, the web UI, the command line and deployment code are outside the synchronisation core.
- The Django ORM is modelled as maps with an id counter. Only `bulk_insert_update` runs in one `transaction.atomic` block, and each call of it is modelled as all-or-nothing. `orders2db` reconciles the orders through that call, and its `transaction.atomic` block wraps only the `select_for_update` read of the stored orders; its per-line `get_or_create`, saves and deletes commit one by one, as does every other save, create or delete. select_for_update row locks, Celery dispatch and concurrent workers are not modelled, and neither is another process releasing or taking the Redis lock between two steps.
- The Redis connection and ping, logging, and real sleeping are not modelled; a sleep is an advance of the integer clock.
- The API clients (the ApiOzon and ApiPerformance constructors and their HTTP calls) are function parameters, and the mp_ozon constants are parameters.
- The model assumes ErrorRateLimit and ErrorBadApiKey are not subclasses of ErrorRequest; their definitions are in mp_ozon, which is not part of this model.
- random.choice is modelled as an arbitrary pick supplied by the caller.
- Report.updated_at is assumed to be set on every save (auto_now); report uuids are held as text and `order_by("uuid", ...)` is taken as code-point order (QueueOrder.StrLt), which is not a PostgreSQL collation; rows that Postgres would return in an unspecified order among ties are ordered by id.
- Exceptions raised by create_campaign_report other than the named API errors are reported as OtherFailure without their message.
- disabled_till is set only on the in-memory object and never saved, as in the source; the model keeps it in memory only.
- A text value stored under the lock key makes float() raise in the source; the model stores only numeric timestamps.
- Type coercion by the database on store (strings to numbers, decimals, dates) is not modelled, so the model claims no full idempotence of a re-run of the reconciler.
- Reconciler.BulkInsertUpdate: states agreement with the specification function on the new tables and on whether it failed, but not which error is raised on failure.
- Transactions.TransactionsToDb: states agreement with its specification function; on failure the kind of error is not pinned.
- Orders.UpsertLineM: states agreement with its specification function; on failure the kind of error is not pinned.
- Orders.MirrorOrderM: states agreement with its specification function; on failure the kind of error is not pinned.
- Orders.OrdersToDbM: states agreement with its specification function; on failure the kind of error is not pinned.
- Analytics.AnalyticsToDb: states agreement with its specification function; on failure the kind of error is not pinned.
- OrderRuns.WritePage: states agreement with its specification function; on failure the kind of error is not pinned.
- CampaignStats.ApiCampaignStatisticsM: states agreement with its specification function; on failure the kind of error is not pinned.
- Reconciler.DiffRow: the hook is given the stored row as it was before the field loop, whereas the source has already set the earlier changed attributes on it. Records are maps without key order, so the incoming dict's order is not modelled. The only hook, transaction_changed, reads just "type" and its own field (TransactionFacts.HookReads), so the two differ only when an incoming row changes "type" and lists it before "services".
- Reconciler.BulkInsertUpdate: inherits DiffRow's stored-row hook argument.
- Products.ApplyFields: when the raising fields raise different kinds, the model reports the first kind in the declaration order of the kinds (Products.Pick), whereas the source raises the kind of the first raising field in the merged dict's order; records are maps without key order. When one kind is raised, the two agree.
- Products.Fixed5: numbers are exact decimals, so the binary rounding of a JSON float at a half-way point and the sign of a float negative zero are not modelled.
- ReconcilerFacts.DecimalRule: `f"{float(value):.5f}"` in bulk_insert_update is modelled by the exact Values.Render5, so the binary rounding of a float at a half-way point is not modelled.
- Orders.DiffLine: the five-place comparison of decimal line fields uses the exact Values.Render5, with the same half-way rounding left out.
- Transactions.TransactionChanged: the services column is JSON text that the hook decodes with json.loads, while the model holds the decoded value. The decoded lists are compared structurally, whereas Python's `==` on lists of dicts compares numbers by value, so a stored price `1` against an incoming `1.0` is a change in the model and none in the source. The reconciler's fallback `!=` on the text of a non-"orders" row is modelled as PyEq on the decoded values.
- TransactionFacts.HookVerdict: "different services" is structural inequality of the decoded lists, not Python's `==` on them, as for Transactions.TransactionChanged.
- DailyRollup.DailyTable.UpdateTransactions: operation_date is taken as an instant in whole seconds, as api/views.py formats it with a time of day and casts it with DATE(); the mp_ozon Transaction model is not part of this model. Its day is the floor of the instant divided by 86400, so the database session's time zone is not modelled.
- ServiceLists.NameOf: a name that is not a string is reported as TypeError even where Python would sort without comparing it with a string (a one-element list, or names that are all integers).
- Stocks.UpdateStocksM: an exception escaping update_products or get_key is returned as that exception alone. The products update_products saved before raising are not part of this result; ProductFacts.UpdateProductsKeeps states what they are.
- CampaignStats.UpdateCampaignStatisticsM: agrees with its specification function on the outcome and the stores, but not on the failure reason.

## Findings

| source | as written | input that shows it | evidently intended | confidence | as-written member | corrected member |
|---|---|---|---|---|---|---|
| backend/mp/tasks/update_transactions.py:64 | the end of the current month is computed as `date(y, m + 1, 1)` minus one day, and month 13 raises ValueError | any run whose today is in December | the last day of the current month, 31 December | not executed | TransactionFacts.DecemberFails | TransactionFacts.TransactionSchedule |
| backend/mp/tasks/update_products.py:104-107 | the message reports `len(to_delete)` after `to_delete.delete()`; the delete empties the queryset's cache, so len() runs the filter again and finds none | a run that deletes one unlisted product of the shop | the number of products deleted | not executed | ProductFacts.DeletedCountAsWritten | ProductFacts.DeletedCount |
| backend/mp/tasks/update_stocks.py:41-68 | result_wh_stocks is assigned only in the branch taken when the shop has products (`if cnt:`), so with no products the final return reads an unbound name and raises UnboundLocalError | a shop whose product listing is empty, so update_products leaves it no products | return the summary with an empty warehouse-stock part, as result_stocks already does | not executed | StockFacts.EmptyListingFails | Stocks.UpdateStocksM |
