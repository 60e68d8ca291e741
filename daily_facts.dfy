/** What the Update_Daily statements promise: a statement sets only its own columns, leaves
    a new row NULL in every other metric, touches only the keys it proposes, may be
    repeated, does not depend on the order of its GROUP BY; and each SELECT computes the sums,
    maxima and minima named in its query. */
module DailyFacts {
  import opened Wrappers
  import opened DailyRollup
  import Values

  // ---------------------------------------------------------------- one statement

  lemma DistinctTail(batch: seq<(Key, Row)>)
    requires |batch| > 0 && DistinctKeys(batch)
    ensures DistinctKeys(batch[1..])
    ensures forall i :: 0 <= i < |batch[1..]| ==> batch[1..][i].0 != batch[0].0
  {
    forall i, j | 0 <= i < j < |batch[1..]| ensures batch[1..][i].0 != batch[1..][j].0 {
      assert batch[1..][i] == batch[i + 1] && batch[1..][j] == batch[j + 1];
    }
    forall i | 0 <= i < |batch[1..]| ensures batch[1..][i].0 != batch[0].0 {
      assert batch[1..][i] == batch[i + 1];
    }
  }

  lemma BatchKeysCons(batch: seq<(Key, Row)>)
    requires |batch| > 0
    ensures BatchKeys(batch) == {batch[0].0} + BatchKeys(batch[1..])
  {
    forall k | k in BatchKeys(batch) ensures k in {batch[0].0} + BatchKeys(batch[1..]) {
      var i :| 0 <= i < |batch| && batch[i].0 == k;
      if i > 0 { assert batch[1..][i - 1].0 == k; }
    }
    forall k | k in BatchKeys(batch[1..]) ensures k in BatchKeys(batch) {
      var i :| 0 <= i < |batch[1..]| && batch[1..][i].0 == k;
      assert batch[i + 1].0 == k;
    }
    assert batch[0].0 in BatchKeys(batch);
  }

  /** A statement whose keys are distinct leaves every proposed key upserted against the table
      as it was, and every other row as it was: the order of the proposed rows is immaterial. */
  lemma {:induction false} ApplyAt(rows: map<Key, Row>, batch: seq<(Key, Row)>, cols: set<Column>)
    requires DistinctKeys(batch)
    ensures forall k :: k in Apply(rows, batch, cols) <==> k in rows || k in BatchKeys(batch)
    ensures forall i :: 0 <= i < |batch| ==>
      batch[i].0 in Apply(rows, batch, cols) && Apply(rows, batch, cols)[batch[i].0] == Upserted(rows, batch[i].0, batch[i].1, cols)
    ensures forall k :: k in rows && k !in BatchKeys(batch) ==> Apply(rows, batch, cols)[k] == rows[k]
    decreases |batch|
  {
    if |batch| > 0 {
      var k0 := batch[0].0;
      var rows' := rows[k0 := Upserted(rows, k0, batch[0].1, cols)];
      var rest := batch[1..];
      DistinctTail(batch);
      BatchKeysCons(batch);
      ApplyAt(rows', rest, cols);
      assert k0 !in BatchKeys(rest);
      forall i | 0 <= i < |batch|
        ensures batch[i].0 in Apply(rows, batch, cols) && Apply(rows, batch, cols)[batch[i].0] == Upserted(rows, batch[i].0, batch[i].1, cols)
      {
        if i > 0 {
          assert batch[i] == rest[i - 1];
          assert Upserted(rows', batch[i].0, batch[i].1, cols) == Upserted(rows, batch[i].0, batch[i].1, cols);
        }
      }
    }
  }

  /** An upsert keeps every row and never changes a column outside its DO UPDATE SET. */
  lemma ColumnIsolation(rows: map<Key, Row>, batch: seq<(Key, Row)>, cols: set<Column>)
    requires DistinctKeys(batch)
    ensures forall k :: k in rows ==> k in Apply(rows, batch, cols)
    ensures forall k, c :: k in rows && c !in cols ==> Apply(rows, batch, cols)[k].Get(c) == rows[k].Get(c)
  {
    ApplyAt(rows, batch, cols);
    forall k, c | k in rows && c !in cols ensures Apply(rows, batch, cols)[k].Get(c) == rows[k].Get(c) {
      if k in BatchKeys(batch) {
        var i :| 0 <= i < |batch| && batch[i].0 == k;
      }
    }
  }

  /** A row the statement inserts holds NULL in every metric it does not list. */
  lemma FreshRowNulls(rows: map<Key, Row>, batch: seq<(Key, Row)>, cols: set<Column>)
    requires DistinctKeys(batch)
    ensures forall k, c :: k in Apply(rows, batch, cols) && k !in rows && c !in cols ==> Apply(rows, batch, cols)[k].Get(c).None?
  {
    ApplyAt(rows, batch, cols);
    forall k, c | k in Apply(rows, batch, cols) && k !in rows && c !in cols ensures Apply(rows, batch, cols)[k].Get(c).None? {
      var i :| 0 <= i < |batch| && batch[i].0 == k;
    }
  }

  /** Every proposed row's own columns are stored, inserted or updated. */
  lemma ApplySets(rows: map<Key, Row>, batch: seq<(Key, Row)>, cols: set<Column>)
    requires DistinctKeys(batch)
    ensures forall i, c :: 0 <= i < |batch| && c in cols ==>
      batch[i].0 in Apply(rows, batch, cols) && Apply(rows, batch, cols)[batch[i].0].Get(c) == batch[i].1.Get(c)
  {
    ApplyAt(rows, batch, cols);
  }

  /** Rows the statement does not propose are neither added, changed nor removed. */
  lemma Untouched(rows: map<Key, Row>, batch: seq<(Key, Row)>, cols: set<Column>)
    requires DistinctKeys(batch)
    ensures forall k :: k !in BatchKeys(batch) ==> (k in Apply(rows, batch, cols) <==> k in rows)
    ensures forall k :: k in rows && k !in BatchKeys(batch) ==> Apply(rows, batch, cols)[k] == rows[k]
  {
    ApplyAt(rows, batch, cols);
  }

  lemma OverwriteTwice(r: Row, inc: Row, cols: set<Column>)
    ensures Overwrite(Overwrite(r, inc, cols), inc, cols) == Overwrite(r, inc, cols)
  {
  }

  lemma IdempotentAt(rows: map<Key, Row>, batch: seq<(Key, Row)>, cols: set<Column>, k: Key)
    requires DistinctKeys(batch) && k in Apply(rows, batch, cols)
    ensures k in Apply(Apply(rows, batch, cols), batch, cols)
    ensures Apply(Apply(rows, batch, cols), batch, cols)[k] == Apply(rows, batch, cols)[k]
  {
    var once := Apply(rows, batch, cols);
    ApplyAt(rows, batch, cols);
    ApplyAt(once, batch, cols);
    if k in BatchKeys(batch) {
      var i :| 0 <= i < |batch| && batch[i].0 == k;
      OverwriteTwice(if k in rows then rows[k] else Nulls, batch[i].1, cols);
    }
  }

  /** Running a statement again on the same source lines changes nothing. */
  lemma ApplyIdempotent(rows: map<Key, Row>, batch: seq<(Key, Row)>, cols: set<Column>)
    requires DistinctKeys(batch)
    ensures Apply(Apply(rows, batch, cols), batch, cols) == Apply(rows, batch, cols)
  {
    var once := Apply(rows, batch, cols);
    ApplyAt(rows, batch, cols);
    ApplyAt(once, batch, cols);
    assert Apply(once, batch, cols).Keys == once.Keys;
    forall k | k in once ensures Apply(once, batch, cols)[k] == once[k] {
      IdempotentAt(rows, batch, cols, k);
    }
  }

  lemma SameKeys(batch: seq<(Key, Row)>, batch': seq<(Key, Row)>)
    requires multiset(batch) == multiset(batch')
    ensures BatchKeys(batch) == BatchKeys(batch')
  {
    forall k | k in BatchKeys(batch) ensures k in BatchKeys(batch') {
      var i :| 0 <= i < |batch| && batch[i].0 == k;
      assert batch[i] in multiset(batch');
      var j :| 0 <= j < |batch'| && batch'[j] == batch[i];
    }
    forall k | k in BatchKeys(batch') ensures k in BatchKeys(batch) {
      var j :| 0 <= j < |batch'| && batch'[j].0 == k;
      assert batch'[j] in multiset(batch);
      var i :| 0 <= i < |batch| && batch[i] == batch'[j];
    }
  }

  lemma SameRow(rows: map<Key, Row>, batch: seq<(Key, Row)>, batch': seq<(Key, Row)>, cols: set<Column>, k: Key)
    requires DistinctKeys(batch) && DistinctKeys(batch') && multiset(batch) == multiset(batch')
    requires k in BatchKeys(batch)
    ensures k in Apply(rows, batch, cols) && k in Apply(rows, batch', cols)
    ensures Apply(rows, batch, cols)[k] == Apply(rows, batch', cols)[k]
  {
    ApplyAt(rows, batch, cols);
    ApplyAt(rows, batch', cols);
    var i :| 0 <= i < |batch| && batch[i].0 == k;
    assert batch[i] in multiset(batch');
    var j :| 0 <= j < |batch'| && batch'[j] == batch[i];
  }

  /** The order a GROUP BY hands out its groups in does not matter. */
  lemma OrderIndependent(rows: map<Key, Row>, batch: seq<(Key, Row)>, batch': seq<(Key, Row)>, cols: set<Column>)
    requires DistinctKeys(batch) && DistinctKeys(batch') && multiset(batch) == multiset(batch')
    ensures Apply(rows, batch, cols) == Apply(rows, batch', cols)
  {
    var one := Apply(rows, batch, cols);
    var two := Apply(rows, batch', cols);
    SameKeys(batch, batch');
    SameRowKeys(rows, batch, batch', cols);
    forall k | k in one ensures one[k] == two[k] {
      if k in BatchKeys(batch) {
        SameRow(rows, batch, batch', cols, k);
      } else {
        Untouched(rows, batch, cols);
        Untouched(rows, batch', cols);
      }
    }
  }

  lemma SameRowKeys(rows: map<Key, Row>, batch: seq<(Key, Row)>, batch': seq<(Key, Row)>, cols: set<Column>)
    requires DistinctKeys(batch) && DistinctKeys(batch') && BatchKeys(batch) == BatchKeys(batch')
    ensures Apply(rows, batch, cols).Keys == Apply(rows, batch', cols).Keys
  {
    ApplyAt(rows, batch, cols);
    ApplyAt(rows, batch', cols);
  }

  // ---------------------------------------------------------------- stocks

  /** Each of the shop's lines with a positive sku is proposed. */
  lemma {:induction false} StocksIncluded(shop: nat, lines: seq<StockLine>, j: nat)
    requires j < |lines| && lines[j].shop == shop && lines[j].sku > 0
    ensures exists m :: (0 <= m < |StockBatch(shop, lines)| &&
      StockBatch(shop, lines)[m] == (Key(shop, lines[j].date, lines[j].sku), Nulls.(stocks := Some(lines[j].present))))
    decreases j
  {
    var b := StockBatch(shop, lines);
    var rest := StockBatch(shop, lines[1..]);
    if j == 0 {
      assert b[0] == (Key(shop, lines[0].date, lines[0].sku), Nulls.(stocks := Some(lines[0].present)));
    } else {
      assert lines[1..][j - 1] == lines[j];
      StocksIncluded(shop, lines[1..], j - 1);
      var m :| 0 <= m < |rest| && rest[m] == (Key(shop, lines[j].date, lines[j].sku), Nulls.(stocks := Some(lines[j].present)));
      if b != rest {
        assert b[m + 1] == rest[m];
      }
    }
  }

  /** Each proposed stock row is one of the shop's lines with a positive sku. */
  lemma {:induction false} StocksFromLines(shop: nat, lines: seq<StockLine>, m: nat)
    requires m < |StockBatch(shop, lines)|
    ensures exists j :: (0 <= j < |lines| && lines[j].shop == shop && lines[j].sku > 0 &&
      StockBatch(shop, lines)[m] == (Key(shop, lines[j].date, lines[j].sku), Nulls.(stocks := Some(lines[j].present))))
    decreases |lines|
  {
    var b := StockBatch(shop, lines);
    var rest := StockBatch(shop, lines[1..]);
    var l := lines[0];
    if l.shop == shop && l.sku > 0 && m == 0 {
      assert b[0] == (Key(shop, l.date, l.sku), Nulls.(stocks := Some(l.present)));
    } else {
      var m' := if l.shop == shop && l.sku > 0 then m - 1 else m;
      assert b[m] == rest[m'];
      StocksFromLines(shop, lines[1..], m');
      var j :| 0 <= j < |lines[1..]| && lines[1..][j].shop == shop && lines[1..][j].sku > 0 &&
        rest[m'] == (Key(shop, lines[1..][j].date, lines[1..][j].sku), Nulls.(stocks := Some(lines[1..][j].present)));
      assert lines[1..][j] == lines[j + 1];
    }
  }

  /** Two of the shop's stock lines for one (date, sku) make the stocks statement fail. */
  lemma {:induction false} StocksTwiceFails(shop: nat, lines: seq<StockLine>, i: nat, j: nat)
    requires i < j < |lines|
    requires lines[i].shop == shop && lines[j].shop == shop && lines[i].sku > 0
    requires lines[i].date == lines[j].date && lines[i].sku == lines[j].sku
    ensures !DistinctKeys(StockBatch(shop, lines))
    decreases i
  {
    var b := StockBatch(shop, lines);
    var rest := StockBatch(shop, lines[1..]);
    assert lines[1..][j - 1] == lines[j];
    if i == 0 {
      StocksIncluded(shop, lines[1..], j - 1);
      var m :| 0 <= m < |rest| && rest[m].0 == Key(shop, lines[j].date, lines[j].sku);
      assert b[0].0 == b[m + 1].0;
    } else {
      assert lines[1..][i - 1] == lines[i];
      StocksTwiceFails(shop, lines[1..], i - 1, j - 1);
      var p, q :| 0 <= p < q < |rest| && rest[p].0 == rest[q].0;
      if b != rest {
        assert b[p + 1] == rest[p] && b[q + 1] == rest[q];
      }
    }
  }

  // ---------------------------------------------------------------- transactions

  lemma {:induction false} CountedConcat(shop: nat, a: seq<TransactionLine>, b: seq<TransactionLine>)
    ensures CountedTransactions(shop, a + b) == CountedTransactions(shop, a) + CountedTransactions(shop, b)
    decreases |a|
  {
    if |a| > 0 {
      assert (a + b)[0] == a[0] && (a + b)[1..] == a[1..] + b;
      CountedConcat(shop, a[1..], b);
    } else {
      assert a + b == b;
    }
  }

  /** An operation of any other type, or of another shop, changes nothing the statement proposes. */
  lemma TransactionsIgnoreOthers(shop: nat, a: seq<TransactionLine>, l: TransactionLine, b: seq<TransactionLine>)
    requires l.shop != shop || (l.operationType != PremiumCashback && l.operationType != Installment)
    ensures TransactionBatch(shop, a + [l] + b) == TransactionBatch(shop, a + b)
  {
    CountedConcat(shop, a + [l], b);
    CountedConcat(shop, a, [l]);
    CountedConcat(shop, a, b);
    assert CountedTransactions(shop, [l]) == [] by {
      assert [l][1..] == [];
    }
    assert CountedTransactions(shop, a + [l]) == CountedTransactions(shop, a);
    assert CountedTransactions(shop, a + [l] + b) == CountedTransactions(shop, a + b);
  }

  /** The whole amount of a group's lines. */
  function Total(group: seq<TransactionLine>): int
  {
    if |group| == 0 then 0 else group[0].amount + Total(group[1..])
  }

  lemma {:induction false} PremiumPlusInstallment(group: seq<TransactionLine>)
    requires forall i :: 0 <= i < |group| ==> group[i].operationType == PremiumCashback || group[i].operationType == Installment
    ensures AmountOf(group, PremiumCashback) + AmountOf(group, Installment) == Total(group)
    decreases |group|
  {
    if |group| > 0 {
      assert PremiumCashback != Installment by { assert PremiumCashback[0] != Installment[0]; }
      assert forall i :: 0 <= i < |group[1..]| ==> group[1..][i] == group[i + 1];
      PremiumPlusInstallment(group[1..]);
    }
  }

  /** A group of the transactions SELECT comes from a counted operation of its key. */
  lemma GroupFrom(shop: nat, lines: seq<TransactionLine>, i: nat)
    requires i < |TransactionGroups(shop, lines)|
    ensures exists l :: l in CountedTransactions(shop, lines) && TransactionKey(l) == TransactionGroups(shop, lines)[i].0
  {
    var g := TransactionGroups(shop, lines);
    GroupedKeys(CountedTransactions(shop, lines), TransactionKey, TransactionRow);
    assert g[i].0 in BatchKeys(g);
  }

  /** Every counted operation has its group. */
  lemma GroupOf(shop: nat, lines: seq<TransactionLine>, l: TransactionLine)
    requires l in CountedTransactions(shop, lines)
    ensures exists i :: 0 <= i < |TransactionGroups(shop, lines)| && TransactionGroups(shop, lines)[i].0 == TransactionKey(l)
  {
    var g := TransactionGroups(shop, lines);
    GroupedKeys(CountedTransactions(shop, lines), TransactionKey, TransactionRow);
    assert TransactionKey(l) in BatchKeys(g);
  }

  /** Each group of the transactions SELECT is one (operation_date, sku) of the shop's counted
      operations, each proposed Daily key is the day of one, and a group's premium and
      rassrochka together are all of its amounts. */
  lemma TransactionsSplit(shop: nat, lines: seq<TransactionLine>)
    ensures forall k :: k in BatchKeys(TransactionGroups(shop, lines)) <==>
      exists l :: l in lines && l.shop == shop && l.operationType in {PremiumCashback, Installment} && TransactionKey(l) == k
    ensures forall k :: k in BatchKeys(TransactionBatch(shop, lines)) <==>
      exists l :: l in lines && l.shop == shop && l.operationType in {PremiumCashback, Installment} && TransactionDay(l) == k
    ensures var g := TransactionGroups(shop, lines);
      forall i :: 0 <= i < |g| ==>
        g[i].1.premium.Some? && g[i].1.rassrochka.Some? && g[i].1.premium.value + g[i].1.rassrochka.value == Total(OfKey(CountedTransactions(shop, lines), TransactionKey, g[i].0))
  {
    var counted := CountedTransactions(shop, lines);
    GroupedKeys(counted, TransactionKey, TransactionRow);
    var g := TransactionGroups(shop, lines);
    var b := TransactionBatch(shop, lines);
    forall k | k in BatchKeys(b)
      ensures exists l :: l in lines && l.shop == shop && l.operationType in {PremiumCashback, Installment} && TransactionDay(l) == k
    {
      var i :| 0 <= i < |b| && b[i].0 == k;
      GroupFrom(shop, lines, i);
      var l :| l in counted && TransactionKey(l) == g[i].0;
      assert TransactionDay(l) == k;
    }
    forall l | l in lines && l.shop == shop && l.operationType in {PremiumCashback, Installment}
      ensures TransactionDay(l) in BatchKeys(b)
    {
      GroupOf(shop, lines, l);
      var i :| 0 <= i < |g| && g[i].0 == TransactionKey(l);
      assert b[i].0 == TransactionDay(l);
    }
    forall i | 0 <= i < |g|
      ensures g[i].1.premium.Some? && g[i].1.rassrochka.Some? && g[i].1.premium.value + g[i].1.rassrochka.value == Total(OfKey(counted, TransactionKey, g[i].0))
    {
      var grp := OfKey(counted, TransactionKey, g[i].0);
      OfKeyMembers(counted, TransactionKey, g[i].0);
      assert forall j :: 0 <= j < |grp| ==> grp[j] in grp;
      PremiumPlusInstallment(grp);
    }
  }

  /** No sku has counted operations at two different instants of one day. */
  predicate OneInstantPerDay(counted: seq<TransactionLine>)
  {
    forall l, l' :: l in counted && l' in counted && l.sku == l'.sku && Values.DayOf(l.at) == Values.DayOf(l'.at) ==>
      l.at == l'.at
  }

  /** The transactions statement succeeds exactly when no sku of the shop has counted
      operations at two different instants of one day: GROUP BY keeps such instants apart,
      and the date column then receives their day twice. */
  lemma TransactionsDistinct(shop: nat, lines: seq<TransactionLine>)
    ensures DistinctKeys(TransactionBatch(shop, lines)) <==> OneInstantPerDay(CountedTransactions(shop, lines))
  {
    var counted := CountedTransactions(shop, lines);
    var g := TransactionGroups(shop, lines);
    var b := TransactionBatch(shop, lines);
    if OneInstantPerDay(counted) {
      forall i, j | 0 <= i < j < |b| ensures b[i].0 != b[j].0 {
        GroupFrom(shop, lines, i);
        GroupFrom(shop, lines, j);
        var l :| l in counted && TransactionKey(l) == g[i].0;
        var l' :| l' in counted && TransactionKey(l') == g[j].0;
        assert g[i].0 != g[j].0;
      }
    } else {
      var l, l' :| l in counted && l' in counted && l.sku == l'.sku && Values.DayOf(l.at) == Values.DayOf(l'.at) && l.at != l'.at;
      GroupOf(shop, lines, l);
      GroupOf(shop, lines, l');
      var i :| 0 <= i < |g| && g[i].0 == TransactionKey(l);
      var j :| 0 <= j < |g| && g[j].0 == TransactionKey(l');
      assert b[i].0 == b[j].0 && i != j;
    }
  }

  /** Two counted operations of one sku an hour apart on one day fail the statement. */
  lemma SameDayFails(shop: nat, sku: int)
    ensures !DistinctKeys(TransactionBatch(shop, [TransactionLine(0, sku, shop, Installment, 1), TransactionLine(3600, sku, shop, Installment, 2)]))
  {
    var lines := [TransactionLine(0, sku, shop, Installment, 1), TransactionLine(3600, sku, shop, Installment, 2)];
    TransactionsDistinct(shop, lines);
    assert lines[0] in CountedTransactions(shop, lines) && lines[1] in CountedTransactions(shop, lines);
    assert Values.DayOf(0) == Values.DayOf(3600);
  }

  // ---------------------------------------------------------------- orders

  /** SUM(quantity) over the shop's lines of one key, each counted once per self-buy it
      matches: an independent statement of what the joined sum is. */
  function WeightedQuantity(shop: nat, lines: seq<OrderLine>, selfbuys: seq<Selfbuy>, k: Key): int
  {
    if |lines| == 0 then 0
    else (if lines[0].shop == shop && OrderKey(lines[0]) == k then lines[0].quantity * Matches(lines[0], selfbuys) else 0)
         + WeightedQuantity(shop, lines[1..], selfbuys, k)
  }

  function WeightedAmount(shop: nat, lines: seq<OrderLine>, selfbuys: seq<Selfbuy>, k: Key): int
  {
    if |lines| == 0 then 0
    else (if lines[0].shop == shop && OrderKey(lines[0]) == k then lines[0].quantity * lines[0].price * Matches(lines[0], selfbuys) else 0)
         + WeightedAmount(shop, lines[1..], selfbuys, k)
  }

  lemma {:induction false} OfKeyConcat(a: seq<OrderLine>, b: seq<OrderLine>, k: Key)
    ensures OfKey(a + b, OrderKey, k) == OfKey(a, OrderKey, k) + OfKey(b, OrderKey, k)
    decreases |a|
  {
    if |a| > 0 {
      assert (a + b)[0] == a[0] && (a + b)[1..] == a[1..] + b;
      OfKeyConcat(a[1..], b, k);
    } else {
      assert a + b == b;
    }
  }

  lemma {:induction false} SumsConcat(a: seq<OrderLine>, b: seq<OrderLine>)
    ensures Quantities(a + b) == Quantities(a) + Quantities(b)
    ensures Amounts(a + b) == Amounts(a) + Amounts(b)
    decreases |a|
  {
    if |a| > 0 {
      assert (a + b)[0] == a[0] && (a + b)[1..] == a[1..] + b;
      SumsConcat(a[1..], b);
    } else {
      assert a + b == b;
    }
  }

  lemma Distribute(a: int, m: nat)
    requires m > 0
    ensures a * m == a + a * (m - 1)
  {
  }

  lemma {:induction false} CopiesSums(l: OrderLine, m: nat, k: Key)
    ensures OfKey(Copies(l, m), OrderKey, k) == if OrderKey(l) == k then Copies(l, m) else []
    ensures Quantities(Copies(l, m)) == l.quantity * m
    ensures Amounts(Copies(l, m)) == l.quantity * l.price * m
    decreases m
  {
    if m > 0 {
      var c := Copies(l, m);
      assert c[0] == l && c[1..] == Copies(l, m - 1);
      CopiesSums(l, m - 1, k);
      var q := l.quantity;
      var a := l.quantity * l.price;
      assert Quantities(c) == q + Quantities(Copies(l, m - 1)) == q + q * (m - 1);
      assert Amounts(c) == a + Amounts(Copies(l, m - 1)) == a + a * (m - 1);
      Distribute(q, m);
      Distribute(a, m);
    }
  }

  /** A line of another shop, or one no self-buy names by order or posting number, changes
      nothing; a line two self-buys name is counted twice. */
  lemma {:induction false} OrderSumsWeighted(shop: nat, lines: seq<OrderLine>, selfbuys: seq<Selfbuy>, k: Key)
    ensures Quantities(OfKey(Joined(shop, lines, selfbuys), OrderKey, k)) == WeightedQuantity(shop, lines, selfbuys, k)
    ensures Amounts(OfKey(Joined(shop, lines, selfbuys), OrderKey, k)) == WeightedAmount(shop, lines, selfbuys, k)
    decreases |lines|
  {
    if |lines| > 0 {
      var l := lines[0];
      var m := Matches(l, selfbuys);
      var copies := if l.shop == shop then Copies(l, m) else [];
      var rest := Joined(shop, lines[1..], selfbuys);
      OfKeyConcat(copies, rest, k);
      SumsConcat(OfKey(copies, OrderKey, k), OfKey(rest, OrderKey, k));
      CopiesSums(l, m, k);
      OrderSumsWeighted(shop, lines[1..], selfbuys, k);
    }
  }

  /** The orders statement: each proposed row's selfbuy_cnt and selfbuy_amount are the
      weighted sums of the shop's matched lines of its key. */
  lemma OrderBatchSums(shop: nat, lines: seq<OrderLine>, selfbuys: seq<Selfbuy>)
    ensures var b := OrderBatch(shop, lines, selfbuys);
      forall i :: 0 <= i < |b| ==>
        && b[i].1.selfbuyCnt == Some(WeightedQuantity(shop, lines, selfbuys, b[i].0))
        && b[i].1.selfbuyAmount == Some(WeightedAmount(shop, lines, selfbuys, b[i].0))
  {
    var b := OrderBatch(shop, lines, selfbuys);
    forall i | 0 <= i < |b|
      ensures b[i].1.selfbuyCnt == Some(WeightedQuantity(shop, lines, selfbuys, b[i].0))
      ensures b[i].1.selfbuyAmount == Some(WeightedAmount(shop, lines, selfbuys, b[i].0))
    {
      OrderSumsWeighted(shop, lines, selfbuys, b[i].0);
    }
  }

  /** An order without a matching self-buy adds no sum. */
  lemma UnmatchedWeighsNothing(shop: nat, l: OrderLine, selfbuys: seq<Selfbuy>, k: Key)
    requires forall s :: s in selfbuys ==> s.shop != l.shop || (s.order != l.orderNumber && s.order != l.postingNumber)
    ensures WeightedQuantity(shop, [l], selfbuys, k) == 0 && WeightedAmount(shop, [l], selfbuys, k) == 0
  {
    NoMatches(l, selfbuys);
    assert [l][1..] == [];
  }

  lemma {:induction false} NoMatches(l: OrderLine, selfbuys: seq<Selfbuy>)
    requires forall s :: s in selfbuys ==> s.shop != l.shop || (s.order != l.orderNumber && s.order != l.postingNumber)
    ensures Matches(l, selfbuys) == 0
    decreases |selfbuys|
  {
    if |selfbuys| > 0 {
      assert selfbuys[0] in selfbuys;
      assert forall s :: s in selfbuys[1..] ==> s in selfbuys;
      NoMatches(l, selfbuys[1..]);
    }
  }

  // ---------------------------------------------------------------- campaigns

  /** The campaigns statement: each proposed row's bid is the largest and its visibility the
      smallest of the shop's history lines of its key, and one line attains each. */
  lemma HistoryMaxMin(shop: nat, lines: seq<HistoryLine>)
    ensures var b := HistoryBatch(shop, lines);
      forall i :: 0 <= i < |b| ==>
        && (forall l :: l in lines && l.shop == shop && HistoryKey(l) == b[i].0 ==>
              b[i].1.advPromoBid.Some? && b[i].1.advPromoVisibility.Some? && l.bid <= b[i].1.advPromoBid.value && b[i].1.advPromoVisibility.value <= l.visibility)
        && (exists l :: l in lines && l.shop == shop && HistoryKey(l) == b[i].0 && Some(l.bid) == b[i].1.advPromoBid)
        && (exists l :: l in lines && l.shop == shop && HistoryKey(l) == b[i].0 && Some(l.visibility) == b[i].1.advPromoVisibility)
  {
    var h := ShopHistory(shop, lines);
    GroupedKeys(h, HistoryKey, HistoryRow);
    var b := HistoryBatch(shop, lines);
    forall i | 0 <= i < |b|
      ensures forall l :: l in lines && l.shop == shop && HistoryKey(l) == b[i].0 ==>
                b[i].1.advPromoBid.Some? && b[i].1.advPromoVisibility.Some? && l.bid <= b[i].1.advPromoBid.value && b[i].1.advPromoVisibility.value <= l.visibility
      ensures exists l :: l in lines && l.shop == shop && HistoryKey(l) == b[i].0 && Some(l.bid) == b[i].1.advPromoBid
      ensures exists l :: l in lines && l.shop == shop && HistoryKey(l) == b[i].0 && Some(l.visibility) == b[i].1.advPromoVisibility
    {
      GroupBounds(h, b[i].0);
      assert b[i].0 in BatchKeys(b);
      var l0 :| l0 in h && HistoryKey(l0) == b[i].0;
      var g := OfKey(h, HistoryKey, b[i].0);
      OfKeyMembers(h, HistoryKey, b[i].0);
      assert l0 in g;
    }
  }

  lemma GroupBounds(h: seq<HistoryLine>, k: Key)
    ensures var g := OfKey(h, HistoryKey, k);
      |g| > 0 ==>
        && (forall l :: l in g ==> HistoryRow(g).advPromoBid.Some? && HistoryRow(g).advPromoVisibility.Some? && l.bid <= HistoryRow(g).advPromoBid.value && HistoryRow(g).advPromoVisibility.value <= l.visibility)
        && (exists l :: l in g && Some(l.bid) == HistoryRow(g).advPromoBid)
        && (exists l :: l in g && Some(l.visibility) == HistoryRow(g).advPromoVisibility)
  {
    var g := OfKey(h, HistoryKey, k);
    OfKeyMembers(h, HistoryKey, k);
    if |g| > 0 {
      var bids := seq(|g|, i requires 0 <= i < |g| => g[i].bid);
      var vis := seq(|g|, i requires 0 <= i < |g| => g[i].visibility);
      forall l | l in g ensures HistoryRow(g).advPromoBid.Some? && HistoryRow(g).advPromoVisibility.Some? && l.bid <= HistoryRow(g).advPromoBid.value && HistoryRow(g).advPromoVisibility.value <= l.visibility {
        var j :| 0 <= j < |g| && g[j] == l;
        assert bids[j] == l.bid && vis[j] == l.visibility;
      }
      var jb :| 0 <= jb < |g| && bids[jb] == MaxOf(bids);
      assert g[jb] in g;
      var jv :| 0 <= jv < |g| && vis[jv] == MinOf(vis);
      assert g[jv] in g;
    }
  }
}
