/** Update_Daily of backend/api/helpers/update_daily.py over the Daily table of
    backend/api/models.py: four statements, each an INSERT ... ON CONFLICT (shop_id, date, sku)
    DO UPDATE over rows selected from already joined source lines, each setting only its own
    metric columns. */
module DailyRollup {
  import opened Wrappers
  import Values

  // ---------------------------------------------------------------- the Daily table

  /** The unique key of a Daily row; dates are day numbers. */
  datatype Key = Key(shop: nat, date: int, sku: int)

  /** The metric columns of a Daily row. */
  datatype Column = StocksCol | SelfbuyCnt | SelfbuyAmount | Premium | Rassrochka | AdvPromoBid | AdvPromoVisibility

  /** The metrics of one row, None for NULL; the decimal columns (four places) are held in
      ten-thousandths.  A proposed row holds the columns its INSERT lists and None elsewhere. */
  datatype Row = Row(stocks: Option<int>, selfbuyCnt: Option<int>, selfbuyAmount: Option<int>, premium: Option<int>,
                     rassrochka: Option<int>, advPromoBid: Option<int>, advPromoVisibility: Option<int>)
  {
    function Get(c: Column): Option<int>
    {
      match c
      case StocksCol => stocks
      case SelfbuyCnt => selfbuyCnt
      case SelfbuyAmount => selfbuyAmount
      case Premium => premium
      case Rassrochka => rassrochka
      case AdvPromoBid => advPromoBid
      case AdvPromoVisibility => advPromoVisibility
    }
  }

  /** The model's default=0 is applied by the ORM only; the table itself has no default,
      so a column an INSERT does not list is NULL. */
  const Nulls: Row := Row(None, None, None, None, None, None, None)

  /** r with the columns cols taken from inc. */
  function Overwrite(r: Row, inc: Row, cols: set<Column>): (o: Row)
    ensures forall c :: o.Get(c) == if c in cols then inc.Get(c) else r.Get(c)
  {
    Row(if StocksCol in cols then inc.stocks else r.stocks,
        if SelfbuyCnt in cols then inc.selfbuyCnt else r.selfbuyCnt,
        if SelfbuyAmount in cols then inc.selfbuyAmount else r.selfbuyAmount,
        if Premium in cols then inc.premium else r.premium,
        if Rassrochka in cols then inc.rassrochka else r.rassrochka,
        if AdvPromoBid in cols then inc.advPromoBid else r.advPromoBid,
        if AdvPromoVisibility in cols then inc.advPromoVisibility else r.advPromoVisibility)
  }

  // ---------------------------------------------------------------- one statement

  /** The keys a statement proposes. */
  ghost function BatchKeys(batch: seq<(Key, Row)>): set<Key>
  {
    set i | 0 <= i < |batch| :: batch[i].0
  }

  /** PostgreSQL refuses an ON CONFLICT DO UPDATE statement that proposes one key twice. */
  predicate DistinctKeys(batch: seq<(Key, Row)>)
  {
    forall i, j :: 0 <= i < j < |batch| ==> batch[i].0 != batch[j].0
  }

  /** The row a proposed row leaves: a new row gets the listed columns and NULL elsewhere; on
      conflict only the columns of the DO UPDATE SET are taken from excluded. */
  function Upserted(rows: map<Key, Row>, k: Key, inc: Row, cols: set<Column>): Row
  {
    Overwrite(if k in rows then rows[k] else Nulls, inc, cols)
  }

  /** The table after the proposed rows, one after the other. */
  function Apply(rows: map<Key, Row>, batch: seq<(Key, Row)>, cols: set<Column>): map<Key, Row>
    decreases |batch|
  {
    if |batch| == 0 then rows
    else Apply(rows[batch[0].0 := Upserted(rows, batch[0].0, batch[0].1, cols)], batch[1..], cols)
  }

  // ---------------------------------------------------------------- helpers of the SELECTs

  function Sum(s: seq<int>): int
  {
    if |s| == 0 then 0 else s[0] + Sum(s[1..])
  }

  function MaxOf(s: seq<int>): (m: int)
    requires |s| > 0
    ensures m in s && forall i :: 0 <= i < |s| ==> s[i] <= m
  {
    if |s| == 1 then s[0]
    else
      var rest := MaxOf(s[1..]);
      assert forall i :: 1 <= i < |s| ==> s[i] == s[1..][i - 1];
      if s[0] >= rest then s[0] else rest
  }

  function MinOf(s: seq<int>): (m: int)
    requires |s| > 0
    ensures m in s && forall i :: 0 <= i < |s| ==> m <= s[i]
  {
    if |s| == 1 then s[0]
    else
      var rest := MinOf(s[1..]);
      assert forall i :: 1 <= i < |s| ==> s[i] == s[1..][i - 1];
      if s[0] <= rest then s[0] else rest
  }

  /** The distinct keys of ks in the order they first appear. */
  function Dedup(ks: seq<Key>): (r: seq<Key>)
    ensures forall k :: k in r <==> k in ks
    ensures forall i, j :: 0 <= i < j < |r| ==> r[i] != r[j]
  {
    if |ks| == 0 then []
    else
      var r := Dedup(ks[..|ks| - 1]);
      assert ks == ks[..|ks| - 1] + [ks[|ks| - 1]];
      if ks[|ks| - 1] in r then r else r + [ks[|ks| - 1]]
  }

  /** The lines of one group. */
  function OfKey<T>(lines: seq<T>, key: T -> Key, k: Key): seq<T>
  {
    if |lines| == 0 then []
    else (if key(lines[0]) == k then [lines[0]] else []) + OfKey(lines[1..], key, k)
  }

  lemma {:induction false} OfKeyMembers<T(!new)>(lines: seq<T>, key: T -> Key, k: Key)
    ensures forall l :: l in OfKey(lines, key, k) <==> l in lines && key(l) == k
    decreases |lines|
  {
    if |lines| > 0 {
      OfKeyMembers(lines[1..], key, k);
      assert forall l :: l in lines <==> l == lines[0] || l in lines[1..];
    }
  }

  /** The key of every line, in order. */
  function KeysOf<T>(lines: seq<T>, key: T -> Key): (ks: seq<Key>)
    ensures |ks| == |lines| && forall i :: 0 <= i < |lines| ==> ks[i] == key(lines[i])
  {
    seq(|lines|, i requires 0 <= i < |lines| => key(lines[i]))
  }

  /** GROUP BY (date, sku, shop): one proposed row per group, in the order the groups first
      appear. */
  function Grouped<T(==,!new)>(lines: seq<T>, key: T -> Key, row: seq<T> -> Row): (b: seq<(Key, Row)>)
    ensures DistinctKeys(b)
    ensures forall k :: k in Dedup(KeysOf(lines, key)) <==> k in BatchKeys(b)
    ensures forall i :: 0 <= i < |b| ==> b[i].1 == row(OfKey(lines, key, b[i].0))
  {
    var ks := Dedup(KeysOf(lines, key));
    var b := seq(|ks|, i requires 0 <= i < |ks| => (ks[i], row(OfKey(lines, key, ks[i]))));
    assert forall i :: 0 <= i < |b| ==> b[i].0 == ks[i];
    assert forall k :: k in ks ==> k in BatchKeys(b) by {
      forall k | k in ks ensures k in BatchKeys(b) {
        var i :| 0 <= i < |ks| && ks[i] == k;
        assert b[i].0 == k;
      }
    }
    b
  }

  /** The groups are exactly the keys of the lines. */
  lemma GroupedKeys<T(!new)>(lines: seq<T>, key: T -> Key, row: seq<T> -> Row)
    ensures forall k :: k in BatchKeys(Grouped(lines, key, row)) <==> exists l :: l in lines && key(l) == k
  {
    var ks := KeysOf(lines, key);
    forall k | k in BatchKeys(Grouped(lines, key, row)) ensures exists l :: l in lines && key(l) == k {
      assert k in ks;
      var j :| 0 <= j < |lines| && ks[j] == k;
      assert lines[j] in lines;
    }
    forall l | l in lines ensures key(l) in BatchKeys(Grouped(lines, key, row)) {
      var j :| 0 <= j < |lines| && lines[j] == l;
      assert ks[j] == key(l);
    }
  }

  // ---------------------------------------------------------------- stocks

  /** A mp_ozon_stock row already joined with its mp_ozon_sku_offer on product and type. */
  datatype StockLine = StockLine(date: int, sku: int, present: int, shop: nat)

  /** The stocks SELECT: the shop's lines with a positive sku, one proposed row each; there is
      no GROUP BY. */
  function StockBatch(shop: nat, lines: seq<StockLine>): (b: seq<(Key, Row)>)
    ensures forall i :: 0 <= i < |b| ==> b[i].0.shop == shop && b[i].0.sku > 0
  {
    if |lines| == 0 then []
    else
      var l := lines[0];
      var rest := StockBatch(shop, lines[1..]);
      if l.shop == shop && l.sku > 0 then [(Key(shop, l.date, l.sku), Nulls.(stocks := Some(l.present)))] + rest
      else rest
  }

  // ---------------------------------------------------------------- transactions

  const PremiumCashback: string := "OperationMarketplaceServicePremiumCashback"
  const Installment: string := "MarketplaceSellerInstallmentOperation"

  /** A mp_ozon_transaction row; operation_date is an instant in seconds, not a day. */
  datatype TransactionLine = TransactionLine(at: int, sku: int, shop: nat, operationType: string, amount: int)

  /** The WHERE of the transactions SELECT. */
  function CountedTransactions(shop: nat, lines: seq<TransactionLine>): (r: seq<TransactionLine>)
    ensures forall l :: l in r <==> l in lines && l.shop == shop && l.operationType in {PremiumCashback, Installment}
  {
    if |lines| == 0 then []
    else
      assert forall x :: x in lines <==> x == lines[0] || x in lines[1..];
      var rest := CountedTransactions(shop, lines[1..]);
      if lines[0].shop == shop && lines[0].operationType in {PremiumCashback, Installment} then [lines[0]] + rest else rest
  }

  /** GROUP BY operation_date, sku, shop_id: the group of an operation, whose date part is
      still the raw instant. */
  function TransactionKey(l: TransactionLine): Key
  {
    Key(l.shop, l.at, l.sku)
  }

  /** The Daily key an operation lands on: its instant cast to the date column. */
  function TransactionDay(l: TransactionLine): Key
  {
    Key(l.shop, Values.DayOf(l.at), l.sku)
  }

  /** SUM(case when operation_type = ty then amount else 0 end) over a group. */
  function AmountOf(group: seq<TransactionLine>, ty: string): int
  {
    if |group| == 0 then 0
    else (if group[0].operationType == ty then group[0].amount else 0) + AmountOf(group[1..], ty)
  }

  function TransactionRow(group: seq<TransactionLine>): Row
  {
    Nulls.(premium := Some(AmountOf(group, PremiumCashback)), rassrochka := Some(AmountOf(group, Installment)))
  }

  /** The rows the transactions SELECT yields, one per (operation_date, sku, shop). */
  function TransactionGroups(shop: nat, lines: seq<TransactionLine>): seq<(Key, Row)>
  {
    Grouped(CountedTransactions(shop, lines), TransactionKey, TransactionRow)
  }

  /** Inserting an instant into the date column keeps only its day. */
  function ToDate(b: seq<(Key, Row)>): (d: seq<(Key, Row)>)
    ensures |d| == |b|
    ensures forall i :: 0 <= i < |b| ==> d[i] == (Key(b[i].0.shop, Values.DayOf(b[i].0.date), b[i].0.sku), b[i].1)
  {
    seq(|b|, i requires 0 <= i < |b| => (Key(b[i].0.shop, Values.DayOf(b[i].0.date), b[i].0.sku), b[i].1))
  }

  /** The rows the transactions statement proposes to Daily. */
  function TransactionBatch(shop: nat, lines: seq<TransactionLine>): seq<(Key, Row)>
  {
    ToDate(TransactionGroups(shop, lines))
  }

  // ---------------------------------------------------------------- orders

  /** A product of a mp_ozon_fbo order together with its order's creation day, numbers and
      shop; price in ten-thousandths. */
  datatype OrderLine = OrderLine(date: int, sku: int, shop: nat, orderNumber: string, postingNumber: string,
                                 quantity: int, price: int)

  /** A mp_selfbuy row. */
  datatype Selfbuy = Selfbuy(shop: nat, order: string)

  /** The number of self-buys the inner join pairs an order line with. */
  function Matches(l: OrderLine, selfbuys: seq<Selfbuy>): nat
  {
    if |selfbuys| == 0 then 0
    else
      var s := selfbuys[0];
      (if s.shop == l.shop && (l.orderNumber == s.order || l.postingNumber == s.order) then 1 else 0) + Matches(l, selfbuys[1..])
  }

  /** m copies of a line. */
  function Copies(l: OrderLine, m: nat): (c: seq<OrderLine>)
    ensures |c| == m
  {
    if m == 0 then [] else [l] + Copies(l, m - 1)
  }

  /** The joined rows of the orders SELECT: each of the shop's lines once per self-buy it
      matches. */
  function Joined(shop: nat, lines: seq<OrderLine>, selfbuys: seq<Selfbuy>): seq<OrderLine>
  {
    if |lines| == 0 then []
    else
      var copies := if lines[0].shop == shop then Copies(lines[0], Matches(lines[0], selfbuys)) else [];
      copies + Joined(shop, lines[1..], selfbuys)
  }

  function OrderKey(l: OrderLine): Key
  {
    Key(l.shop, l.date, l.sku)
  }

  /** SUM(quantity) and SUM(quantity * price) over a group. */
  function Quantities(group: seq<OrderLine>): int
  {
    if |group| == 0 then 0 else group[0].quantity + Quantities(group[1..])
  }

  function Amounts(group: seq<OrderLine>): int
  {
    if |group| == 0 then 0 else group[0].quantity * group[0].price + Amounts(group[1..])
  }

  function OrderRow(group: seq<OrderLine>): Row
  {
    Nulls.(selfbuyCnt := Some(Quantities(group)), selfbuyAmount := Some(Amounts(group)))
  }

  function OrderBatch(shop: nat, lines: seq<OrderLine>, selfbuys: seq<Selfbuy>): seq<(Key, Row)>
  {
    Grouped(Joined(shop, lines, selfbuys), OrderKey, OrderRow)
  }

  // ---------------------------------------------------------------- campaigns

  /** A mp_ozon_campaignproduct_history row already joined with its sku offer and campaign;
      shop is the campaign's. */
  datatype HistoryLine = HistoryLine(date: int, sku: int, shop: nat, bid: int, visibility: int)

  function ShopHistory(shop: nat, lines: seq<HistoryLine>): (r: seq<HistoryLine>)
    ensures forall l :: l in r <==> l in lines && l.shop == shop
  {
    if |lines| == 0 then []
    else
      assert forall x :: x in lines <==> x == lines[0] || x in lines[1..];
      (if lines[0].shop == shop then [lines[0]] else []) + ShopHistory(shop, lines[1..])
  }

  function HistoryKey(l: HistoryLine): Key
  {
    Key(l.shop, l.date, l.sku)
  }

  /** MAX(bid) and MIN(visibility_idx) over a group; a group is never empty. */
  function HistoryRow(group: seq<HistoryLine>): Row
  {
    if |group| == 0 then Nulls
    else Nulls.(advPromoBid := Some(MaxOf(seq(|group|, i requires 0 <= i < |group| => group[i].bid))),
                advPromoVisibility := Some(MinOf(seq(|group|, i requires 0 <= i < |group| => group[i].visibility))))
  }

  function HistoryBatch(shop: nat, lines: seq<HistoryLine>): seq<(Key, Row)>
  {
    Grouped(ShopHistory(shop, lines), HistoryKey, HistoryRow)
  }

  // ---------------------------------------------------------------- the table

  class DailyTable {
    var rows: map<Key, Row>

    constructor ()
      ensures rows == map[]
    {
      rows := map[];
    }

    /** One INSERT ... ON CONFLICT DO UPDATE SET cols statement: it applies every proposed row,
        or, when a key is proposed twice, fails and changes nothing. */
    method Upsert(batch: seq<(Key, Row)>, cols: set<Column>) returns (err: Option<Error>)
      modifies this
      ensures err.None? <==> DistinctKeys(batch)
      ensures err.Some? ==> err.value == CardinalityViolation && rows == old(rows)
      ensures err.None? ==> rows == Apply(old(rows), batch, cols)
    {
      var cur := rows;
      var seen: set<Key> := {};
      for i := 0 to |batch|
        invariant forall k :: k in seen <==> exists j :: 0 <= j < i && batch[j].0 == k
        invariant forall j, j' :: 0 <= j < j' < i ==> batch[j].0 != batch[j'].0
        invariant Apply(rows, batch, cols) == Apply(cur, batch[i..], cols)
      {
        assert batch[i..][0] == batch[i] && batch[i..][1..] == batch[i + 1..];
        if batch[i].0 in seen {
          var j :| 0 <= j < i && batch[j].0 == batch[i].0;
          return Some(CardinalityViolation);
        }
        cur := cur[batch[i].0 := Upserted(cur, batch[i].0, batch[i].1, cols)];
        seen := seen + {batch[i].0};
      }
      assert batch[|batch|..] == [];
      rows := cur;
      return None;
    }

    /** Update_Daily.stocks: sets stocks only; a (date, sku) listed twice fails the statement. */
    method UpdateStocks(shop: nat, lines: seq<StockLine>) returns (err: Option<Error>)
      modifies this
      ensures err.None? <==> DistinctKeys(StockBatch(shop, lines))
      ensures err.Some? ==> err.value == CardinalityViolation && rows == old(rows)
      ensures err.None? ==> rows == Apply(old(rows), StockBatch(shop, lines), {StocksCol})
    {
      err := Upsert(StockBatch(shop, lines), {StocksCol});
    }

    /** Update_Daily.transactions: sets premium and rassrochka only; groups of one sku at two
        instants of one day land on one key and fail the statement. */
    method UpdateTransactions(shop: nat, lines: seq<TransactionLine>) returns (err: Option<Error>)
      modifies this
      ensures err.None? <==> DistinctKeys(TransactionBatch(shop, lines))
      ensures err.Some? ==> err.value == CardinalityViolation && rows == old(rows)
      ensures err.None? ==> rows == Apply(old(rows), TransactionBatch(shop, lines), {Premium, Rassrochka})
    {
      err := Upsert(TransactionBatch(shop, lines), {Premium, Rassrochka});
    }

    /** Update_Daily.orders: sets selfbuy_cnt and selfbuy_amount only. */
    method UpdateOrders(shop: nat, lines: seq<OrderLine>, selfbuys: seq<Selfbuy>)
      modifies this
      ensures rows == Apply(old(rows), OrderBatch(shop, lines, selfbuys), {SelfbuyCnt, SelfbuyAmount})
    {
      var err := Upsert(OrderBatch(shop, lines, selfbuys), {SelfbuyCnt, SelfbuyAmount});
    }

    /** Update_Daily.campaigns: sets adv_promo_bid and adv_promo_visibility only. */
    method UpdateCampaigns(shop: nat, lines: seq<HistoryLine>)
      modifies this
      ensures rows == Apply(old(rows), HistoryBatch(shop, lines), {AdvPromoBid, AdvPromoVisibility})
    {
      var err := Upsert(HistoryBatch(shop, lines), {AdvPromoBid, AdvPromoVisibility});
    }
  }
}
