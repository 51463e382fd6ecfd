/** `Portfolio`: the open positions of a ledger, one row per ticker, built up
    step by step (quotes, average cost, dividends, profit, currency, cash).
    The working frame is a sequence of `Holding` rows that carry every
    column the steps can add; a column a step has not added yet holds 0.0
    (or "" for text). */
module Portfolio {
  import opened Wrappers
  import opened Calendar
  import opened Text
  import opened Series
  import opened Schema
  import opened Orders
  import opened Filter
  import opened Compute
  import opened AverageCost
  import opened Scraper
  import opened CurrencyNormalize
  import U = Uninvested

  datatype Holding = Holding(
    ticker: string,
    amount: real,
    accruedQty: real,
    country: string,
    currency: string,
    marketPriceCurrency: string,
    marketPrice: real,
    averagePrice: real,
    dividends: real,
    marketValue: real,
    paperProfit: real,
    paperProfitRate: real,
    profit: real,
    profitRate: real,
    allocation: real)

  function HoldingTicker(h: Holding): string { h.ticker }

  // ------------------------------------------------------------ from_orders

  /** The rows `from_orders` reads: `filter(buy_or_sell)`. */
  predicate Trade(o: Order) { BuyOrSell(o.action) }

  function Trades(orders: seq<Order>): (r: seq<Order>)
    ensures forall o :: o in r <==> o in orders && Trade(o)
  {
    Keep(orders, Trade)
  }

  /** `negative_qty_on_sell`. */
  function SignedQty(o: Order): real { NegativeQtyOnSell(o.action, o.qty) }


  /** The aggregate of one ticker's trades: Amount summed as it stands
      (sales included), AccruedQty the sum of the signed quantities, the
      first row's Country and the last row's Currency. */
  function Aggregate(trades: seq<Order>, t: string): (h: Holding)
    ensures h.ticker == t
    ensures h.amount == SumWhere(trades, TickerOf, t, OrderAmount)
    ensures h.accruedQty == SumWhere(trades, TickerOf, t, SignedQty)
  {
    var g := Group(trades, TickerOf, t);
    Holding(t, SumOf(g, OrderAmount), SumOf(g, SignedQty),
            if |g| == 0 then "" else g[0].country,
            if |g| == 0 then "" else g[|g| - 1].currency,
            "", 0.0, 0.0, 0.0, 0.0, 0.0, 0.0, 0.0, 0.0, 0.0)
  }

  function AggregateOf(trades: seq<Order>): string -> Holding {
    (t: string) => Aggregate(trades, t)
  }

  predicate Held(h: Holding) { h.accruedQty > 0.0 }

  /** The tickers whose trades net a positive quantity. */
  function HeldTicker(trades: seq<Order>): string -> bool {
    (t: string) => SumWhere(trades, TickerOf, t, SignedQty) > 0.0
  }

  /** `from_orders`: the trades grouped by ticker, the tickers whose
      accrued quantity is not positive dropped, sorted by ticker. */
  function OpenPositions(orders: seq<Order>): (r: seq<Holding>)
  {
    Keep(MapSeq(TradedTickers(orders), AggregateOf(Trades(orders))), Held)
  }

  /** A filter keeps a strictly sorted sequence strictly sorted. */
  lemma {:induction false} KeepSorted(s: seq<string>, p: string -> bool)
    requires StrictlySorted(s)
    ensures StrictlySorted(Keep(s, p))
    decreases |s|
  {
    if |s| > 0 {
      var init, x := s[..|s| - 1], s[|s| - 1];
      KeepSorted(init, p);
      var k := Keep(init, p);
      if p(x) {
        forall i | 0 <= i < |k| ensures Less(k[i], x) {
          assert k[i] in init;
          var j :| 0 <= j < |init| && init[j] == k[i];
          assert s[j] == k[i];
        }
      }
    }
  }

  /** The tickers `from_orders` groups by, sorted and without repeats. */
  function TradedTickers(orders: seq<Order>): (r: seq<string>)
    ensures StrictlySorted(r)
    ensures forall t :: t in r <==> exists o :: o in Trades(orders) && o.ticker == t
  {
    var trades := Trades(orders);
    var r := SortDedup(MapSeq(trades, TickerOf));
    assert forall t :: t in r <==> exists o :: o in trades && o.ticker == t by {
      forall t ensures t in r <==> exists o :: o in trades && o.ticker == t {
        KeysOf(trades, TickerOf, t);
      }
    }
    r
  }

  /** The filter on the aggregates is a filter on the tickers. */
  lemma OpenTickers(orders: seq<Order>)
    ensures OpenPositions(orders) ==
      MapSeq(Keep(TradedTickers(orders), HeldTicker(Trades(orders))), AggregateOf(Trades(orders)))
  {
    var trades := Trades(orders);
    var f, q := AggregateOf(trades), HeldTicker(trades);
    forall t ensures q(t) == Held(f(t)) {
      var h := Aggregate(trades, t);
      assert f(t) == h;
      assert q(t) == (SumWhere(trades, TickerOf, t, SignedQty) > 0.0);
    }
    KeepMapSeq(TradedTickers(orders), f, Held, q);
  }

  /** `from_orders` sorts its rows by ticker, and no ticker has two rows. */
  lemma OpenPositionsSorted(orders: seq<Order>)
    ensures var r := OpenPositions(orders);
      forall i, j :: 0 <= i < j < |r| ==> Less(r[i].ticker, r[j].ticker)
  {
    var trades := Trades(orders);
    var kept := Keep(TradedTickers(orders), HeldTicker(trades));
    OpenTickers(orders);
    KeepSorted(TradedTickers(orders), HeldTicker(trades));
    var r := OpenPositions(orders);
    forall i, j | 0 <= i < j < |r| ensures Less(r[i].ticker, r[j].ticker) {
      assert r[i].ticker == kept[i] && r[j].ticker == kept[j];
    }
  }

  /** Each row of `from_orders` is its ticker's aggregate and holds a
      positive quantity. */
  lemma OpenPositionsRows(orders: seq<Order>)
    ensures var r := OpenPositions(orders);
      forall h :: h in r ==> h == Aggregate(Trades(orders), h.ticker) && h.accruedQty > 0.0
  {
  }

  /** A ticker has a row exactly when it has a trade and its accrued
      quantity is positive. */
  lemma OpenPositionsCover(orders: seq<Order>, t: string)
    ensures (exists h :: h in OpenPositions(orders) && h.ticker == t) <==>
      (exists o :: o in Trades(orders) && o.ticker == t) &&
      SumWhere(Trades(orders), TickerOf, t, SignedQty) > 0.0
  {
    var trades := Trades(orders);
    var f, q := AggregateOf(trades), HeldTicker(trades);
    OpenTickers(orders);
    forall x ensures f(x).ticker == x {
      assert f(x) == Aggregate(trades, x);
    }
    MappedKeys(Keep(TradedTickers(orders), q), f, t);
    assert q(t) == (SumWhere(trades, TickerOf, t, SignedQty) > 0.0);
  }

  /** Rows made one per key, each carrying its key, have a row for a ticker
      exactly when it is one of the keys. */
  lemma MappedKeys(keys: seq<string>, f: string -> Holding, t: string)
    requires forall x :: f(x).ticker == x
    ensures (exists h :: h in MapSeq(keys, f) && h.ticker == t) <==> t in keys
  {
    var r := MapSeq(keys, f);
    if exists h :: h in r && h.ticker == t {
      var h :| h in r && h.ticker == t;
      var i :| 0 <= i < |r| && r[i] == h;
      assert keys[i] == t;
    }
    if t in keys {
      var i :| 0 <= i < |keys| && keys[i] == t;
      assert r[i] in r;
    }
  }

  function OrderQty(o: Order): real { o.qty }
  predicate BuyOrder(o: Order) { IsBuy(o.action) }
  predicate SellOrder(o: Order) { IsSell(o.action) }

  /** Over trades, the signed quantities add up to the quantity bought minus
      the quantity sold. */
  lemma {:induction false} NetQuantity(trades: seq<Order>)
    requires forall o :: o in trades ==> Trade(o)
    ensures SumOf(trades, SignedQty) ==
      SumOf(Keep(trades, BuyOrder), OrderQty) - SumOf(Keep(trades, SellOrder), OrderQty)
    decreases |trades|
  {
    if |trades| > 0 {
      var init, o := trades[..|trades| - 1], trades[|trades| - 1];
      assert trades == init + [o];
      assert o in trades;
      forall x | x in init ensures Trade(x) { assert x in trades; }
      NetQuantity(init);
      KeepAddLast(init, o, BuyOrder);
      KeepAddLast(init, o, SellOrder);
      var b, s := Keep(init, BuyOrder), Keep(init, SellOrder);
      if IsSell(o.action) {
        OnlySellContainsSell(Action.Sell);
        assert (s + [o])[..|s|] == s;
      } else {
        OnlySellContainsSell(Action.Buy);
        assert (b + [o])[..|b|] == b;
      }
    }
  }

  /** The quantity `from_orders` reports for a ticker is what was bought of
      it minus what was sold. */
  lemma AccruedIsBoughtMinusSold(orders: seq<Order>, t: string)
    ensures Aggregate(Trades(orders), t).accruedQty ==
      SumOf(Keep(Group(Trades(orders), TickerOf, t), BuyOrder), OrderQty) -
      SumOf(Keep(Group(Trades(orders), TickerOf, t), SellOrder), OrderQty)
  {
    var g := Group(Trades(orders), TickerOf, t);
    NetQuantity(g);
  }

  // ------------------------------------------------------------ left joins

  /** One row of a left join on Ticker: the row merged with each right row
      of its ticker, or, when there is none, the row with the right columns
      null and then filled (`fill_null`). */
  function JoinRow<R(!new)>(h: Holding, right: seq<R>, key: R -> string,
                            merge: (Holding, R) -> Holding, fill: Holding -> Holding): (r: seq<Holding>)
    ensures |r| >= 1
    ensures |Group(right, key, h.ticker)| == 0 ==> r == [fill(h)]
    ensures |Group(right, key, h.ticker)| > 0 ==>
      forall y :: y in r <==> exists x :: x in right && key(x) == h.ticker && y == merge(h, x)
  {
    var g := Group(right, key, h.ticker);
    if |g| == 0 then [fill(h)]
    else
      var r := MapSeq(g, (x: R) => merge(h, x));
      assert forall y :: y in r <==> exists x :: x in g && y == merge(h, x) by {
        forall y ensures y in r <==> exists x :: x in g && y == merge(h, x) {
          if y in r {
            var i :| 0 <= i < |r| && r[i] == y;
            assert g[i] in g;
          }
          if exists x :: x in g && y == merge(h, x) {
            var x :| x in g && y == merge(h, x);
            var i :| 0 <= i < |g| && g[i] == x;
            assert r[i] == y;
          }
        }
      }
      r
  }

  /** `join(right, Ticker, Ticker, Left)` followed by `fill_null`: each left
      row in order, once per matching right row or once filled. */
  function LeftJoin<R(!new)>(rows: seq<Holding>, right: seq<R>, key: R -> string,
                             merge: (Holding, R) -> Holding, fill: Holding -> Holding): (r: seq<Holding>)
    ensures |r| >= |rows|
    ensures forall y :: y in r <==> exists h :: h in rows && y in JoinRow(h, right, key, merge, fill)
    decreases |rows|
  {
    if |rows| == 0 then []
    else
      var init, h := rows[..|rows| - 1], rows[|rows| - 1];
      assert forall z :: z in rows <==> z in init || z == h by {
        assert rows == init + [h];
      }
      LeftJoin(init, right, key, merge, fill) + JoinRow(h, right, key, merge, fill)
  }

  /** A right table with distinct tickers matches each left row at most once. */
  lemma {:induction false} DistinctKeysMatchOnce<R(!new)>(right: seq<R>, key: R -> string, t: string)
    requires forall i, j :: 0 <= i < j < |right| ==> key(right[i]) != key(right[j])
    ensures |Group(right, key, t)| <= 1
    decreases |right|
  {
    if |right| > 0 {
      var init, x := right[..|right| - 1], right[|right| - 1];
      assert right == init + [x];
      DistinctKeysMatchOnce(init, key, t);
      GroupAddLast(init, x, key, t);
      if key(x) == t {
        forall y | y in init ensures key(y) != t {
          var i :| 0 <= i < |init| && init[i] == y;
          assert right[i] == y;
        }
        NoKeyNoGroup(init, key, t);
      }
    }
  }

  /** A key no element has makes an empty group. */
  lemma {:induction false} NoKeyNoGroup<R(!new), K>(s: seq<R>, key: R -> K, t: K)
    requires forall y :: y in s ==> key(y) != t
    ensures Group(s, key, t) == []
    decreases |s|
  {
    if |s| > 0 {
      var init, x := s[..|s| - 1], s[|s| - 1];
      assert s == init + [x];
      forall y | y in init ensures key(y) != t { assert y in s; }
      NoKeyNoGroup(init, key, t);
      GroupAddLast(init, x, key, t);
    }
  }

  /** When every left row matches at most one right row, the join keeps the
      left rows one for one and in order. */
  lemma {:induction false} LeftJoinOneToOne<R(!new)>(rows: seq<Holding>, right: seq<R>, key: R -> string,
                                                     merge: (Holding, R) -> Holding, fill: Holding -> Holding)
    requires forall h :: h in rows ==> |Group(right, key, h.ticker)| <= 1
    ensures var r := LeftJoin(rows, right, key, merge, fill);
      |r| == |rows| && forall i :: 0 <= i < |rows| ==> [r[i]] == JoinRow(rows[i], right, key, merge, fill)
    decreases |rows|
  {
    if |rows| > 0 {
      var init, h := rows[..|rows| - 1], rows[|rows| - 1];
      forall z | z in init ensures |Group(right, key, z.ticker)| <= 1 { assert z in rows; }
      assert h in rows;
      LeftJoinOneToOne(init, right, key, merge, fill);
      var r := LeftJoin(rows, right, key, merge, fill);
      assert r == LeftJoin(init, right, key, merge, fill) + JoinRow(h, right, key, merge, fill);
      forall i | 0 <= i < |rows| ensures [r[i]] == JoinRow(rows[i], right, key, merge, fill) {
        if i < |init| { assert rows[i] == init[i]; }
      }
    }
  }

  // ------------------------------------------------------------ with_quotes

  /** The quotes dated on or before the present day. */
  function OnOrBefore(present: Date): Record -> bool {
    (q: Record) => q.date <= present
  }

  function QuoteKey(q: Record): (string, string) { (q.ticker, q.currency) }

  /** Of several quotes, the latest-dated one; of several on that day, the
      first. */
  function Latest(g: seq<Record>): (r: Record)
    requires |g| > 0
    ensures r in g
    ensures forall x :: x in g ==> x.date <= r.date
    decreases |g|
  {
    if |g| == 1 then g[0]
    else
      var init := g[..|g| - 1];
      assert g == init + [g[|g| - 1]];
      var l := Latest(init);
      if g[|g| - 1].date > l.date then g[|g| - 1] else l
  }

  /** A `(Ticker, MarketPriceCurrency)` group of the quotes and its price. */
  datatype QuoteGroup = QuoteGroup(ticker: string, currency: string, price: real)

  function GroupTicker(g: QuoteGroup): string { g.ticker }

  function PriceGroup(recent: seq<Record>, k: (string, string)): QuoteGroup {
    var g := Group(recent, QuoteKey, k);
    QuoteGroup(k.0, k.1, if |g| == 0 then 0.0 else Latest(g).value)
  }

  function PriceGroupOf(recent: seq<Record>): ((string, string)) -> QuoteGroup {
    (k: (string, string)) => PriceGroup(recent, k)
  }

  /** The quotes grouped by (Ticker, Currency), each group priced at its
      latest quote. */
  function QuoteGroups(quotes: seq<Record>, present: Date): seq<QuoteGroup> {
    var recent := Keep(quotes, OnOrBefore(present));
    MapSeq(UniqueStable(MapSeq(recent, QuoteKey)), PriceGroupOf(recent))
  }

  /** The quote groups are keyed by the distinct (Ticker, Currency) pairs of
      the quotes dated on or before the present. */
  lemma QuoteGroupKeys(quotes: seq<Record>, present: Date)
    ensures var recent := Keep(quotes, OnOrBefore(present));
      var keys := UniqueStable(MapSeq(recent, QuoteKey));
      var r := QuoteGroups(quotes, present);
      |r| == |keys| && forall i :: 0 <= i < |r| ==> r[i] == PriceGroup(recent, keys[i])
  {
  }

  /** Each quote group is priced at a quote of its ticker and currency dated
      on or before the present, and no such quote is later. */
  lemma QuoteGroupPrice(quotes: seq<Record>, present: Date, i: nat)
    requires i < |QuoteGroups(quotes, present)|
    ensures var g := QuoteGroups(quotes, present)[i];
      exists q :: q in quotes && q.date <= present && LatestQuote(quotes, present, q) &&
        q.ticker == g.ticker && q.currency == g.currency && q.value == g.price
  {
    var recent := Keep(quotes, OnOrBefore(present));
    var keys := UniqueStable(MapSeq(recent, QuoteKey));
    QuoteGroupKeys(quotes, present);
    var k := keys[i];
    assert k in keys;
    KeysOf(recent, QuoteKey, k);
    var g := Group(recent, QuoteKey, k);
    var w :| w in recent && QuoteKey(w) == k;
    assert w in g;
    var q := Latest(g);
    forall x | x in quotes && x.date <= present && QuoteKey(x) == QuoteKey(q) ensures x.date <= q.date {
      assert x in recent;
      assert x in g;
    }
  }

  /** No quote of the same ticker and currency dated on or before the
      present is later than `q`. */
  predicate LatestQuote(quotes: seq<Record>, present: Date, q: Record) {
    forall x :: x in quotes && x.date <= present && QuoteKey(x) == QuoteKey(q) ==> x.date <= q.date
  }

  /** No two quote groups share (Ticker, Currency). */
  lemma QuoteGroupsDistinct(quotes: seq<Record>, present: Date)
    ensures var r := QuoteGroups(quotes, present);
      forall i, j :: 0 <= i < j < |r| ==> (r[i].ticker, r[i].currency) != (r[j].ticker, r[j].currency)
  {
    var recent := Keep(quotes, OnOrBefore(present));
    var keys := UniqueStable(MapSeq(recent, QuoteKey));
    QuoteGroupKeys(quotes, present);
  }

  /** Every quote dated on or before the present has its group. */
  lemma QuoteGroupsCover(quotes: seq<Record>, present: Date, q: Record)
    requires q in quotes && q.date <= present
    ensures var r := QuoteGroups(quotes, present);
      exists i :: 0 <= i < |r| && r[i].ticker == q.ticker && r[i].currency == q.currency
  {
    var recent := Keep(quotes, OnOrBefore(present));
    var keys := UniqueStable(MapSeq(recent, QuoteKey));
    QuoteGroupKeys(quotes, present);
    assert q in recent;
    KeysOf(recent, QuoteKey, QuoteKey(q));
    var i :| 0 <= i < |keys| && keys[i] == QuoteKey(q);
  }

  function Priced(h: Holding, g: QuoteGroup): Holding {
    h.(marketPriceCurrency := g.currency, marketPrice := g.price)
  }

  /** A ticker without quotes: MarketPrice filled with 0 (MarketPriceCurrency
      stays null, here ""). */
  function Unpriced(h: Holding): Holding {
    h.(marketPriceCurrency := "", marketPrice := 0.0)
  }

  /** `with_quotes`: the rows left-joined on Ticker with the quote groups. */
  function Quoted(rows: seq<Holding>, quotes: seq<Record>, present: Date): seq<Holding> {
    LeftJoin(rows, QuoteGroups(quotes, present), GroupTicker, Priced, Unpriced)
  }

  /** No quote of ticker `t` is dated on or before the present. */
  predicate Unquoted(quotes: seq<Record>, present: Date, t: string) {
    forall q :: q in quotes && q.date <= present ==> q.ticker != t
  }

  /** `y` is `h` priced as `with_quotes` prices it: at a latest quote of its
      ticker, in that quote's currency, or at 0 when it has none. */
  predicate PricedFrom(quotes: seq<Record>, present: Date, h: Holding, y: Holding) {
    || (Unquoted(quotes, present, h.ticker) && y == Unpriced(h))
    || exists q :: q in quotes && q.date <= present && q.ticker == h.ticker && LatestQuote(quotes, present, q) &&
         y == h.(marketPriceCurrency := q.currency, marketPrice := q.value)
  }

  /** Each row the join makes for `h` is `h` priced from the quotes. */
  lemma QuotedRow(h: Holding, quotes: seq<Record>, present: Date, y: Holding)
    requires y in JoinRow(h, QuoteGroups(quotes, present), GroupTicker, Priced, Unpriced)
    ensures PricedFrom(quotes, present, h, y)
  {
    var r := QuoteGroups(quotes, present);
    if |Group(r, GroupTicker, h.ticker)| == 0 {
      forall q | q in quotes && q.date <= present ensures q.ticker != h.ticker {
        QuoteGroupsCover(quotes, present, q);
        var i :| 0 <= i < |r| && r[i].ticker == q.ticker && r[i].currency == q.currency;
        assert r[i] in Group(r, GroupTicker, q.ticker);
      }
    } else {
      var g :| g in r && GroupTicker(g) == h.ticker && y == Priced(h, g);
      var i :| 0 <= i < |r| && r[i] == g;
      QuoteGroupPrice(quotes, present, i);
    }
  }

  /** `with_quotes` prices every row it keeps from a latest quote of its
      ticker, or at 0 when its ticker has none. */
  lemma QuotedRows(rows: seq<Holding>, quotes: seq<Record>, present: Date, y: Holding)
    requires y in Quoted(rows, quotes, present)
    ensures exists h :: h in rows && PricedFrom(quotes, present, h, y)
  {
    var h :| h in rows && y in JoinRow(h, QuoteGroups(quotes, present), GroupTicker, Priced, Unpriced);
    QuotedRow(h, quotes, present, y);
  }

  /** Every currency a row's ticker is quoted in gives that row a price in
      that currency. */
  lemma QuotedCover(rows: seq<Holding>, quotes: seq<Record>, present: Date, h: Holding, q: Record)
    requires h in rows && q in quotes && q.date <= present && q.ticker == h.ticker
    ensures exists y :: y in Quoted(rows, quotes, present) && y.ticker == h.ticker && y.marketPriceCurrency == q.currency
  {
    var r := QuoteGroups(quotes, present);
    QuoteGroupsCover(quotes, present, q);
    var i :| 0 <= i < |r| && r[i].ticker == q.ticker && r[i].currency == q.currency;
    assert r[i] in Group(r, GroupTicker, h.ticker);
    assert Priced(h, r[i]) in JoinRow(h, r, GroupTicker, Priced, Unpriced);
  }

  /** Every ticker is quoted in one currency only, up to the present. */
  predicate OneCurrencyEach(quotes: seq<Record>, present: Date) {
    forall a, b :: a in quotes && b in quotes && a.date <= present && b.date <= present && a.ticker == b.ticker ==>
      a.currency == b.currency
  }

  /** Then every ticker has one quote group at most. */
  lemma QuoteGroupsByTicker(quotes: seq<Record>, present: Date)
    requires OneCurrencyEach(quotes, present)
    ensures var r := QuoteGroups(quotes, present);
      forall i, j :: 0 <= i < j < |r| ==> GroupTicker(r[i]) != GroupTicker(r[j])
  {
    var r := QuoteGroups(quotes, present);
    QuoteGroupsDistinct(quotes, present);
    forall i, j | 0 <= i < j < |r| ensures GroupTicker(r[i]) != GroupTicker(r[j]) {
      QuoteGroupPrice(quotes, present, i);
      QuoteGroupPrice(quotes, present, j);
    }
  }

  /** With one quote currency per ticker, `with_quotes` prices each row in
      place: one row out per row in, in order. */
  lemma QuotedOneToOne(rows: seq<Holding>, quotes: seq<Record>, present: Date)
    requires OneCurrencyEach(quotes, present)
    ensures var r := Quoted(rows, quotes, present);
      |r| == |rows| && forall i :: 0 <= i < |rows| ==> PricedFrom(quotes, present, rows[i], r[i])
  {
    var groups := QuoteGroups(quotes, present);
    QuoteGroupsByTicker(quotes, present);
    forall h | h in rows ensures |Group(groups, GroupTicker, h.ticker)| <= 1 {
      DistinctKeysMatchOnce(groups, GroupTicker, h.ticker);
    }
    LeftJoinOneToOne(rows, groups, GroupTicker, Priced, Unpriced);
    var r := Quoted(rows, quotes, present);
    forall i | 0 <= i < |rows| ensures PricedFrom(quotes, present, rows[i], r[i]) {
      assert r[i] in [r[i]];
      QuotedRow(rows[i], quotes, present, r[i]);
    }
  }

  // ------------------------------------------------------------ with_average_price

  /** The average-cost state of ticker `t` over the whole ledger. */
  function CostOf(orders: seq<Order>, t: string): Position {
    Fold(Group(CostOrders(orders), TickerOf, t))
  }

  /** `collect_latest` joined on Ticker and `fill_null(0)`: a ticker without
      cost rows reads as (0, 0). This is the fold of its cost rows. */
  lemma CurrentIsFold(orders: seq<Order>, t: string)
    ensures Current(CollectLatest(Trace(orders)), t) == CostOf(orders, t)
  {
    if t in CollectLatest(Trace(orders)) {
      LatestIsFold(orders, t);
    } else {
      var kept := CostOrders(orders);
      forall o | o in kept ensures TickerOf(o) != t {
        var i :| 0 <= i < |kept| && kept[i] == o;
        assert Trace(orders)[i].order == o;
      }
      NoKeyNoGroup(kept, TickerOf, t);
    }
  }

  /** A row joined with the engine's latest state: AveragePrice and
      AccruedQty (from `AccruedQty_right`) replaced. */
  function WithLatest(latest: map<string, Position>, h: Holding): Holding {
    var p := Current(latest, h.ticker);
    h.(averagePrice := p.average, accruedQty := p.qty)
  }

  function WithLatestOf(latest: map<string, Position>): Holding -> Holding {
    (h: Holding) => WithLatest(latest, h)
  }

  /** Amount recomputed as AccruedQty × AveragePrice. */
  function AtCost(h: Holding): Holding {
    h.(amount := h.accruedQty * h.averagePrice)
  }

  /** `with_average_price`. */
  function Averaged(rows: seq<Holding>, orders: seq<Order>): seq<Holding> {
    MapSeq(Keep(MapSeq(rows, WithLatestOf(CollectLatest(Trace(orders)))), Held), AtCost)
  }

  /** A row valued at its ticker's average cost over the whole ledger. */
  function Costed(orders: seq<Order>, h: Holding): Holding
  {
    var p := CostOf(orders, h.ticker);
    AtCost(h.(averagePrice := p.average, accruedQty := p.qty))
  }

  function CostedOf(orders: seq<Order>): Holding -> Holding {
    (h: Holding) => Costed(orders, h)
  }

  /** The tickers the ledger still holds a positive quantity of. */
  function CostHeld(orders: seq<Order>): Holding -> bool {
    (h: Holding) => CostOf(orders, h.ticker).qty > 0.0
  }

  /** `with_average_price` keeps, in order, the rows of the tickers whose
      average-cost quantity is positive, each with that quantity, its average
      price and an Amount equal to their product. */
  lemma AveragedIsCosted(rows: seq<Holding>, orders: seq<Order>)
    ensures Averaged(rows, orders) == MapSeq(Keep(rows, CostHeld(orders)), CostedOf(orders))
  {
    var f := WithLatestOf(CollectLatest(Trace(orders)));
    var q := CostHeld(orders);
    LatestAgrees(orders);
    KeepMapSeq(rows, f, Held, q);
    MapSeqCompose(Keep(rows, q), f, AtCost, CostedOf(orders));
  }

  /** Row by row, the join with the engine's state is the valuation at cost. */
  lemma LatestAgrees(orders: seq<Order>)
    ensures forall h :: CostHeld(orders)(h) == Held(WithLatestOf(CollectLatest(Trace(orders)))(h))
    ensures forall h :: AtCost(WithLatestOf(CollectLatest(Trace(orders)))(h)) == CostedOf(orders)(h)
  {
    var latest := CollectLatest(Trace(orders));
    forall h ensures CostHeld(orders)(h) == Held(WithLatestOf(latest)(h))
      ensures AtCost(WithLatestOf(latest)(h)) == CostedOf(orders)(h)
    {
      LatestAgreesAt(orders, latest, h);
    }
  }

  lemma LatestAgreesAt(orders: seq<Order>, latest: map<string, Position>, h: Holding)
    requires latest == CollectLatest(Trace(orders))
    ensures (CostOf(orders, h.ticker).qty > 0.0) == Held(WithLatest(latest, h))
    ensures AtCost(WithLatest(latest, h)) == Costed(orders, h)
  {
    CurrentIsFold(orders, h.ticker);
    var p := CostOf(orders, h.ticker);
    assert WithLatest(latest, h) == h.(averagePrice := p.average, accruedQty := p.qty);
  }

  /** Two maps in a row are one map. */
  lemma MapSeqCompose<T, U, V>(s: seq<T>, f: T -> U, g: U -> V, h: T -> V)
    requires forall x :: g(f(x)) == h(x)
    ensures MapSeq(MapSeq(s, f), g) == MapSeq(s, h)
  {
  }

  /** A row valued at cost holds its ticker's state and is valued at it:
      Amount is the cost basis AveragePrice × AccruedQty. */
  lemma CostedRow(orders: seq<Order>, h: Holding)
    ensures var y, p := Costed(orders, h), CostOf(orders, h.ticker);
      && y == h.(averagePrice := p.average, accruedQty := p.qty, amount := y.amount)
      && y.amount == CostBasis(p) && IsAtCost(y)
  {
    var p := CostOf(orders, h.ticker);
    CostedBasis(h, p);
  }

  lemma CostedBasis(h: Holding, p: Position)
    ensures var y := AtCost(h.(averagePrice := p.average, accruedQty := p.qty));
      y.amount == CostBasis(p) && IsAtCost(y)
  {
  }

  // ------------------------------------------------------------ paper_profit, with_profit

  /** `paper_profit`: MarketValue, PaperProfit and PaperProfitRate, each
      from the columns as they were before the step. */
  function Appraised(h: Holding): Holding {
    h.(marketValue := Compute.MarketValue(h.marketPrice, h.accruedQty),
       paperProfit := Compute.PaperProfit(h.marketPrice, h.averagePrice, h.accruedQty),
       paperProfitRate := Compute.PaperProfitRate(h.marketPrice, h.averagePrice))
  }

  /** `with_profit`: Profit, then ProfitRate from the new Profit. */
  function Profited(h: Holding): Holding {
    var p := Compute.Profit(h.paperProfit, h.dividends);
    h.(profit := p, profitRate := Compute.ProfitRate(p, h.amount))
  }

  /** A row valued at cost: its Amount is what its quantity cost. */
  predicate IsAtCost(h: Holding) { h.amount == h.accruedQty * h.averagePrice }

  /** For a row valued at cost, the paper profit is market value minus
      amount, and its rate is positive exactly when the profit is. */
  lemma AppraisedGain(h: Holding)
    requires IsAtCost(h)
    ensures Appraised(h).paperProfit == Appraised(h).marketValue - h.amount
    ensures h.averagePrice > 0.0 && h.accruedQty > 0.0 ==>
      (Appraised(h).paperProfitRate > 0.0 <==> Appraised(h).paperProfit > 0.0)
  {
    PaperProfitIsGain(h.marketPrice, h.averagePrice, h.accruedQty);
    if h.averagePrice > 0.0 && h.accruedQty > 0.0 {
      PaperProfitRateSign(h.marketPrice, h.averagePrice, h.accruedQty);
    }
  }

  /** The profit of a row valued at cost is its market value minus its
      amount plus its dividends, and the profit rate is that profit as a
      percentage of the amount. */
  lemma ProfitedGain(h: Holding)
    requires IsAtCost(h)
    ensures Profited(Appraised(h)).profit == Appraised(h).marketValue - h.amount + h.dividends
    ensures h.amount != 0.0 ==> Profited(Appraised(h)).profitRate * h.amount == Profited(Appraised(h)).profit * 100.0
  {
    AppraisedGain(h);
    if h.amount != 0.0 {
      ProfitRateIsPercentage(Profited(Appraised(h)).profit, h.amount);
    }
  }

  // ------------------------------------------------------------ with_dividends

  function DividendTicker(d: (string, real)): string { d.0 }

  function WithDividend(h: Holding, d: (string, real)): Holding { h.(dividends := d.1) }

  function NoDividend(h: Holding): Holding { h.(dividends := 0.0) }

  /** `with_dividends`: the rows left-joined on Ticker with the per-ticker
      dividends, a ticker without any getting 0. */
  function Dividended(rows: seq<Holding>, dividends: seq<(string, real)>): seq<Holding> {
    LeftJoin(rows, dividends, DividendTicker, WithDividend, NoDividend)
  }

  /** With one entry per ticker (as `by_ticker` makes them), each row keeps
      its place and gains the dividends of its ticker, 0 when it has none. */
  lemma DividendsJoined(rows: seq<Holding>, dividends: seq<(string, real)>)
    requires forall i, j :: 0 <= i < j < |dividends| ==> dividends[i].0 != dividends[j].0
    ensures var r := Dividended(rows, dividends);
      |r| == |rows| && forall i :: 0 <= i < |rows| ==>
        r[i] == rows[i].(dividends := SumWhere(dividends, DividendTicker, rows[i].ticker, Second))
  {
    forall h | h in rows ensures |Group(dividends, DividendTicker, h.ticker)| <= 1 {
      DistinctKeysMatchOnce(dividends, DividendTicker, h.ticker);
    }
    LeftJoinOneToOne(rows, dividends, DividendTicker, WithDividend, NoDividend);
    var r := Dividended(rows, dividends);
    forall i | 0 <= i < |rows|
      ensures r[i] == rows[i].(dividends := SumWhere(dividends, DividendTicker, rows[i].ticker, Second))
    {
      var g := Group(dividends, DividendTicker, rows[i].ticker);
      DistinctKeysMatchOnce(dividends, DividendTicker, rows[i].ticker);
      if |g| == 1 {
        assert SumOf(g, Second) == SumOf(g[..0], Second) + g[0].1;
        assert r[i] in JoinRow(rows[i], dividends, DividendTicker, WithDividend, NoDividend);
        var x :| x in dividends && DividendTicker(x) == rows[i].ticker && r[i] == WithDividend(rows[i], x);
        assert x in g;
      }
    }
  }

  // ------------------------------------------------------------ with_allocation

  function MarketValueOf(h: Holding): real { h.marketValue }

  /** `with_allocation`: each row's share of the total market value, in
      percent. */
  function Allocated(rows: seq<Holding>): (r: seq<Holding>)
    ensures |r| == |rows|
    ensures forall i :: 0 <= i < |rows| ==> r[i] == rows[i].(allocation := r[i].allocation)
  {
    var shares := Allocation(MapSeq(rows, MarketValueOf));
    seq(|rows|, i requires 0 <= i < |rows| => rows[i].(allocation := shares[i]))
  }

  function AllocationOf(h: Holding): real { h.allocation }

  /** The allocations add up to 100 when the total market value is not 0. */
  lemma AllocationsSumTo100(rows: seq<Holding>)
    requires SumOf(rows, MarketValueOf) != 0.0
    ensures SumOf(Allocated(rows), AllocationOf) == 100.0
  {
    var values := MapSeq(rows, MarketValueOf);
    SumOfIsSum(rows, MarketValueOf);
    AllocationSumsTo100(values);
    SumOfIsSum(Allocated(rows), AllocationOf);
    assert MapSeq(Allocated(rows), AllocationOf) == Allocation(values);
  }

  /** A column's sum is the sum of the column as a sequence. */
  lemma {:induction false} SumOfIsSum<T>(s: seq<T>, f: T -> real)
    ensures SumOf(s, f) == Sum(MapSeq(s, f))
    decreases |s|
  {
    if |s| > 0 {
      SumOfIsSum(s[..|s| - 1], f);
      assert MapSeq(s, f)[..|s| - 1] == MapSeq(s[..|s| - 1], f);
    }
  }

  // ------------------------------------------------------------ uninvested cash

  /** A cash row as `merge_uninvested_cash` joins it. */
  datatype CashLine = CashLine(ticker: string, currency: string, amount: real)

  /** The cash table `Cash::collect` makes, its Country column aside (the
      join renames it `Country_right`, which `collect` drops). */
  function LineOf(c: U.CashRow): CashLine { CashLine(c.ticker, c.currency, c.amount) }

  function LineAmount(c: CashLine): real { c.amount }

  /** The join key (Ticker, Amount, Currency). */
  function HoldingKey(h: Holding): (string, real, string) { (h.ticker, h.amount, h.currency) }

  function LineKey(c: CashLine): (string, real, string) { (c.ticker, c.amount, c.currency) }

  /** A cash line no row matched: AccruedQty 1 and every other numeric column
      Amount (`fill_null(Amount)`); the text columns stay empty. */
  function CashHolding(c: CashLine): Holding {
    Holding(c.ticker, c.amount, 1.0, "", c.currency, "", c.amount, c.amount, c.amount,
            c.amount, c.amount, c.amount, c.amount, c.amount, c.amount)
  }

  /** A row once per cash line with its key, or once when there is none. */
  function Matched(h: Holding, cash: seq<CashLine>): (r: seq<Holding>)
    ensures |r| >= 1 && forall y :: y in r ==> y == h
  {
    var n := |Group(cash, LineKey, HoldingKey(h))|;
    seq(if n == 0 then 1 else n, _ => h)
  }

  /** The rows of the outer join that come from the working frame. */
  function MatchedRows(rows: seq<Holding>, cash: seq<CashLine>): (r: seq<Holding>)
    ensures forall y :: y in r <==> y in rows
    decreases |rows|
  {
    if |rows| == 0 then []
    else
      var init, h := rows[..|rows| - 1], rows[|rows| - 1];
      assert rows == init + [h];
      var m := Matched(h, cash);
      assert m[0] == h;
      MatchedRows(init, cash) + m
  }

  function Unmatched(rows: seq<Holding>): CashLine -> bool {
    (c: CashLine) => LineKey(c) !in MapSeq(rows, HoldingKey)
  }

  /** `merge_uninvested_cash`: an outer join on (Ticker, Amount, Currency)
      with the keys coalesced; the cash lines no row matched come after the
      rows. */
  function MergeCash(rows: seq<Holding>, cash: seq<CashLine>): seq<Holding> {
    MatchedRows(rows, cash) + MapSeq(Keep(cash, Unmatched(rows)), CashHolding)
  }

  /** The merge keeps every row, and adds a cash row for every cash line
      that matches none; nothing else comes out. */
  lemma MergeCashRows(rows: seq<Holding>, cash: seq<CashLine>, y: Holding)
    ensures y in MergeCash(rows, cash) <==>
      y in rows || exists c :: c in cash && (forall h :: h in rows ==> HoldingKey(h) != LineKey(c)) && y == CashHolding(c)
  {
    var kept := Keep(cash, Unmatched(rows));
    forall c ensures Unmatched(rows)(c) <==> forall h :: h in rows ==> HoldingKey(h) != LineKey(c) {
      KeysOf(rows, HoldingKey, LineKey(c));
    }
    var tail := MapSeq(kept, CashHolding);
    if y in tail {
      var i :| 0 <= i < |tail| && tail[i] == y;
      assert kept[i] in kept;
    }
    if exists c :: c in cash && (forall h :: h in rows ==> HoldingKey(h) != LineKey(c)) && y == CashHolding(c) {
      var c :| c in cash && (forall h :: h in rows ==> HoldingKey(h) != LineKey(c)) && y == CashHolding(c);
      assert c in kept;
      var i :| 0 <= i < |kept| && kept[i] == c;
      assert tail[i] == y;
    }
  }

  /** When no cash line has the key of a row (cash rows are tickered
      `Cash`), the merge appends one row per cash line to the rows. */
  lemma MergeDisjoint(rows: seq<Holding>, cash: seq<CashLine>)
    requires forall h, c :: h in rows && c in cash ==> HoldingKey(h) != LineKey(c)
    ensures MergeCash(rows, cash) == rows + MapSeq(cash, CashHolding)
  {
    MatchedAlone(rows, cash);
    forall c | c in cash ensures Unmatched(rows)(c) {
      KeysOf(rows, HoldingKey, LineKey(c));
    }
    KeepAll(cash, Unmatched(rows));
  }

  lemma {:induction false} MatchedAlone(rows: seq<Holding>, cash: seq<CashLine>)
    requires forall h, c :: h in rows && c in cash ==> HoldingKey(h) != LineKey(c)
    ensures MatchedRows(rows, cash) == rows
    decreases |rows|
  {
    if |rows| > 0 {
      var init, h := rows[..|rows| - 1], rows[|rows| - 1];
      assert rows == init + [h];
      MatchedAlone(init, cash);
      assert h in rows;
      NoKeyNoGroup(cash, LineKey, HoldingKey(h));
      assert Matched(h, cash) == [h];
    }
  }

  /** A cash row is worth its amount and makes no paper profit. */
  lemma CashAppraised(c: CashLine)
    ensures Appraised(CashHolding(c)).marketValue == c.amount
    ensures Appraised(CashHolding(c)).paperProfit == 0.0
    ensures c.amount != 0.0 ==> Appraised(CashHolding(c)).paperProfitRate == 0.0
  {
  }

  // ------------------------------------------------------------ normalize_currency

  /** The first pass: every Float64 column but AccruedQty and MarketPrice,
      by Currency. */
  function MoneyColumns(): Columns<Holding> {
    Columns(
      (h: Holding) => h.currency,
      (h: Holding, k: real) => h.(amount := h.amount * k, averagePrice := h.averagePrice * k,
                                  dividends := h.dividends * k, marketValue := h.marketValue * k,
                                  paperProfit := h.paperProfit * k, paperProfitRate := h.paperProfitRate * k,
                                  profit := h.profit * k, profitRate := h.profitRate * k,
                                  allocation := h.allocation * k),
      (h: Holding, c: string) => h.(currency := c))
  }

  /** The second pass: MarketPrice, by MarketPriceCurrency. */
  function PriceColumns(): Columns<Holding> {
    Columns(
      (h: Holding) => h.marketPriceCurrency,
      (h: Holding, k: real) => h.(marketPrice := h.marketPrice * k),
      (h: Holding, c: string) => h.(marketPriceCurrency := c))
  }

  /** The pending cash: its Amount, by Currency. */
  function CashColumns(): Columns<U.CashRow> {
    Columns(
      (c: U.CashRow) => c.currency,
      (c: U.CashRow, k: real) => c.(amount := c.amount * k),
      (c: U.CashRow, x: string) => c.(currency := x))
  }

  /** The first pass leaves the quantity and the market price as they are. */
  lemma MoneyRescaled(h: Holding, rate: real, target: Currency)
    ensures var y := Rescaled(h, MoneyColumns(), rate, target);
      && y.accruedQty == h.accruedQty && y.marketPrice == h.marketPrice
      && y.marketPriceCurrency == h.marketPriceCurrency && y.ticker == h.ticker
      && y.amount == h.amount * rate && y.averagePrice == h.averagePrice * rate
      && y.currency == CurrencyName(target)
  {
  }

  /** The second pass converts the market price alone. */
  lemma PriceRescaled(h: Holding, rate: real, target: Currency)
    ensures Rescaled(h, PriceColumns(), rate, target) ==
      h.(marketPrice := h.marketPrice * rate, marketPriceCurrency := CurrencyName(target))
  {
  }

  function HoldingPair(h: Holding): (string, string) { (h.ticker, h.currency) }
  function HoldingAmount(h: Holding): real { h.amount }
  function HoldingQty(h: Holding): real { h.accruedQty }
  function Basis(h: Holding): real { h.averagePrice * h.accruedQty }

  /** One (Ticker, Currency) group: Amount and AccruedQty summed, the first
      MarketPrice, and AveragePrice the quantity-weighted mean. The other
      columns are dropped (here: empty). */
  function RegroupRow(rows: seq<Holding>, k: (string, string)): (y: Holding)
    ensures y.ticker == k.0 && y.currency == k.1
    ensures y.amount == SumWhere(rows, HoldingPair, k, HoldingAmount)
    ensures y.accruedQty == SumWhere(rows, HoldingPair, k, HoldingQty)
    ensures y.accruedQty != 0.0 ==> y.averagePrice * y.accruedQty == SumWhere(rows, HoldingPair, k, Basis)
  {
    var g := Group(rows, HoldingPair, k);
    var qty := SumOf(g, HoldingQty);
    var basis := SumOf(g, Basis);
    Holding(k.0, SumOf(g, HoldingAmount), qty, "", k.1, "", if |g| == 0 then 0.0 else g[0].marketPrice,
            Quotient(basis, qty), 0.0, 0.0, 0.0, 0.0, 0.0, 0.0, 0.0)
  }

  function RegroupOf(rows: seq<Holding>): ((string, string)) -> Holding {
    (k: (string, string)) => RegroupRow(rows, k)
  }

  /** The regroup of `normalize_currency`, groups in first-appearance order. */
  function Regroup(rows: seq<Holding>): seq<Holding> {
    MapSeq(UniqueStable(MapSeq(rows, HoldingPair)), RegroupOf(rows))
  }

  /** One output row per (Ticker, Currency) pair of the input, and no two
      with the same pair. */
  lemma RegroupKeys(rows: seq<Holding>)
    ensures var r := Regroup(rows);
      && (forall i, j :: 0 <= i < j < |r| ==> HoldingPair(r[i]) != HoldingPair(r[j]))
      && (forall k :: k in MapSeq(r, HoldingPair) <==> k in MapSeq(rows, HoldingPair))
  {
    var ks := UniqueStable(MapSeq(rows, HoldingPair));
    var r := Regroup(rows);
    assert MapSeq(r, HoldingPair) == ks;
  }

  /** In one currency, the regrouped rows have distinct tickers. */
  lemma RegroupOneCurrency(rows: seq<Holding>, c: string)
    requires forall h :: h in rows ==> h.currency == c
    ensures var r := Regroup(rows);
      forall i, j :: 0 <= i < j < |r| ==> r[i].ticker != r[j].ticker
  {
    RegroupKeys(rows);
    RegroupInCurrency(rows, c);
  }

  /** The regroup keeps the totals of Amount and AccruedQty, and the total
      cost basis when no group's quantity sums to 0. */
  lemma RegroupTotals(rows: seq<Holding>)
    ensures SumOf(Regroup(rows), HoldingAmount) == SumOf(rows, HoldingAmount)
    ensures SumOf(Regroup(rows), HoldingQty) == SumOf(rows, HoldingQty)
    ensures (forall h :: h in rows ==> SumWhere(rows, HoldingPair, HoldingPair(h), HoldingQty) != 0.0) ==>
      SumOf(Regroup(rows), Basis) == SumOf(rows, Basis)
  {
    GroupRowsTotal(rows, HoldingPair, HoldingAmount, RegroupOf(rows), HoldingAmount);
    GroupRowsTotal(rows, HoldingPair, HoldingQty, RegroupOf(rows), HoldingQty);
    if forall h :: h in rows ==> SumWhere(rows, HoldingPair, HoldingPair(h), HoldingQty) != 0.0 {
      var ks := UniqueStable(MapSeq(rows, HoldingPair));
      forall k | k in ks ensures Basis(RegroupRow(rows, k)) == SumWhere(rows, HoldingPair, k, Basis) {
        KeysOf(rows, HoldingPair, k);
      }
      SumOfGroupRows(rows, HoldingPair, ks, Basis, RegroupOf(rows), Basis);
      forall x | x in rows ensures HoldingPair(x) in ks {
        KeysOf(rows, HoldingPair, HoldingPair(x));
      }
      GroupSumsPartition(rows, HoldingPair, ks, Basis);
    }
  }

  function CashPair(c: U.CashRow): (string, string) { (c.ticker, c.currency) }

  function CashGroup(cash: seq<U.CashRow>): ((string, string)) -> CashLine {
    (k: (string, string)) => CashLine(k.0, k.1, SumWhere(cash, CashPair, k, U.CashRowAmount))
  }

  /** The regroup of the pending cash: Amount summed per (Ticker, Currency). */
  function CashRegroup(cash: seq<U.CashRow>): seq<CashLine> {
    MapSeq(UniqueStable(MapSeq(cash, CashPair)), CashGroup(cash))
  }

  /** The cash regroup keeps the total cash. */
  lemma CashRegroupTotal(cash: seq<U.CashRow>)
    ensures SumOf(CashRegroup(cash), LineAmount) == SumOf(cash, U.CashRowAmount)
  {
    GroupRowsTotal(cash, CashPair, U.CashRowAmount, CashGroup(cash), LineAmount);
  }

  /** Regrouping rows of one currency gives rows of that currency. */
  lemma RegroupInCurrency(rows: seq<Holding>, c: string)
    requires forall h :: h in rows ==> h.currency == c
    ensures forall y :: y in Regroup(rows) ==> y.currency == c
  {
    var r := Regroup(rows);
    RegroupKeys(rows);
    forall y | y in r ensures y.currency == c {
      var i :| 0 <= i < |r| && r[i] == y;
      assert HoldingPair(y) in MapSeq(r, HoldingPair);
      KeysOf(rows, HoldingPair, HoldingPair(y));
    }
  }

  /** Likewise for the pending cash. */
  lemma CashRegroupInCurrency(cash: seq<U.CashRow>, c: string)
    requires forall x :: x in cash ==> x.currency == c
    ensures forall l :: l in CashRegroup(cash) ==> l.currency == c
  {
    var ks := UniqueStable(MapSeq(cash, CashPair));
    forall l | l in CashRegroup(cash) ensures l.currency == c {
      var i :| 0 <= i < |ks| && CashRegroup(cash)[i] == l;
      assert ks[i] in ks;
      KeysOf(cash, CashPair, ks[i]);
    }
  }

  /** What `normalize_currency` leaves behind: the failure it stops at, if
      any, the working frame, the pending cash and the provider's state. */
  datatype Outcome = Outcome(failure: Option<Failure>, working: seq<Holding>, cash: Option<seq<U.CashRow>>,
                             provider: ProviderState)

  /** `normalize_currency`, as a specification: the money columns by
      Currency, then MarketPrice by MarketPriceCurrency, then the regroup;
      then the pending cash, taken, converted, regrouped and merged. Each
      `?` stops the method with the state as it stands at that point. */
  function NormalizeOutcome(rows: seq<Holding>, cash: Option<seq<U.CashRow>>, target: Currency,
                            s: ProviderState, respond: Respond, present: Date): Outcome
  {
    var period := QuoteWindow(Some(present), present);
    var r1 := NormalizeResult(rows, MoneyColumns(), target, s.tickers, s.countries, respond, period);
    var s1 := StateAfter(rows, MoneyColumns(), target, s, respond, period);
    if r1.Fail? then Outcome(Some(r1.failure), rows, cash, s1)
    else
      var r2 := NormalizeResult(r1.value, PriceColumns(), target, s1.tickers, s1.countries, respond, period);
      var s2 := StateAfter(r1.value, PriceColumns(), target, s1, respond, period);
      if r2.Fail? then Outcome(Some(r2.failure), rows, cash, s2)
      else
        CashOutcome(Regroup(r2.value), cash, target, s2, respond, period)
  }

  /** The third pass, on the regrouped frame `grouped`: the cash, if any,
      is taken, converted, regrouped and merged. */
  function CashOutcome(grouped: seq<Holding>, cash: Option<seq<U.CashRow>>, target: Currency,
                       s: ProviderState, respond: Respond, period: SearchPeriod): Outcome
  {
    if cash.None? then Outcome(None, grouped, None, s)
    else
      var r3 := NormalizeResult(cash.value, CashColumns(), target, s.tickers, s.countries, respond, period);
      var s3 := StateAfter(cash.value, CashColumns(), target, s, respond, period);
      if r3.Fail? then Outcome(Some(r3.failure), grouped, None, s3)
      else Outcome(None, MergeCash(grouped, CashRegroup(r3.value)), None, s3)
  }

  /** After the first pass every row is in the target currency, and the
      second pass converts MarketPrice only, so this stays so. */
  lemma PassesInTarget(rows: seq<Holding>, target: Currency, s: ProviderState, respond: Respond, period: SearchPeriod)
    ensures var r1 := NormalizeResult(rows, MoneyColumns(), target, s.tickers, s.countries, respond, period);
      var s1 := StateAfter(rows, MoneyColumns(), target, s, respond, period);
      r1.Ok? ==>
        var r2 := NormalizeResult(r1.value, PriceColumns(), target, s1.tickers, s1.countries, respond, period);
        r2.Ok? ==> forall y :: y in r2.value ==> y.currency == CurrencyName(target)
  {
    var r1 := NormalizeResult(rows, MoneyColumns(), target, s.tickers, s.countries, respond, period);
    var s1 := StateAfter(rows, MoneyColumns(), target, s, respond, period);
    NormalizedInTarget(rows, MoneyColumns(), target, s.tickers, s.countries, respond, period);
    if r1.Ok? {
      var r2 := NormalizeResult(r1.value, PriceColumns(), target, s1.tickers, s1.countries, respond, period);
      if r2.Ok? {
        forall y | y in r2.value ensures y.currency == CurrencyName(target) {
          NormalizedFrom(r1.value, PriceColumns(), target, s1.tickers, s1.countries, respond, period, y);
          var x :| x in r1.value && (y == x || exists rate :: y == Rescaled(x, PriceColumns(), rate, target));
          if y != x {
            var rate :| y == Rescaled(x, PriceColumns(), rate, target);
            PriceRescaled(x, rate, target);
          }
        }
      }
    }
  }

  /** A successful `normalize_currency` leaves every row, cash included, in
      the target currency, and no cash pending. */
  lemma NormalizedInTargetCurrency(rows: seq<Holding>, cash: Option<seq<U.CashRow>>, target: Currency,
                                   s: ProviderState, respond: Respond, present: Date)
    ensures var o := NormalizeOutcome(rows, cash, target, s, respond, present);
      o.failure.None? ==> o.cash.None? && forall y :: y in o.working ==> y.currency == CurrencyName(target)
  {
    var o := NormalizeOutcome(rows, cash, target, s, respond, present);
    var period := QuoteWindow(Some(present), present);
    var r1 := NormalizeResult(rows, MoneyColumns(), target, s.tickers, s.countries, respond, period);
    var s1 := StateAfter(rows, MoneyColumns(), target, s, respond, period);
    PassesInTarget(rows, target, s, respond, period);
    if o.failure.None? {
      var r2 := NormalizeResult(r1.value, PriceColumns(), target, s1.tickers, s1.countries, respond, period);
      var s2 := StateAfter(r1.value, PriceColumns(), target, s1, respond, period);
      var grouped := Regroup(r2.value);
      RegroupInCurrency(r2.value, CurrencyName(target));
      if cash.Some? {
        var r3 := NormalizeResult(cash.value, CashColumns(), target, s2.tickers, s2.countries, respond, period);
        NormalizedInTarget(cash.value, CashColumns(), target, s2.tickers, s2.countries, respond, period);
        var lines := CashRegroup(r3.value);
        CashRegroupInCurrency(r3.value, CurrencyName(target));
        forall y | y in o.working ensures y.currency == CurrencyName(target) {
          MergeCashRows(grouped, lines, y);
        }
      }
    }
  }

  /** Without pending cash, a successful `normalize_currency` leaves one row
      per ticker. */
  lemma NormalizedTickersDistinct(rows: seq<Holding>, target: Currency, s: ProviderState, respond: Respond, present: Date)
    ensures var o := NormalizeOutcome(rows, None, target, s, respond, present);
      o.failure.None? ==> forall i, j :: 0 <= i < j < |o.working| ==> o.working[i].ticker != o.working[j].ticker
  {
    var o := NormalizeOutcome(rows, None, target, s, respond, present);
    var period := QuoteWindow(Some(present), present);
    var r1 := NormalizeResult(rows, MoneyColumns(), target, s.tickers, s.countries, respond, period);
    var s1 := StateAfter(rows, MoneyColumns(), target, s, respond, period);
    PassesInTarget(rows, target, s, respond, period);
    if o.failure.None? {
      var r2 := NormalizeResult(r1.value, PriceColumns(), target, s1.tickers, s1.countries, respond, period);
      RegroupOneCurrency(r2.value, CurrencyName(target));
    }
  }

  // ------------------------------------------------------------ collect

  /** A row of the collected table: every column but Country. */
  datatype Report = Report(
    ticker: string,
    amount: real,
    accruedQty: real,
    currency: string,
    marketPriceCurrency: string,
    marketPrice: real,
    averagePrice: real,
    dividends: real,
    marketValue: real,
    paperProfit: real,
    paperProfitRate: real,
    profit: real,
    profitRate: real,
    allocation: real)

  /** `select(col("*").exclude([Country, "^.*_right$"]))`. */
  function Reported(h: Holding): (r: Report)
    ensures r.ticker == h.ticker && r.amount == h.amount && r.accruedQty == h.accruedQty
    ensures r.currency == h.currency && r.marketPrice == h.marketPrice && r.profit == h.profit
  {
    Report(h.ticker, h.amount, h.accruedQty, h.currency, h.marketPriceCurrency, h.marketPrice, h.averagePrice,
           h.dividends, h.marketValue, h.paperProfit, h.paperProfitRate, h.profit, h.profitRate, h.allocation)
  }

  /** The working frame after the pending cash, if any, is merged. */
  function WithPendingCash(rows: seq<Holding>, cash: Option<seq<U.CashRow>>): seq<Holding> {
    if cash.Some? then MergeCash(rows, MapSeq(cash.value, LineOf)) else rows
  }

  // ------------------------------------------------------------ the builder

  /** The portfolio builder: the raw ledger, the working frame, the cash
      waiting to be merged and the day quotes are read up to. */
  class Portfolio {
    const rawInput: seq<Order>
    var working: seq<Holding>
    var uninvestedCash: Option<seq<U.CashRow>>
    const presentDate: Date

    /** `from_orders`; the present day defaults to `today`. */
    constructor FromOrders(orders: seq<Order>, present: Option<Date>, today: Date)
      ensures rawInput == orders && working == OpenPositions(orders) && uninvestedCash.None?
      ensures presentDate == if present.Some? then present.value else today
    {
      rawInput := orders;
      working := OpenPositions(orders);
      uninvestedCash := None;
      presentDate := if present.Some? then present.value else today;
    }

    method WithQuotes(quotes: seq<Record>)
      modifies this
      ensures working == Quoted(old(working), quotes, presentDate)
      ensures uninvestedCash == old(uninvestedCash)
    {
      working := Quoted(working, quotes, presentDate);
    }

    method WithAveragePrice()
      modifies this
      ensures working == Averaged(old(working), rawInput)
      ensures uninvestedCash == old(uninvestedCash)
    {
      working := Averaged(working, rawInput);
    }

    method PaperProfit()
      modifies this
      ensures working == MapSeq(old(working), Appraised)
      ensures uninvestedCash == old(uninvestedCash)
    {
      working := MapSeq(working, Appraised);
    }

    method WithProfit()
      modifies this
      ensures working == MapSeq(old(working), Profited)
      ensures uninvestedCash == old(uninvestedCash)
    {
      working := MapSeq(working, Profited);
    }

    method WithDividends(dividends: seq<(string, real)>)
      modifies this
      ensures working == Dividended(old(working), dividends)
      ensures uninvestedCash == old(uninvestedCash)
    {
      working := Dividended(working, dividends);
    }

    /** `with_uninvested_cash`: the cash is kept until `normalize_currency`
        or `collect`. */
    method WithUninvestedCash(cash: seq<U.CashRow>)
      modifies this
      ensures uninvestedCash == Some(cash) && working == old(working)
    {
      uninvestedCash := Some(cash);
    }

    method MergeUninvestedCash(frame: seq<CashLine>)
      modifies this
      ensures working == MergeCash(old(working), frame)
      ensures uninvestedCash == old(uninvestedCash)
    {
      working := MergeCash(working, frame);
    }

    method WithAllocation()
      modifies this
      ensures working == Allocated(old(working))
      ensures uninvestedCash == old(uninvestedCash)
    {
      working := Allocated(working);
    }

    /** `normalize_currency`: `failure` is the error the source returns. */
    method NormalizeCurrency(scraper: Provider, target: Currency) returns (failure: Option<Failure>)
      modifies this, scraper
      ensures var o := NormalizeOutcome(old(working), old(uninvestedCash), target,
                                        old(ProviderState(scraper.tickers, scraper.countries, scraper.requests)),
                                        scraper.respond, presentDate);
        && failure == o.failure && working == o.working && uninvestedCash == o.cash
        && ProviderState(scraper.tickers, scraper.countries, scraper.requests) == o.provider
    {
      var r1 := Normalize(working, MoneyColumns(), target, scraper, Some(presentDate), presentDate);
      if r1.Fail? {
        return Some(r1.failure);
      }
      var r2 := Normalize(r1.value, PriceColumns(), target, scraper, Some(presentDate), presentDate);
      if r2.Fail? {
        return Some(r2.failure);
      }
      working := Regroup(r2.value);
      failure := NormalizeCash(scraper, target);
    }

    /** The cash pass of `normalize_currency`, on the regrouped frame. */
    method NormalizeCash(scraper: Provider, target: Currency) returns (failure: Option<Failure>)
      modifies this, scraper
      ensures var o := CashOutcome(old(working), old(uninvestedCash), target,
                                   old(ProviderState(scraper.tickers, scraper.countries, scraper.requests)),
                                   scraper.respond, QuoteWindow(Some(presentDate), presentDate));
        && failure == o.failure && working == o.working && uninvestedCash == o.cash
        && ProviderState(scraper.tickers, scraper.countries, scraper.requests) == o.provider
    {
      failure := None;
      if uninvestedCash.Some? {
        var frame := uninvestedCash.value;
        uninvestedCash := None;
        var r3 := Normalize(frame, CashColumns(), target, scraper, Some(presentDate), presentDate);
        if r3.Fail? {
          return Some(r3.failure);
        }
        working := MergeCash(working, CashRegroup(r3.value));
      }
    }

    /** `collect`: the pending cash is merged (taken, so at most once) and
        the Country column dropped. */
    method Collect() returns (r: seq<Report>)
      modifies this
      ensures working == WithPendingCash(old(working), old(uninvestedCash))
      ensures uninvestedCash.None?
      ensures r == MapSeq(working, Reported)
    {
      if uninvestedCash.Some? {
        var frame := uninvestedCash.value;
        uninvestedCash := None;
        MergeUninvestedCash(MapSeq(frame, LineOf));
      }
      r := MapSeq(working, Reported);
    }
  }
}
