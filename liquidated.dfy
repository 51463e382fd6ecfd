/** Realised profit (`Profit`): every sale of the ledger with the profit it
    realised against the average cost of the ticker at the time. */
module Liquidated {
  import opened Wrappers
  import opened Calendar
  import opened Series
  import opened Schema
  import opened Orders
  import opened Filter
  import opened Compute
  import opened AverageCost
  import opened Scraper
  import opened CurrencyNormalize
  import opened Transform

  /** A row of the result: Date, Ticker, Qty, Price, Amount, Currency and
      Profit, the columns of the final `select`. */
  datatype ProfitRow = ProfitRow(date: Date, ticker: string, qty: real, price: real, amount: real,
                                 currency: string, profit: real)

  /** A sale and the AveragePrice it is joined to. */
  function RowOf(o: Order, average: real): ProfitRow {
    ProfitRow(o.date, o.ticker, o.qty, o.price, o.amount, o.currency, SellProfit(o.price, average, o.qty))
  }

  /** The columns of a row the sale itself determines. */
  function SaleFields(x: ProfitRow): (Date, string, real, real, real, string) {
    (x.date, x.ticker, x.qty, x.price, x.amount, x.currency)
  }

  function OrderFields(o: Order): (Date, string, real, real, real, string) {
    (o.date, o.ticker, o.qty, o.price, o.amount, o.currency)
  }

  predicate SellOrder(o: Order) { IsSell(o.action) }
  predicate BuyOrSellOrder(o: Order) { BuyOrSell(o.action) }

  /** The join columns: Ticker, Date and Action. */
  function JoinKey(o: Order): (string, Date, string) { (o.ticker, o.date, o.action) }

  predicate Matches(o: Order, c: CostRow) { JoinKey(c.order) == JoinKey(o) }

  /** A row of the joined table: the left row and the right row's AveragePrice. */
  datatype Joined = Joined(order: Order, average: real)

  /** The rows of `trace` one left row joins to, in the order of `trace`. */
  function JoinOne(o: Order, trace: seq<CostRow>): (r: seq<Joined>)
    ensures forall j :: j in r ==> j.order == o
    ensures forall j :: j in r ==> exists c :: c in trace && Matches(o, c) && c.average == j.average
  {
    var m := Keep(trace, (c: CostRow) => Matches(o, c));
    var r := MapSeq(m, (c: CostRow) => Joined(o, c.average));
    forall j | j in r ensures exists c :: c in trace && Matches(o, c) && c.average == j.average {
      var i :| 0 <= i < |r| && r[i] == j;
      assert m[i] in m;
    }
    r
  }

  /** The inner join: every left row with every matching right row, in the
      order of the left rows. */
  function InnerJoin(left: seq<Order>, trace: seq<CostRow>): (r: seq<Joined>)
    ensures forall j :: j in r ==> j.order in left
    decreases |left|
  {
    if |left| == 0 then []
    else
      var init := InnerJoin(left[..|left| - 1], trace);
      assert forall j :: j in init ==> j.order in left by {
        forall j | j in init ensures j.order in left {
          assert j.order in left[..|left| - 1];
        }
      }
      init + JoinOne(left[|left| - 1], trace)
  }

  predicate SoldRow(j: Joined) { IsSell(j.order.action) }

  function JoinedProfit(j: Joined): ProfitRow { RowOf(j.order, j.average) }

  /** `from_orders` as written: the Buy and Sell rows joined to the
      average-cost trace on (Ticker, Date, Action), the sales kept, and the
      profit of each computed from the AveragePrice it was joined to. */
  function FromOrdersAsWritten(orders: seq<Order>): (r: seq<ProfitRow>)
    ensures forall x :: x in r ==> exists o :: o in orders && IsSell(o.action) && SaleFields(x) == OrderFields(o)
  {
    var joined := InnerJoin(Keep(orders, BuyOrSellOrder), Trace(orders));
    var sold := Keep(joined, SoldRow);
    var r := MapSeq(sold, JoinedProfit);
    forall x | x in r ensures exists o :: o in orders && IsSell(o.action) && SaleFields(x) == OrderFields(o) {
      var i :| 0 <= i < |r| && r[i] == x;
      assert sold[i] in sold;
      assert sold[i].order in Keep(orders, BuyOrSellOrder);
    }
    r
  }

  predicate SaleRow(c: CostRow) { IsSell(c.order.action) }

  function SaleProfit(c: CostRow): ProfitRow { RowOf(c.order, c.average) }

  /** Each sale paired with its own row of the trace, as the join does when
      no two sales of a ticker share a day. */
  function FromOrders(orders: seq<Order>): (r: seq<ProfitRow>)
    ensures forall x :: x in r ==> exists o :: o in orders && IsSell(o.action) && SaleFields(x) == OrderFields(o)
  {
    var sales := Keep(Trace(orders), SaleRow);
    var r := MapSeq(sales, SaleProfit);
    forall x | x in r ensures exists o :: o in orders && IsSell(o.action) && SaleFields(x) == OrderFields(o) {
      var i :| 0 <= i < |r| && r[i] == x;
      assert sales[i] in sales;
      var k :| 0 <= k < |Trace(orders)| && Trace(orders)[k] == sales[i];
      assert TraceRowOrder(orders, k) == CostOrders(orders)[k];
      assert CostOrders(orders)[k] in CostOrders(orders);
    }
    r
  }

  function TraceRowOrder(orders: seq<Order>, k: nat): Order
    requires k < |Trace(orders)|
  {
    Trace(orders)[k].order
  }

  function CostRowOrder(c: CostRow): Order { c.order }

  /** The trace has one row per kept order, in order. */
  lemma TraceOrders(orders: seq<Order>)
    ensures MapSeq(Trace(orders), CostRowOrder) == CostOrders(orders)
  {
  }

  // ------------------------------------------------------------ properties

  /** The rows are exactly the ledger's sales, in ledger order, each with
      its own Date, Ticker, Qty, Price, Amount and Currency. */
  lemma SalesInOrder(orders: seq<Order>)
    ensures MapSeq(FromOrders(orders), SaleFields) == MapSeq(Keep(orders, SellOrder), OrderFields)
  {
    var trace := Trace(orders);
    var sales := Keep(trace, SaleRow);
    TraceOrders(orders);
    KeepMapSeq(trace, CostRowOrder, SellOrder, SaleRow);
    KeepNarrow(orders, CostAction, SellOrder);
    var sold := MapSeq(sales, CostRowOrder);
    assert sold == Keep(orders, SellOrder);
    forall i | 0 <= i < |sales| ensures SaleFields(SaleProfit(sales[i])) == OrderFields(sold[i]) { }
  }

  /** The profit of a sale is its price minus the average price held just
      before it, times the quantity sold: a sale leaves the average as it
      was. */
  lemma ProfitAgainstAverageBefore(orders: seq<Order>, k: nat)
    requires k < |CostOrders(orders)| && IsSell(CostOrders(orders)[k].action)
    ensures var kept := CostOrders(orders); var o := kept[k];
      SaleProfit(Trace(orders)[k]).profit == (o.price - Fold(Group(kept[..k], TickerOf, o.ticker)).average) * o.qty
  {
    var kept := CostOrders(orders);
    assert Trace(orders)[k] == TraceRow(kept, k);
    SaleKeepsAverage(kept, k);
  }

  lemma SaleKeepsAverage(kept: seq<Order>, k: nat)
    requires AllCostActions(kept) && k < |kept| && IsSell(kept[k].action)
    ensures TraceRow(kept, k).average == Fold(Group(kept[..k], TickerOf, kept[k].ticker)).average
  {
    var o := kept[k];
    var before := Group(kept[..k], TickerOf, o.ticker);
    assert kept[..k + 1] == kept[..k] + [o];
    GroupAddLast(kept[..k], o, TickerOf, o.ticker);
    var g := Group(kept[..k + 1], TickerOf, o.ticker);
    assert g == before + [o];
    assert g[..|g| - 1] == before;
    assert AllCostActions(before) by {
      forall x | x in before ensures CostAction(x) { assert x in kept; }
    }
    SellKeepsAverage(Fold(before), o);
  }

  /** No two sales of one ticker on one day. */
  predicate UniqueSales(kept: seq<Order>) {
    forall i, j :: 0 <= i < |kept| && 0 <= j < |kept| && i != j && IsSell(kept[i].action) ==>
      JoinKey(kept[i]) != JoinKey(kept[j])
  }

  /** A trace of `kept`: one row per kept order, in order. */
  predicate TraceOf(kept: seq<Order>, trace: seq<CostRow>) {
    |trace| == |kept| && forall i :: 0 <= i < |kept| ==> trace[i].order == kept[i]
  }

  lemma OwnTraceRow(kept: seq<Order>, trace: seq<CostRow>, i: nat)
    requires UniqueSales(kept) && TraceOf(kept, trace)
    requires i < |kept| && IsSell(kept[i].action)
    ensures JoinOne(kept[i], trace) == [Joined(trace[i].order, trace[i].average)]
  {
    var p := (c: CostRow) => Matches(kept[i], c);
    forall j | 0 <= j < |trace| && j != i ensures !p(trace[j]) {
      assert trace[j].order == kept[j];
    }
    KeepSingle(trace, p, i);
  }

  /** Keeping the sales before or after the join gives the same rows: the
      action is a join column. */
  lemma {:induction false} SoldBeforeJoin(left: seq<Order>, trace: seq<CostRow>)
    ensures Keep(InnerJoin(left, trace), SoldRow) == InnerJoin(Keep(left, SellOrder), trace)
    decreases |left|
  {
    if |left| > 0 {
      var n := |left| - 1;
      var o := left[n];
      SoldBeforeJoin(left[..n], trace);
      KeepAppend(InnerJoin(left[..n], trace), JoinOne(o, trace), SoldRow);
      KeepPrefixStep(left, n, SellOrder);
      assert left[..n + 1] == left;
      var one := JoinOne(o, trace);
      if IsSell(o.action) {
        KeepAll(one, SoldRow);
        ExtendJoin(Keep(left[..n], SellOrder), o, trace);
      } else {
        KeepNone(one, SoldRow);
      }
    }
  }

  lemma ExtendJoin(left: seq<Order>, o: Order, trace: seq<CostRow>)
    ensures InnerJoin(left + [o], trace) == InnerJoin(left, trace) + JoinOne(o, trace)
  {
    assert (left + [o])[..|left|] == left;
  }

  function AsJoined(c: CostRow): Joined { Joined(c.order, c.average) }

  /** With unique sales, the join of the first `n` kept sales is their own
      trace rows. */
  lemma {:induction false} JoinPrefix(kept: seq<Order>, trace: seq<CostRow>, n: nat)
    requires UniqueSales(kept) && TraceOf(kept, trace) && n <= |kept|
    ensures InnerJoin(Keep(kept[..n], SellOrder), trace) == MapSeq(Keep(trace[..n], SaleRow), AsJoined)
  {
    if n == 0 {
      assert kept[..0] == [] && trace[..0] == [];
    } else {
      var i := n - 1;
      JoinPrefix(kept, trace, i);
      KeepPrefixStep(kept, i, SellOrder);
      KeepPrefixStep(trace, i, SaleRow);
      assert trace[i].order == kept[i];
      if IsSell(kept[i].action) {
        ExtendJoin(Keep(kept[..i], SellOrder), kept[i], trace);
        OwnTraceRow(kept, trace, i);
        var before := Keep(trace[..i], SaleRow);
        assert MapSeq(before + [trace[i]], AsJoined) == MapSeq(before, AsJoined) + [AsJoined(trace[i])];
      }
    }
  }

  /** With unique sales, the kept sales joined to the trace are the trace's
      sale rows. */
  lemma JoinedSales(kept: seq<Order>, trace: seq<CostRow>)
    requires UniqueSales(kept) && TraceOf(kept, trace)
    ensures MapSeq(InnerJoin(Keep(kept, SellOrder), trace), JoinedProfit) == MapSeq(Keep(trace, SaleRow), SaleProfit)
  {
    JoinPrefix(kept, trace, |kept|);
    assert kept[..|kept|] == kept && trace[..|trace|] == trace;
    var sales := Keep(trace, SaleRow);
    assert MapSeq(MapSeq(sales, AsJoined), JoinedProfit) == MapSeq(sales, SaleProfit);
  }

  /** The join as written is the join of the kept sales: keeping the sales
      after the join is keeping them before it. */
  lemma AsWrittenJoinsSales(orders: seq<Order>)
    ensures TraceOf(CostOrders(orders), Trace(orders))
    ensures FromOrdersAsWritten(orders) ==
      MapSeq(InnerJoin(Keep(CostOrders(orders), SellOrder), Trace(orders)), JoinedProfit)
  {
    var kept := CostOrders(orders);
    var trace := Trace(orders);
    TraceOrders(orders);
    assert TraceOf(kept, trace) by {
      forall i | 0 <= i < |kept| ensures trace[i].order == kept[i] {
        assert MapSeq(trace, CostRowOrder)[i] == trace[i].order;
      }
    }
    var bos := Keep(orders, BuyOrSellOrder);
    SoldBeforeJoin(bos, trace);
    KeepNarrow(orders, BuyOrSellOrder, SellOrder);
    KeepNarrow(orders, CostAction, SellOrder);
    assert Keep(bos, SellOrder) == Keep(kept, SellOrder);
  }

  /** When no two sales of a ticker share a day, the join as written gives
      each sale once, with its own trace row. */
  lemma AsWrittenAgrees(orders: seq<Order>)
    requires UniqueSales(CostOrders(orders))
    ensures FromOrdersAsWritten(orders) == FromOrders(orders)
  {
    AsWrittenJoinsSales(orders);
    JoinedSales(CostOrders(orders), Trace(orders));
  }

  // ------------------------------------------------------------ the finding

  /** Two sales of one ticker on one day after a purchase. */
  function SameDayLedger(): seq<Order> {
    [Order(0, "Buy", "X", 2.0, 10.0, 20.0, 0.0, 0.0, "Usa", "USD", ""),
     Order(1, "Sell", "X", 1.0, 12.0, 12.0, 0.0, 0.0, "Usa", "USD", ""),
     Order(1, "Sell", "X", 1.0, 12.0, 12.0, 0.0, 0.0, "Usa", "USD", "")]
  }

  /** A purchase and two identical sales: each sale joins to both sale rows
      of the trace. */
  lemma DoubledJoin(b: Order, s: Order, trace: seq<CostRow>)
    requires IsBuy(b.action) && IsSell(s.action) && TraceOf([b, s, s], trace)
    ensures MapSeq(InnerJoin(Keep([b, s, s], SellOrder), trace), JoinedProfit) ==
      MapSeq(Keep(trace, SaleRow), SaleProfit) + MapSeq(Keep(trace, SaleRow), SaleProfit)
    ensures |Keep(trace, SaleRow)| == 2
  {
    assert trace == [trace[0], trace[1], trace[2]];
    assert trace[0].order == b && trace[1].order == s && trace[2].order == s;
    var both := BothMatches(b, s, trace[0], trace[1], trace[2]);
    SalesOfThree(b, s, trace[0], trace[1], trace[2]);
    JoinTwice(b, s, trace, both);
    MapSeqAppend(both, both, JoinedProfit);
    ProfitsOfBoth(s, trace[1], trace[2]);
  }

  /** The two joined sales give the profit rows of the two sale rows. */
  lemma ProfitsOfBoth(s: Order, c1: CostRow, c2: CostRow)
    requires c1.order == s && c2.order == s
    ensures MapSeq([Joined(s, c1.average), Joined(s, c2.average)], JoinedProfit) == MapSeq([c1, c2], SaleProfit)
  {
    assert MapSeq([Joined(s, c1.average), Joined(s, c2.average)], JoinedProfit) == [RowOf(s, c1.average), RowOf(s, c2.average)];
  }

  lemma BothMatches(b: Order, s: Order, c0: CostRow, c1: CostRow, c2: CostRow) returns (both: seq<Joined>)
    requires IsBuy(b.action) && IsSell(s.action) && c0.order == b && c1.order == s && c2.order == s
    ensures JoinOne(s, [c0, c1, c2]) == both == [Joined(s, c1.average), Joined(s, c2.average)]
  {
    KeepThree(c0, c1, c2, (c: CostRow) => Matches(s, c));
    both := [Joined(s, c1.average), Joined(s, c2.average)];
  }

  lemma SalesOfThree(b: Order, s: Order, c0: CostRow, c1: CostRow, c2: CostRow)
    requires IsBuy(b.action) && IsSell(s.action) && c0.order == b && c1.order == s && c2.order == s
    ensures Keep([c0, c1, c2], SaleRow) == [c1, c2]
    ensures MapSeq([c1, c2], SaleProfit) == [RowOf(s, c1.average), RowOf(s, c2.average)]
  {
    KeepThree(c0, c1, c2, SaleRow);
  }

  lemma JoinTwice(b: Order, s: Order, trace: seq<CostRow>, both: seq<Joined>)
    requires IsBuy(b.action) && IsSell(s.action) && JoinOne(s, trace) == both
    ensures InnerJoin(Keep([b, s, s], SellOrder), trace) == both + both
  {
    KeepThree(b, s, s, SellOrder);
    assert Keep([b, s, s], SellOrder) == [s, s];
    JoinOfTwo(s, trace);
  }

  lemma JoinOfTwo(s: Order, trace: seq<CostRow>)
    ensures InnerJoin([s, s], trace) == JoinOne(s, trace) + JoinOne(s, trace)
  {
    var none: seq<Order> := [];
    ExtendJoin(none, s, trace);
    assert none + [s] == [s];
    ExtendJoin([s], s, trace);
    assert [s] + [s] == [s, s];
  }

  /** On that ledger each sale joins to both trace rows of the day, so the
      join as written reports every sale and its profit twice. */
  lemma SameDaySalesCountedTwice()
    ensures FromOrdersAsWritten(SameDayLedger()) == FromOrders(SameDayLedger()) + FromOrders(SameDayLedger())
    ensures |FromOrders(SameDayLedger())| == 2
  {
    var l := SameDayLedger();
    SameDayKept();
    AsWrittenJoinsSales(l);
    DoubledJoin(l[0], l[1], Trace(l));
  }

  lemma SameDayKept()
    ensures var l := SameDayLedger();
      && CostOrders(l) == [l[0], l[1], l[1]] && IsBuy(l[0].action) && IsSell(l[1].action)
  {
    var l := SameDayLedger();
    assert l == [l[0], l[1], l[1]];
    KeepThree(l[0], l[1], l[1], CostAction);
  }

  // ------------------------------------------------------------ currency and pivot

  /** The columns `normalize_currency` converts: Amount and Price, not Profit. */
  function ProfitColumns(): Columns<ProfitRow> {
    Columns(
      (x: ProfitRow) => x.currency,
      (x: ProfitRow, k: real) => x.(amount := x.amount * k, price := x.price * k),
      (x: ProfitRow, c: string) => x.(currency := c))
  }

  /** Conversion scales Amount and Price and relabels Currency; Profit stays
      in the currency of the sale. */
  lemma ProfitNotConverted(x: ProfitRow, rate: real, target: Currency)
    ensures Rescaled(x, ProfitColumns(), rate, target) ==
      x.(amount := x.amount * rate, price := x.price * rate, currency := CurrencyName(target))
    ensures Rescaled(x, ProfitColumns(), rate, target).profit == x.profit
  {
  }

  /** `normalize_currency`: the rows converted into `target`, and the
      provider left as the conversion leaves it. */
  method NormalizeCurrency(rows: seq<ProfitRow>, target: Currency, scraper: Provider, present: Option<Date>, today: Date)
    returns (r: Result<seq<ProfitRow>>)
    modifies scraper
    ensures r == NormalizeResult(rows, ProfitColumns(), target, old(scraper.tickers), old(scraper.countries),
                                 scraper.respond, QuoteWindow(present, today))
    ensures ProviderState(scraper.tickers, scraper.countries, scraper.requests) ==
      StateAfter(rows, ProfitColumns(), target, old(ProviderState(scraper.tickers, scraper.countries, scraper.requests)),
                 scraper.respond, QuoteWindow(present, today))
  {
    r := Normalize(rows, ProfitColumns(), target, scraper, present, today);
  }

  function DatedProfit(x: ProfitRow): (Date, real) { (x.date, x.profit) }
  function RowProfit(x: ProfitRow): real { x.profit }
  function EntryOf(x: ProfitRow): Entry { (YearOf(x.date), MonthOf(x.date), x.profit) }

  /** `pivot`: the profits by year and month. */
  function PivotProfit(rows: seq<ProfitRow>): (p: Pivot)
    ensures |p.rows| > 0 && p.rows[|p.rows| - 1].year == "Total"
  {
    PivotYearMonths(MapSeq(rows, DatedProfit))
  }

  /** The pivot's grand total is the whole realised profit. */
  lemma PivotProfitTotal(rows: seq<ProfitRow>)
    ensures var p := PivotProfit(rows); p.rows[|p.rows| - 1].total == SumOf(rows, RowProfit)
  {
    var data := WithYearMonth(MapSeq(rows, DatedProfit));
    PivotGrandTotal(data);
    assert data == MapSeq(rows, EntryOf);
    SumOfMapped(rows);
  }

  lemma {:induction false} SumOfMapped(rows: seq<ProfitRow>)
    ensures SumOf(MapSeq(rows, EntryOf), Value) == SumOf(rows, RowProfit)
    decreases |rows|
  {
    if |rows| > 0 {
      var n := |rows| - 1;
      assert MapSeq(rows, EntryOf)[..n] == MapSeq(rows[..n], EntryOf);
      SumOfMapped(rows[..n]);
    }
  }
}

/** The realised profit of the test ledger: APPL sold 3 at 134.6 against an
    average of 107.48, and GOOGL sold 4 at 35.4 and 8 at 36.4 against an
    average of 34.8. */
module LiquidatedMock {
  import opened Series
  import opened Orders
  import opened Compute
  import opened Fixture
  import opened AverageCost
  import opened AverageCostMock
  import opened Liquidated

  /** The Buy, Sell and Split rows of the ledger, in order. */
  function MockKept(): (r: seq<Order>)
    ensures |r| == 10
  {
    var l := MockOrders();
    [l[1], l[3], l[4], l[5], l[6], l[7], l[8], l[9], l[10], l[13]]
  }

  /** How many of them lie among the first `n` ledger rows. */
  const KeptCounts: seq<nat> := [0, 0, 1, 1, 2, 3, 4, 5, 6, 7, 8, 9, 9, 9, 10]

  lemma KeptStep(n: nat)
    requires n < 14
    ensures CountsStep(MockOrders(), CostAction, MockKept(), KeptCounts, n)
  {
    if n < 7 {
      if n == 0 {} else if n == 1 {} else if n == 2 {} else if n == 3 {} else if n == 4 {} else if n == 5 {} else {}
    } else {
      if n == 7 {} else if n == 8 {} else if n == 9 {} else if n == 10 {} else if n == 11 {} else if n == 12 {} else {}
    }
  }

  lemma KeptTable()
    ensures CountsTable(MockOrders(), CostAction, MockKept(), KeptCounts)
  {
    forall n | 0 <= n < 14 ensures CountsStep(MockOrders(), CostAction, MockKept(), KeptCounts, n) {
      KeptStep(n);
    }
  }

  /** The kept rows of a ledger prefix are a prefix of the kept rows. */
  lemma KeptPrefix(n: nat)
    requires n <= 14
    ensures CostOrders(MockOrders()[..n]) == MockKept()[..KeptCounts[n]]
  {
    KeptTable();
    KeepByCounts(MockOrders(), CostAction, MockKept(), KeptCounts, n);
  }

  lemma MockKeptIsCostOrders()
    ensures CostOrders(MockOrders()) == MockKept()
  {
    KeptPrefix(14);
    assert MockOrders()[..14] == MockOrders();
    assert MockKept()[..10] == MockKept();
  }

  /** The sales are rows 3, 4 and 7 of the kept rows. */
  const SaleCounts: seq<nat> := [0, 0, 0, 0, 1, 2, 2, 2, 3, 3, 3]

  lemma SaleStep(trace: seq<CostRow>, n: nat)
    requires TraceOf(MockKept(), trace) && n < 10
    ensures CountsStep(trace, SaleRow, [trace[3], trace[4], trace[7]], SaleCounts, n)
  {
    assert trace[n].order == MockKept()[n];
    if n < 5 {
      if n == 0 {} else if n == 1 {} else if n == 2 {} else if n == 3 {} else {}
    } else {
      if n == 5 {} else if n == 6 {} else if n == 7 {} else if n == 8 {} else {}
    }
  }

  lemma SaleTable(trace: seq<CostRow>)
    requires TraceOf(MockKept(), trace)
    ensures CountsTable(trace, SaleRow, [trace[3], trace[4], trace[7]], SaleCounts)
  {
    forall n | 0 <= n < 10 ensures CountsStep(trace, SaleRow, [trace[3], trace[4], trace[7]], SaleCounts, n) {
      SaleStep(trace, n);
    }
  }

  lemma SaleRows(trace: seq<CostRow>)
    requires TraceOf(MockKept(), trace)
    ensures Keep(trace, SaleRow) == [trace[3], trace[4], trace[7]]
  {
    SaleTable(trace);
    KeepByCounts(trace, SaleRow, [trace[3], trace[4], trace[7]], SaleCounts, 10);
    assert trace[..10] == trace;
  }

  /** The average a kept row is tagged with is the state of its ticker after
      the ledger prefix that ends with it. */
  lemma TraceAverage(orders: seq<Order>, n: nat, k: nat)
    requires n <= |orders| && k < |CostOrders(orders)|
    requires CostOrders(orders[..n]) == CostOrders(orders)[..k + 1]
    ensures var p := TickerFold(orders[..n], CostOrders(orders)[k].ticker);
      Trace(orders)[k] == CostRow(CostOrders(orders)[k], p.average, p.qty)
  {
    var kept := CostOrders(orders);
    assert Trace(orders)[k] == TraceRow(kept, k);
    TickerFoldIsGroupFold(orders[..n], kept[k].ticker);
  }

  /** Kept row `k` closes the ledger prefix of length `n`. */
  lemma MockTraceRow(n: nat, k: nat)
    requires n <= 14 && k < 10 && KeptCounts[n] == k + 1
    ensures |Trace(MockOrders())| == 10
    ensures var p := TickerFold(MockOrders()[..n], MockKept()[k].ticker);
      Trace(MockOrders())[k] == CostRow(MockKept()[k], p.average, p.qty)
  {
    MockKeptIsCostOrders();
    KeptPrefix(n);
    TraceAverage(MockOrders(), n, k);
  }

  lemma MockSaleRows()
    ensures var l := MockOrders(); var trace := Trace(l);
      && |trace| == 10
      && trace[3] == CostRow(l[5], 34.8, 18.0)
      && trace[4] == CostRow(l[6], 34.8, 10.0)
      && trace[7] == CostRow(l[9], 107.48, 2.7)
  {
    MockSaleRow3();
    MockSaleRow4();
    MockSaleRow7();
  }

  lemma MockSaleRow3()
    ensures |Trace(MockOrders())| == 10 && Trace(MockOrders())[3] == CostRow(MockOrders()[5], 34.8, 18.0)
  {
    MockTraceRow(6, 3);
    assert MockKept()[3] == MockOrders()[5] && MockOrders()[5].ticker == "GOOGL";
    GooglPrefixes(6);
  }

  lemma MockSaleRow4()
    ensures |Trace(MockOrders())| == 10 && Trace(MockOrders())[4] == CostRow(MockOrders()[6], 34.8, 10.0)
  {
    MockTraceRow(7, 4);
    assert MockKept()[4] == MockOrders()[6] && MockOrders()[6].ticker == "GOOGL";
    GooglPrefixes(7);
  }

  lemma MockSaleRow7()
    ensures |Trace(MockOrders())| == 10 && Trace(MockOrders())[7] == CostRow(MockOrders()[9], 107.48, 2.7)
  {
    MockTraceRow(10, 7);
    assert MockKept()[7] == MockOrders()[9] && MockOrders()[9].ticker == "APPL";
    ApplPrefixes(10);
  }

  lemma MockSales()
    ensures var l := MockOrders();
      && l[5] == Order(19954, "Sell", "GOOGL", 4.0, 35.4, 141.6, 0.0, 0.0, "Usa", "USD", "")
      && l[6] == Order(19986, "Sell", "GOOGL", 8.0, 36.4, 291.2, 0.0, 0.0, "Usa", "USD", "")
      && l[9] == Order(19866, "Sell", "APPL", 3.0, 134.6, 403.8, 0.0, 0.0, "Usa", "USD", "")
  {
  }

  /** `from_orders` on the test ledger: three sales, with profits 2.4, 12.8
      and 81.36. */
  lemma MockProfit()
    ensures FromOrders(MockOrders()) == [
      ProfitRow(19954, "GOOGL", 4.0, 35.4, 141.6, "USD", 2.4),
      ProfitRow(19986, "GOOGL", 8.0, 36.4, 291.2, "USD", 12.8),
      ProfitRow(19866, "APPL", 3.0, 134.6, 403.8, "USD", 81.36)]
  {
    var l := MockOrders();
    var trace := Trace(l);
    MockTraceOf();
    SaleRows(trace);
    MockSaleRows();
    MockSaleProfits();
    ProfitsOfSales(l, trace[3], trace[4], trace[7]);
    assert SaleProfit(trace[3]) == RowOf(l[5], 34.8);
    assert SaleProfit(trace[4]) == RowOf(l[6], 34.8);
    assert SaleProfit(trace[7]) == RowOf(l[9], 107.48);
  }

  lemma ProfitsOfSales(orders: seq<Order>, a: CostRow, b: CostRow, c: CostRow)
    requires Keep(Trace(orders), SaleRow) == [a, b, c]
    ensures FromOrders(orders) == [SaleProfit(a), SaleProfit(b), SaleProfit(c)]
  {
  }

  lemma MockTraceOf()
    ensures TraceOf(MockKept(), Trace(MockOrders()))
  {
    MockKeptIsCostOrders();
    var trace := Trace(MockOrders());
    TraceOrders(MockOrders());
    forall i | 0 <= i < |MockKept()| ensures trace[i].order == MockKept()[i] {
      assert MapSeq(trace, CostRowOrder)[i] == trace[i].order;
    }
  }

  lemma MockSaleProfits()
    ensures var l := MockOrders();
      && RowOf(l[5], 34.8) == ProfitRow(19954, "GOOGL", 4.0, 35.4, 141.6, "USD", 2.4)
      && RowOf(l[6], 34.8) == ProfitRow(19986, "GOOGL", 8.0, 36.4, 291.2, "USD", 12.8)
      && RowOf(l[9], 107.48) == ProfitRow(19866, "APPL", 3.0, 134.6, 403.8, "USD", 81.36)
  {
    MockSales();
  }

  /** No two sales of the test ledger share a ticker and a day, so the join
      as written gives the same three rows. */
  lemma MockUniqueSales()
    ensures UniqueSales(MockKept())
  {
    var kept := MockKept();
    var dates := [19828, 19891, 19922, 19954, 19986, 19803, 19835, 19866, 19898, 19993];
    assert forall i :: 0 <= i < 10 ==> kept[i].date == dates[i];
    forall i, j | 0 <= i < 10 && 0 <= j < 10 && i != j ensures kept[i].date != kept[j].date {
      assert dates[i] != dates[j];
    }
  }

  lemma MockProfitAsWritten()
    ensures FromOrdersAsWritten(MockOrders()) == FromOrders(MockOrders())
  {
    MockKeptIsCostOrders();
    MockUniqueSales();
    AsWrittenAgrees(MockOrders());
  }
}
