/** The portfolio built from the fourteen-row test ledger and the mock
    provider's quotes, step by step: the open positions, the quotes, the
    average cost, the dividends, the paper profit and the profit. */
module PortfolioMock {
  import opened Wrappers
  import opened Calendar
  import opened Text
  import opened Series
  import opened Schema
  import opened Orders
  import opened Filter
  import opened Compute
  import opened Fixture
  import opened AverageCost
  import opened AverageCostMock
  import opened Scraper
  import opened Mock
  import opened CurrencyNormalize
  import opened Portfolio
  import NormalizeExamples

  // ------------------------------------------------------------ the trades

  /** The Buy and Sell rows of the ledger, in order. */
  function MockTrades(): (r: seq<Order>)
    ensures |r| == 9
  {
    var l := MockOrders();
    [l[1], l[3], l[4], l[5], l[6], l[7], l[8], l[9], l[10]]
  }

  /** How many of them lie among the first `n` ledger rows. */
  const TradeCounts: seq<nat> := [0, 0, 1, 1, 2, 3, 4, 5, 6, 7, 8, 9, 9, 9, 9]

  lemma TradeStep(n: nat)
    requires n < 14
    ensures CountsStep(MockOrders(), Trade, MockTrades(), TradeCounts, n)
  {
    if n < 7 {
      if n == 0 {} else if n == 1 {} else if n == 2 {} else if n == 3 {} else if n == 4 {} else if n == 5 {} else {}
    } else {
      if n == 7 {} else if n == 8 {} else if n == 9 {} else if n == 10 {} else if n == 11 {} else if n == 12 {} else {}
    }
  }

  lemma MockTradesKept()
    ensures Trades(MockOrders()) == MockTrades()
  {
    forall n | 0 <= n < 14 ensures CountsStep(MockOrders(), Trade, MockTrades(), TradeCounts, n) {
      TradeStep(n);
    }
    KeepByCounts(MockOrders(), Trade, MockTrades(), TradeCounts, 14);
    assert MockOrders()[..14] == MockOrders();
    assert MockTrades()[..9] == MockTrades();
  }

  /** A group is the filter by its key. */
  lemma {:induction false} GroupIsKeep<T(!new), K>(s: seq<T>, key: T -> K, k: K, p: T -> bool)
    requires forall x :: p(x) == (key(x) == k)
    ensures Group(s, key, k) == Keep(s, p)
    decreases |s|
  {
    if |s| > 0 {
      var n := |s| - 1;
      GroupIsKeep(s[..n], key, k, p);
      GroupPrefixStep(s, n + 1, key, k);
      KeepPrefixStep(s, n, p);
      assert s[..n + 1] == s;
    }
  }

  function TickerIs(t: string): Order -> bool {
    (o: Order) => o.ticker == t
  }

  /** APPL's trades: bought 5.7, sold 3, bought 10.5. */
  function ApplTrades(): seq<Order> {
    var l := MockOrders();
    [l[7], l[9], l[10]]
  }

  /** GOOGL's trades: bought 8, 4 and 10, sold 4 and 8, bought 10. */
  function GooglTrades(): seq<Order> {
    var l := MockOrders();
    [l[1], l[3], l[4], l[5], l[6], l[8]]
  }

  const ApplCounts: seq<nat> := [0, 0, 0, 0, 0, 0, 1, 1, 2, 3]
  const GooglCounts: seq<nat> := [0, 1, 2, 3, 4, 5, 5, 6, 6, 6]

  lemma ApplGroup()
    ensures Group(MockTrades(), TickerOf, "APPL") == ApplTrades()
  {
    var s, p := MockTrades(), TickerIs("APPL");
    forall n | 0 <= n < 9 ensures CountsStep(s, p, ApplTrades(), ApplCounts, n) {
      if n == 0 {} else if n == 1 {} else if n == 2 {} else if n == 3 {} else if n == 4 {}
      else if n == 5 {} else if n == 6 {} else if n == 7 {} else {}
    }
    KeepByCounts(s, p, ApplTrades(), ApplCounts, 9);
    assert s[..9] == s && ApplTrades()[..3] == ApplTrades();
    GroupIsKeep(s, TickerOf, "APPL", p);
  }

  lemma GooglGroup()
    ensures Group(MockTrades(), TickerOf, "GOOGL") == GooglTrades()
  {
    var s, p := MockTrades(), TickerIs("GOOGL");
    forall n | 0 <= n < 9 ensures CountsStep(s, p, GooglTrades(), GooglCounts, n) {
      if n == 0 {} else if n == 1 {} else if n == 2 {} else if n == 3 {} else if n == 4 {}
      else if n == 5 {} else if n == 6 {} else if n == 7 {} else {}
    }
    KeepByCounts(s, p, GooglTrades(), GooglCounts, 9);
    assert s[..9] == s && GooglTrades()[..6] == GooglTrades();
    GroupIsKeep(s, TickerOf, "GOOGL", p);
  }

  lemma SumOfFront<T>(x: T, s: seq<T>, f: T -> real)
    ensures SumOf([x] + s, f) == f(x) + SumOf(s, f)
  {
    SumOfAppend([x], s, f);
    assert [x][..0] == [];
  }

  /** A purchase counts its quantity, a sale minus its quantity. */
  lemma SignedTrade(o: Order)
    requires o.action == "Buy" || o.action == "Sell"
    ensures SignedQty(o) == if o.action == "Sell" then -o.qty else o.qty
  {
    if o.action == "Sell" {
      NegationsMatchExactly(Action.Sell, o.qty);
    } else {
      NegationsMatchExactly(Action.Buy, o.qty);
    }
  }

  lemma ApplSums()
    ensures SumOf(ApplTrades(), OrderAmount) == 2020.236
    ensures SumOf(ApplTrades(), SignedQty) == 13.2
  {
    var l := MockOrders();
    SignedTrade(l[7]);
    SignedTrade(l[9]);
    SignedTrade(l[10]);
    forall f: Order -> real ensures SumOf(ApplTrades(), f) == f(l[7]) + f(l[9]) + f(l[10]) {
      SumOfFront(l[10], [], f);
      SumOfFront(l[9], [l[10]], f);
      SumOfFront(l[7], [l[9], l[10]], f);
      assert [l[10]] + [] == [l[10]];
      assert [l[9]] + [l[10]] == [l[9], l[10]];
      assert [l[7]] + [l[9], l[10]] == ApplTrades();
    }
  }

  /** The sum over GOOGL's six trades, written out. */
  lemma GooglSumOf(f: Order -> real)
    ensures var l := MockOrders();
      SumOf(GooglTrades(), f) == f(l[1]) + (f(l[3]) + (f(l[4]) + (f(l[5]) + (f(l[6]) + f(l[8])))))
  {
    var l := MockOrders();
    var s := GooglTrades();
    SumOfFront(l[8], [], f);
    assert [l[8]] + [] == s[5..];
    SumOfFront(l[6], s[5..], f);
    assert [l[6]] + s[5..] == s[4..];
    SumOfFront(l[5], s[4..], f);
    assert [l[5]] + s[4..] == s[3..];
    SumOfFront(l[4], s[3..], f);
    assert [l[4]] + s[3..] == s[2..];
    SumOfFront(l[3], s[2..], f);
    assert [l[3]] + s[2..] == s[1..];
    SumOfFront(l[1], s[1..], f);
    assert [l[1]] + s[1..] == s;
  }

  lemma GooglSums()
    ensures SumOf(GooglTrades(), OrderAmount) == 1541.4
    ensures SumOf(GooglTrades(), SignedQty) == 20.0
  {
    var l := MockOrders();
    SignedTrade(l[1]);
    SignedTrade(l[3]);
    SignedTrade(l[4]);
    SignedTrade(l[5]);
    SignedTrade(l[6]);
    SignedTrade(l[8]);
    GooglSumOf(OrderAmount);
    GooglSumOf(SignedQty);
  }

  // ------------------------------------------------------------ from_orders

  /** A row as `from_orders` makes it for this ledger: every trade is of a
      company of the United States, priced in dollars. */
  function Opened(t: string, amount: real, qty: real): Holding {
    Holding(t, amount, qty, "Usa", "USD", "", 0.0, 0.0, 0.0, 0.0, 0.0, 0.0, 0.0, 0.0, 0.0)
  }

  /** Every trade is of APPL or GOOGL, and both are traded. */
  lemma TradeTickers(o: Order)
    requires o in MockTrades()
    ensures o.ticker == "APPL" || o.ticker == "GOOGL"
  {
    var l := MockOrders();
    assert o == l[1] || o == l[3] || o == l[4] || o == l[5] || o == l[6] || o == l[7] || o == l[8] || o == l[9] || o == l[10];
  }

  lemma TradedBoth()
    ensures MockTrades()[0].ticker == "GOOGL" && MockTrades()[5].ticker == "APPL"
  {
  }

  lemma SortedPair()
    ensures StrictlySorted(["APPL", "GOOGL"])
  {
    assert Less("APPL", "GOOGL");
  }

  /** The tickers traded: APPL before GOOGL. */
  lemma MockTickers()
    ensures TradedTickers(MockOrders()) == ["APPL", "GOOGL"]
  {
    var r := TradedTickers(MockOrders());
    MockTradesKept();
    var trades := MockTrades();
    TradedBoth();
    SortedPair();
    forall y ensures y in r <==> y in ["APPL", "GOOGL"] {
      if y in r {
        var o :| o in trades && o.ticker == y;
        TradeTickers(o);
      }
      if y == "APPL" {
        assert trades[5] in trades;
      }
      if y == "GOOGL" {
        assert trades[0] in trades;
      }
    }
    SortedUnique(r, ["APPL", "GOOGL"]);
  }

  lemma ApplAggregate()
    ensures Aggregate(MockTrades(), "APPL") == Opened("APPL", 2020.236, 13.2)
  {
    ApplGroup();
    ApplSums();
    var l := MockOrders();
    assert l[7].country == "Usa" && l[10].currency == "USD";
  }

  lemma GooglAggregate()
    ensures Aggregate(MockTrades(), "GOOGL") == Opened("GOOGL", 1541.4, 20.0)
  {
    GooglGroup();
    GooglSums();
    var l := MockOrders();
    assert l[1].country == "Usa" && l[8].currency == "USD";
  }

  /** `from_orders` on a ledger with two traded tickers, both held. */
  lemma OpenPair(orders: seq<Order>, x: string, y: string, hx: Holding, hy: Holding)
    requires TradedTickers(orders) == [x, y]
    requires Aggregate(Trades(orders), x) == hx && Aggregate(Trades(orders), y) == hy
    requires hx.accruedQty > 0.0 && hy.accruedQty > 0.0
    ensures OpenPositions(orders) == [hx, hy]
  {
    var trades := Trades(orders);
    OpenTickers(orders);
    HeldPair(trades, x, y, hx, hy);
    AggregatePair(trades, x, y, hx, hy);
  }

  lemma HeldPair(trades: seq<Order>, x: string, y: string, hx: Holding, hy: Holding)
    requires Aggregate(trades, x) == hx && Aggregate(trades, y) == hy
    requires hx.accruedQty > 0.0 && hy.accruedQty > 0.0
    ensures Keep([x, y], HeldTicker(trades)) == [x, y]
  {
    var q := HeldTicker(trades);
    assert q(x) && q(y);
    KeepAll([x, y], q);
  }

  lemma AggregatePair(trades: seq<Order>, x: string, y: string, hx: Holding, hy: Holding)
    requires Aggregate(trades, x) == hx && Aggregate(trades, y) == hy
    ensures MapSeq([x, y], AggregateOf(trades)) == [hx, hy]
  {
    var f := AggregateOf(trades);
    assert f(x) == hx && f(y) == hy;
  }

  /** `from_orders` on the test ledger: APPL with Amount 2020.236 and
      AccruedQty 13.2, GOOGL with Amount 1541.4 and AccruedQty 20. Amount
      sums every trade as it stands, sales included. */
  lemma MockOpenPositions()
    ensures OpenPositions(MockOrders()) == [Opened("APPL", 2020.236, 13.2), Opened("GOOGL", 1541.4, 20.0)]
  {
    MockTradesKept();
    MockTickers();
    ApplAggregate();
    GooglAggregate();
    OpenPair(MockOrders(), "APPL", "GOOGL", Opened("APPL", 2020.236, 13.2), Opened("GOOGL", 1541.4, 20.0));
  }

  // ------------------------------------------------------------ with_quotes

  /** The mock's answer for GOOGL and APPL: 33.87 and 103.95 dollars. */
  function MockQuotes(): seq<Record> {
    [Record(MockQuoteDate, "GOOGL", 33.87, "USD"), Record(MockQuoteDate, "APPL", 103.95, "USD")]
  }

  /** Loading GOOGL and APPL, with the default country, from the mock. */
  lemma MockLoad(period: SearchPeriod)
    ensures MockRespond(["GOOGL", "APPL"], DefaultCountries(["GOOGL", "APPL"], None), period) ==
      Ok(Tables(MockQuotes(), [], []))
  {
    var ts := ["GOOGL", "APPL"];
    var cs := DefaultCountries(ts, None);
    assert cs == [Usa, Usa];
    var r := MockRespond(ts, cs, period);
    assert r.Ok?;
    assert CurrencyName(CurrencyOfCountry(Usa)) == "USD";
    assert r.value.quotes == MockQuotes();
  }

  /** The open positions priced from the mock's quotes, in dollars. */
  function PricedAt(h: Holding, price: real): Holding {
    h.(marketPriceCurrency := "USD", marketPrice := price)
  }

  /** A row whose ticker has one quote up to the present is priced at it. */
  lemma PricedFromOnly(quotes: seq<Record>, present: Date, h: Holding, y: Holding, q: Record)
    requires PricedFrom(quotes, present, h, y)
    requires q in quotes && q.date <= present && q.ticker == h.ticker
    requires forall x :: x in quotes && x.date <= present && x.ticker == h.ticker ==> x == q
    ensures y == h.(marketPriceCurrency := q.currency, marketPrice := q.value)
  {
  }

  /** `with_quotes` prices APPL at 103.95 and GOOGL at 33.87, whenever the
      present day is not before the day of the mock's quotes. */
  lemma MockQuoted(present: Date)
    requires MockQuoteDate <= present
    ensures Quoted([Opened("APPL", 2020.236, 13.2), Opened("GOOGL", 1541.4, 20.0)], MockQuotes(), present) ==
      [PricedAt(Opened("APPL", 2020.236, 13.2), 103.95), PricedAt(Opened("GOOGL", 1541.4, 20.0), 33.87)]
  {
    var quotes := MockQuotes();
    assert OneCurrencyEach(quotes, present);
    assert forall x :: x in quotes && x.ticker == "APPL" ==> x == quotes[1];
    assert forall x :: x in quotes && x.ticker == "GOOGL" ==> x == quotes[0];
    QuotedPair(Opened("APPL", 2020.236, 13.2), Opened("GOOGL", 1541.4, 20.0), quotes, present, quotes[1], quotes[0]);
  }

  /** `with_quotes` on two rows whose tickers have one quote each. */
  lemma QuotedPair(a: Holding, g: Holding, quotes: seq<Record>, present: Date, qa: Record, qg: Record)
    requires OneCurrencyEach(quotes, present)
    requires qa in quotes && qa.date <= present && qa.ticker == a.ticker
    requires qg in quotes && qg.date <= present && qg.ticker == g.ticker
    requires forall x :: x in quotes && x.ticker == a.ticker ==> x == qa
    requires forall x :: x in quotes && x.ticker == g.ticker ==> x == qg
    ensures Quoted([a, g], quotes, present) ==
      [a.(marketPriceCurrency := qa.currency, marketPrice := qa.value),
       g.(marketPriceCurrency := qg.currency, marketPrice := qg.value)]
  {
    var rows := [a, g];
    QuotedOneToOne(rows, quotes, present);
    var r := Quoted(rows, quotes, present);
    PricedFromOnly(quotes, present, rows[0], r[0], qa);
    PricedFromOnly(quotes, present, rows[1], r[1], qg);
  }

  // ------------------------------------------------------------ with_average_price

  /** A row valued at its average cost. */
  function ValuedAt(h: Holding, amount: real, qty: real, average: real): Holding {
    h.(amount := amount, accruedQty := qty, averagePrice := average)
  }

  /** `with_average_price` after `with_quotes`: APPL 13.2 shares at an
      average of 98.03, Amount 1293.996; GOOGL 10 shares (after the split)
      at 69.10, Amount 691. */
  lemma MockAveraged(a: Holding, g: Holding)
    requires a.ticker == "APPL" && g.ticker == "GOOGL"
    ensures Averaged([a, g], MockOrders()) ==
      [ValuedAt(a, 1293.996, 13.2, 98.03), ValuedAt(g, 691.0, 10.0, 69.1)]
  {
    MockCosts();
    AveragedPair(a, g, MockOrders(), Position(98.03, 13.2), Position(69.1, 10.0));
  }

  /** `with_average_price` on two rows whose tickers are both still held. */
  lemma AveragedPair(a: Holding, g: Holding, orders: seq<Order>, pa: Position, pg: Position)
    requires CostOf(orders, a.ticker) == pa && CostOf(orders, g.ticker) == pg
    requires pa.qty > 0.0 && pg.qty > 0.0
    ensures Averaged([a, g], orders) ==
      [ValuedAt(a, pa.qty * pa.average, pa.qty, pa.average), ValuedAt(g, pg.qty * pg.average, pg.qty, pg.average)]
  {
    AveragedIsCosted([a, g], orders);
    CostHeldPair(a, g, orders, pa, pg);
    CostedPair(a, g, orders, pa, pg);
  }

  lemma CostHeldPair(a: Holding, g: Holding, orders: seq<Order>, pa: Position, pg: Position)
    requires CostOf(orders, a.ticker) == pa && CostOf(orders, g.ticker) == pg
    requires pa.qty > 0.0 && pg.qty > 0.0
    ensures Keep([a, g], CostHeld(orders)) == [a, g]
  {
    KeepAll([a, g], CostHeld(orders));
  }

  lemma CostedPair(a: Holding, g: Holding, orders: seq<Order>, pa: Position, pg: Position)
    requires CostOf(orders, a.ticker) == pa && CostOf(orders, g.ticker) == pg
    ensures MapSeq([a, g], CostedOf(orders)) ==
      [ValuedAt(a, pa.qty * pa.average, pa.qty, pa.average), ValuedAt(g, pg.qty * pg.average, pg.qty, pg.average)]
  {
    CostedIs(orders, a, pa);
    CostedIs(orders, g, pg);
  }

  lemma CostedIs(orders: seq<Order>, h: Holding, p: Position)
    requires CostOf(orders, h.ticker) == p
    ensures Costed(orders, h) == ValuedAt(h, p.qty * p.average, p.qty, p.average)
  {
    var y := h.(averagePrice := p.average, accruedQty := p.qty);
    assert Costed(orders, h) == AtCost(y);
    assert y.accruedQty * y.averagePrice == p.qty * p.average;
  }

  /** The average-cost state of each ticker at the end of the ledger. */
  lemma MockCosts()
    ensures CostOf(MockOrders(), "APPL") == Position(98.03, 13.2)
    ensures CostOf(MockOrders(), "GOOGL") == Position(69.1, 10.0)
  {
    MockAppl();
    MockGoogl();
  }

  // ------------------------------------------------------------ dividends and profit

  /** The dividends of the profit test, per ticker. */
  const MockDividends: seq<(string, real)> := [("GOOGL", 1.45), ("APPL", 9.84)]

  lemma MockDividendSums()
    ensures SumWhere(MockDividends, DividendTicker, "APPL", Second) == 9.84
    ensures SumWhere(MockDividends, DividendTicker, "GOOGL", Second) == 1.45
  {
    var d := MockDividends;
    assert d == [d[0]] + [d[1]] && [d[0]] == [] + [d[0]];
    forall t ensures SumWhere(d, DividendTicker, t, Second) ==
      (if t == "GOOGL" then 1.45 else 0.0) + (if t == "APPL" then 9.84 else 0.0)
    {
      SumWhereAddLast([], d[0], DividendTicker, t, Second);
      SumWhereAddLast([d[0]], d[1], DividendTicker, t, Second);
      assert Group([], DividendTicker, t) == [];
    }
  }

  /** `with_dividends`: APPL gains 9.84 and GOOGL 1.45. */
  lemma MockDividended(a: Holding, g: Holding)
    requires a.ticker == "APPL" && g.ticker == "GOOGL"
    ensures Dividended([a, g], MockDividends) == [a.(dividends := 9.84), g.(dividends := 1.45)]
  {
    DividendsJoined([a, g], MockDividends);
    MockDividendSums();
  }

  /** `x` shown to four decimal places is `shown`. */
  predicate Shows(x: real, shown: real) {
    shown - 0.00005 <= x < shown + 0.00005
  }

  /** `paper_profit` on the rows valued at cost: market values 1372.14 and
      338.7, paper profits 78.144 and -352.3, paper profit rates 6.039 and
      -50.9841 to four places. */
  lemma MockAppraised(a: Holding, g: Holding)
    requires a.marketPrice == 103.95 && a.averagePrice == 98.03 && a.accruedQty == 13.2
    requires g.marketPrice == 33.87 && g.averagePrice == 69.1 && g.accruedQty == 10.0
    ensures Appraised(a).marketValue == 1372.14 && Appraised(a).paperProfit == 78.144
    ensures Appraised(g).marketValue == 338.7 && Appraised(g).paperProfit == -352.3
    ensures Shows(Appraised(a).paperProfitRate, 6.039) && Shows(Appraised(g).paperProfitRate, -50.9841)
  {
    ApplAppraised(a);
    GooglAppraised(g);
  }

  lemma ApplAppraised(a: Holding)
    requires a.marketPrice == 103.95 && a.averagePrice == 98.03 && a.accruedQty == 13.2
    ensures Appraised(a).marketValue == 1372.14 && Appraised(a).paperProfit == 78.144
    ensures Shows(Appraised(a).paperProfitRate, 6.039)
  {
    assert 103.95 / 98.03 == 10395.0 / 9803.0;
  }

  lemma GooglAppraised(g: Holding)
    requires g.marketPrice == 33.87 && g.averagePrice == 69.1 && g.accruedQty == 10.0
    ensures Appraised(g).marketValue == 338.7 && Appraised(g).paperProfit == -352.3
    ensures Shows(Appraised(g).paperProfitRate, -50.9841)
  {
    assert 33.87 / 69.1 == 3387.0 / 6910.0;
  }

  /** `with_profit` after `paper_profit` with the dividends: profits 87.984
      and -350.85, profit rates 6.7994 and -50.7742 to four places. */
  lemma MockProfited(a: Holding, g: Holding)
    requires a.paperProfit == 78.144 && a.dividends == 9.84 && a.amount == 1293.996
    requires g.paperProfit == -352.3 && g.dividends == 1.45 && g.amount == 691.0
    ensures Profited(a).profit == 87.984 && Profited(g).profit == -350.85
    ensures Shows(Profited(a).profitRate, 6.7994) && Shows(Profited(g).profitRate, -50.7742)
  {
    ApplProfited(a);
    GooglProfited(g);
  }

  lemma ApplProfited(a: Holding)
    requires a.paperProfit == 78.144 && a.dividends == 9.84 && a.amount == 1293.996
    ensures Profited(a).profit == 87.984 && Shows(Profited(a).profitRate, 6.7994)
  {
    assert 87.984 / 1293.996 == 87984.0 / 1293996.0;
  }

  lemma GooglProfited(g: Holding)
    requires g.paperProfit == -352.3 && g.dividends == 1.45 && g.amount == 691.0
    ensures Profited(g).profit == -350.85 && Shows(Profited(g).profitRate, -50.7742)
  {
    assert -350.85 / 691.0 == -35085.0 / 69100.0;
  }

  // ------------------------------------------------------------ the chain of the profit test

  /** The rows after `with_average_price`. */
  function AveragedRows(): seq<Holding> {
    [ValuedAt(PricedAt(Opened("APPL", 2020.236, 13.2), 103.95), 1293.996, 13.2, 98.03),
     ValuedAt(PricedAt(Opened("GOOGL", 1541.4, 20.0), 33.87), 691.0, 10.0, 69.1)]
  }

  /** APPL's collected row in the profit test. */
  lemma ApplProfitRow(h: Holding)
    requires h == AveragedRows()[0].(dividends := 9.84)
    ensures var y := Profited(Appraised(h));
      && Reported(y) == Report("APPL", 1293.996, 13.2, "USD", "USD", 103.95, 98.03, 9.84, 1372.14, 78.144,
                               y.paperProfitRate, 87.984, y.profitRate, 0.0)
      && Shows(y.paperProfitRate, 6.039) && Shows(y.profitRate, 6.7994)
  {
    ApplAppraised(h);
    ApplProfited(Appraised(h));
  }

  /** GOOGL's collected row in the profit test. */
  lemma GooglProfitRow(h: Holding)
    requires h == AveragedRows()[1].(dividends := 1.45)
    ensures var y := Profited(Appraised(h));
      && Reported(y) == Report("GOOGL", 691.0, 10.0, "USD", "USD", 33.87, 69.1, 1.45, 338.7, -352.3,
                               y.paperProfitRate, -350.85, y.profitRate, 0.0)
      && Shows(y.paperProfitRate, -50.9841) && Shows(y.profitRate, -50.7742)
  {
    GooglAppraised(h);
    GooglProfited(Appraised(h));
  }

  /** The collected table of the profit test: `with_dividends`,
      `paper_profit` and `with_profit` after `with_average_price`. */
  lemma MockProfitReports()
    ensures var r := MapSeq(MapSeq(MapSeq(Dividended(AveragedRows(), MockDividends), Appraised), Profited), Reported);
      && |r| == 2
      && r[0] == Report("APPL", 1293.996, 13.2, "USD", "USD", 103.95, 98.03, 9.84, 1372.14, 78.144,
                        r[0].paperProfitRate, 87.984, r[0].profitRate, 0.0)
      && Shows(r[0].paperProfitRate, 6.039) && Shows(r[0].profitRate, 6.7994)
      && r[1] == Report("GOOGL", 691.0, 10.0, "USD", "USD", 33.87, 69.1, 1.45, 338.7, -352.3,
                        r[1].paperProfitRate, -350.85, r[1].profitRate, 0.0)
      && Shows(r[1].paperProfitRate, -50.9841) && Shows(r[1].profitRate, -50.7742)
  {
    var rows := AveragedRows();
    var da, dg := rows[0].(dividends := 9.84), rows[1].(dividends := 1.45);
    MockDividended(rows[0], rows[1]);
    assert rows == [rows[0], rows[1]];
    var d := Dividended(rows, MockDividends);
    assert d == [da, dg];
    var m := MapSeq(d, Appraised);
    assert m == [Appraised(da), Appraised(dg)];
    var q := MapSeq(m, Profited);
    assert q == [Profited(Appraised(da)), Profited(Appraised(dg))];
    ApplProfitRow(da);
    GooglProfitRow(dg);
  }

  // ------------------------------------------------------------ the chain of the currency test

  /** Within half a cent of the two-place figure a test shows. */
  predicate ShowsCents(x: real, shown: real) {
    shown - 0.005 <= x < shown + 0.005
  }

  /** A row of the regrouped frame: the summed Amount and AccruedQty, the
      first MarketPrice and the mean AveragePrice; the rest left empty. */
  function Grouped(h: Holding): Holding {
    Holding(h.ticker, h.amount, h.accruedQty, "", h.currency, "", h.marketPrice, h.averagePrice,
            0.0, 0.0, 0.0, 0.0, 0.0, 0.0, 0.0)
  }

  /** The group of one of two rows with different keys is that row alone. */
  lemma GroupOfTwo(x: Holding, y: Holding)
    requires HoldingPair(x) != HoldingPair(y)
    ensures Group([x, y], HoldingPair, HoldingPair(x)) == [x]
    ensures Group([x, y], HoldingPair, HoldingPair(y)) == [y]
  {
    assert [] + [x] == [x] && [x] + [y] == [x, y];
    GroupAddLast([], x, HoldingPair, HoldingPair(x));
    GroupAddLast([], x, HoldingPair, HoldingPair(y));
    GroupAddLast([x], y, HoldingPair, HoldingPair(x));
    GroupAddLast([x], y, HoldingPair, HoldingPair(y));
  }

  /** A group of one row with shares held regroups to that row's columns:
      its mean AveragePrice is its own. */
  lemma RegroupOne(rows: seq<Holding>, x: Holding)
    requires Group(rows, HoldingPair, HoldingPair(x)) == [x] && x.accruedQty != 0.0
    ensures RegroupRow(rows, HoldingPair(x)) == Grouped(x)
  {
    assert [x][..0] == [];
    assert SumOf([x], HoldingAmount) == x.amount;
    assert SumOf([x], HoldingQty) == x.accruedQty;
    assert SumOf([x], Basis) == x.averagePrice * x.accruedQty;
  }

  /** Two rows with different (Ticker, Currency) keys and shares held
      regroup to themselves, each with the columns the regroup keeps. */
  lemma RegroupTwo(x: Holding, y: Holding)
    requires HoldingPair(x) != HoldingPair(y) && x.accruedQty != 0.0 && y.accruedQty != 0.0
    ensures Regroup([x, y]) == [Grouped(x), Grouped(y)]
  {
    var rows := [x, y];
    assert MapSeq(rows, HoldingPair) == [HoldingPair(x), HoldingPair(y)];
    NormalizeExamples.UniqueTwo(HoldingPair(x), HoldingPair(y));
    GroupOfTwo(x, y);
    RegroupOne(rows, x);
    RegroupOne(rows, y);
  }

  /** A row of the normalised table: in pounds, its market price in no
      currency (the regroup drops that column), the rest empty. */
  function InPounds(t: string, amount: real, qty: real, price: real, average: real): Holding {
    Holding(t, amount, qty, "", "GBP", "", price, average, 0.0, 0.0, 0.0, 0.0, 0.0, 0.0, 0.0)
  }

  /** `normalize_currency(GBP)` on the rows valued at cost, against the mock
      with nothing registered: no failure; Amount, MarketPrice and
      AveragePrice at 0.87 to the dollar and AccruedQty kept, which the test
      shows as 1125.78, 90.44, 85.29 for APPL and 601.17, 29.47, 60.12 for
      GOOGL. */
  lemma MockNormalized(s: ProviderState, present: Date)
    requires s.tickers == [] && s.countries == []
    ensures var o := NormalizeOutcome(AveragedRows(), None, GBP, s, MockRespond, present);
      && o.failure.None? && o.cash.None?
      && o.working == [InPounds("APPL", 1125.77652, 13.2, 90.4365, 85.2861),
                       InPounds("GOOGL", 601.17, 10.0, 29.4669, 60.117)]
      && ShowsCents(o.working[0].amount, 1125.78) && ShowsCents(o.working[0].marketPrice, 90.44)
      && ShowsCents(o.working[0].averagePrice, 85.29)
      && ShowsCents(o.working[1].amount, 601.17) && ShowsCents(o.working[1].marketPrice, 29.47)
      && ShowsCents(o.working[1].averagePrice, 60.12)
  {
    var rows := AveragedRows();
    var period := QuoteWindow(Some(present), present);
    NormalizeExamples.UsdPass(rows, MoneyColumns(), s, period);
    var m := [Rescaled(rows[0], MoneyColumns(), 0.87, GBP), Rescaled(rows[1], MoneyColumns(), 0.87, GBP)];
    var s1 := ProviderState([], [], s.requests + [period]);
    NormalizeExamples.UsdPass(m, PriceColumns(), s1, period);
    var q := [Rescaled(m[0], PriceColumns(), 0.87, GBP), Rescaled(m[1], PriceColumns(), 0.87, GBP)];
    RegroupTwo(q[0], q[1]);
    assert Grouped(q[0]) == InPounds("APPL", 1125.77652, 13.2, 90.4365, 85.2861);
    assert Grouped(q[1]) == InPounds("GOOGL", 601.17, 10.0, 29.4669, 60.117);
  }
}

/** The portfolio tests of the program, run on the model: the builder over
    the test ledger, a fresh mock provider loaded with GOOGL and APPL, and
    the steps in the order each test chains them. */
module PortfolioTests {
  import opened Wrappers
  import opened CurrencyNormalize
  import opened Schema
  import opened Calendar
  import opened Series
  import opened Fixture
  import opened Scraper
  import opened Mock
  import opened Portfolio
  import opened PortfolioMock

  /** A fresh mock provider with GOOGL and APPL registered (no countries
      given, so both default to the United States) loads their quotes. */
  method LoadMockQuotes(period: SearchPeriod) returns (scraper: Provider, quotes: seq<Record>)
    ensures quotes == MockQuotes()
    ensures fresh(scraper) && scraper.respond == MockRespond
    ensures scraper.tickers == [] && scraper.countries == [] && scraper.requests == [period]
  {
    scraper := NewMock();
    scraper.WithTicker(["GOOGL", "APPL"], None);
    assert scraper.tickers == ["GOOGL", "APPL"];
    assert scraper.countries == DefaultCountries(["GOOGL", "APPL"], None);
    MockLoad(period);
    var data := scraper.Load(period);
    assert data.Ok?;
    quotes := data.value.quotes;
    assert data.value.Frames() == Tables(MockQuotes(), [], []);
  }

  /** `from_orders` then `with_quotes`, with the quotes the mock loads. */
  method QuotedPortfolio(today: Date, period: SearchPeriod) returns (p: Portfolio, scraper: Provider)
    requires MockQuoteDate <= today
    ensures fresh(p) && fresh(scraper) && scraper.respond == MockRespond
    ensures scraper.tickers == [] && scraper.countries == [] && scraper.requests == [period]
    ensures p.rawInput == MockOrders() && p.presentDate == today && p.uninvestedCash.None?
    ensures p.working == [PricedAt(Opened("APPL", 2020.236, 13.2), 103.95), PricedAt(Opened("GOOGL", 1541.4, 20.0), 33.87)]
  {
    p := new Portfolio.FromOrders(MockOrders(), None, today);
    var quotes;
    scraper, quotes := LoadMockQuotes(period);
    MockOpenPositions();
    MockQuoted(today);
    p.WithQuotes(quotes);
  }

  /** Then `with_average_price`: the rows valued at cost. */
  method AveragedPortfolio(today: Date, period: SearchPeriod) returns (p: Portfolio, scraper: Provider)
    requires MockQuoteDate <= today
    ensures fresh(p) && fresh(scraper) && scraper.respond == MockRespond
    ensures scraper.tickers == [] && scraper.countries == [] && scraper.requests == [period]
    ensures p.rawInput == MockOrders() && p.presentDate == today && p.uninvestedCash.None?
    ensures p.working == AveragedRows()
  {
    p, scraper := QuotedPortfolio(today, period);
    MockAveraged(p.working[0], p.working[1]);
    p.WithAveragePrice();
  }

  /** `portfolio_with_average_price_success`: APPL 13.2 shares at 98.03 for
      1293.996 and GOOGL 10 at 69.10 for 691, priced at 103.95 and 33.87. */
  method AveragePriceTest(today: Date, period: SearchPeriod) returns (r: seq<Report>)
    requires MockQuoteDate <= today
    ensures |r| == 2
    ensures r[0] == Report("APPL", 1293.996, 13.2, "USD", "USD", 103.95, 98.03, 0.0, 0.0, 0.0, 0.0, 0.0, 0.0, 0.0)
    ensures r[1] == Report("GOOGL", 691.0, 10.0, "USD", "USD", 33.87, 69.1, 0.0, 0.0, 0.0, 0.0, 0.0, 0.0, 0.0)
  {
    var p, _ := AveragedPortfolio(today, period);
    r := p.Collect();
  }

  /** `portfolio_with_normalized_currency`: the rows valued at cost, in
      pounds through the same mock that loaded the quotes, shown to two
      places as APPL 1125.78, 13.2 shares, priced 90.44 at 85.29 on average,
      and GOOGL 601.17, 10 shares, priced 29.47 at 60.12. */
  method NormalizedCurrencyTest(today: Date, period: SearchPeriod) returns (r: seq<Report>)
    requires MockQuoteDate <= today
    ensures |r| == 2
    ensures r[0] == Report("APPL", 1125.77652, 13.2, "GBP", "", 90.4365, 85.2861, 0.0, 0.0, 0.0, 0.0, 0.0, 0.0, 0.0)
    ensures r[1] == Report("GOOGL", 601.17, 10.0, "GBP", "", 29.4669, 60.117, 0.0, 0.0, 0.0, 0.0, 0.0, 0.0, 0.0)
    ensures ShowsCents(r[0].amount, 1125.78) && ShowsCents(r[0].marketPrice, 90.44) && ShowsCents(r[0].averagePrice, 85.29)
    ensures ShowsCents(r[1].amount, 601.17) && ShowsCents(r[1].marketPrice, 29.47) && ShowsCents(r[1].averagePrice, 60.12)
  {
    var p, scraper := AveragedPortfolio(today, period);
    MockNormalized(ProviderState(scraper.tickers, scraper.countries, scraper.requests), today);
    var failure := p.NormalizeCurrency(scraper, GBP);
    assert failure.None? && p.uninvestedCash.None?;
    r := p.Collect();
  }

  /** `portfolio_with_dividends_success`: the rows valued at cost gain the
      dividends 9.84 (APPL) and 1.45 (GOOGL). */
  method DividendsTest(today: Date, period: SearchPeriod) returns (r: seq<Report>)
    requires MockQuoteDate <= today
    ensures |r| == 2
    ensures r[0] == Report("APPL", 1293.996, 13.2, "USD", "USD", 103.95, 98.03, 9.84, 0.0, 0.0, 0.0, 0.0, 0.0, 0.0)
    ensures r[1] == Report("GOOGL", 691.0, 10.0, "USD", "USD", 33.87, 69.1, 1.45, 0.0, 0.0, 0.0, 0.0, 0.0, 0.0)
  {
    var p, _ := AveragedPortfolio(today, period);
    MockDividended(p.working[0], p.working[1]);
    p.WithDividends(MockDividends);
    assert p.working == [AveragedRows()[0].(dividends := 9.84), AveragedRows()[1].(dividends := 1.45)];
    r := p.Collect();
  }

  /** `portfolio_with_capital_gain_success`: market values 1372.14 and
      338.7, paper profits 78.144 and -352.3, and the rates as the test
      shows them to four places. */
  method CapitalGainTest(today: Date, period: SearchPeriod) returns (r: seq<Report>)
    requires MockQuoteDate <= today
    ensures |r| == 2
    ensures r[0] == Report("APPL", 1293.996, 13.2, "USD", "USD", 103.95, 98.03, 0.0, 1372.14, 78.144,
                           r[0].paperProfitRate, 0.0, 0.0, 0.0)
    ensures Shows(r[0].paperProfitRate, 6.039)
    ensures r[1] == Report("GOOGL", 691.0, 10.0, "USD", "USD", 33.87, 69.1, 0.0, 338.7, -352.3,
                           r[1].paperProfitRate, 0.0, 0.0, 0.0)
    ensures Shows(r[1].paperProfitRate, -50.9841)
  {
    var p, _ := AveragedPortfolio(today, period);
    MockAppraised(p.working[0], p.working[1]);
    p.PaperProfit();
    r := p.Collect();
  }

  /** `portfolio_with_profit_success`: with the dividends 9.84 (APPL) and
      1.45 (GOOGL), the paper profits 78.144 and -352.3 and the profits
      87.984 and -350.85; the rates as the test shows them to four places. */
  method ProfitTest(today: Date, period: SearchPeriod) returns (r: seq<Report>)
    requires MockQuoteDate <= today
    ensures |r| == 2
    ensures r[0] == Report("APPL", 1293.996, 13.2, "USD", "USD", 103.95, 98.03, 9.84, 1372.14, 78.144,
                           r[0].paperProfitRate, 87.984, r[0].profitRate, 0.0)
    ensures Shows(r[0].paperProfitRate, 6.039) && Shows(r[0].profitRate, 6.7994)
    ensures r[1] == Report("GOOGL", 691.0, 10.0, "USD", "USD", 33.87, 69.1, 1.45, 338.7, -352.3,
                           r[1].paperProfitRate, -350.85, r[1].profitRate, 0.0)
    ensures Shows(r[1].paperProfitRate, -50.9841) && Shows(r[1].profitRate, -50.7742)
  {
    var p, _ := AveragedPortfolio(today, period);
    p.WithDividends(MockDividends);
    p.PaperProfit();
    p.WithProfit();
    assert p.working == MapSeq(MapSeq(Dividended(AveragedRows(), MockDividends), Appraised), Profited);
    assert p.uninvestedCash.None?;
    r := p.Collect();
    MockProfitReports();
  }
}
