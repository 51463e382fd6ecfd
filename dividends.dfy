/** Dividend income (`Dividends`): the ledger's Dividend, Tax and Interest
    rows, with taxes counted negative, summed per ticker, per day and
    ticker, and per year and month. */
module Dividends {
  import opened Wrappers
  import opened Calendar
  import opened Text
  import opened Series
  import opened Schema
  import opened Orders
  import opened Compute
  import opened Scraper
  import opened CurrencyNormalize
  import opened Transform

  function OrderTicker(o: Order): string { o.ticker }
  function OrderAction(o: Order): string { o.action }

  /** The filter of `try_from_orders`: the action is exactly Dividend, Tax
      or Interest. */
  predicate IsIncome(o: Order) {
    || o.action == ActionName(Action.Dividend)
    || o.action == ActionName(Action.Tax)
    || o.action == ActionName(Action.Interest)
  }

  /** `negative_amount_on_tax` applied to one row. */
  function TaxNegated(o: Order): Order {
    o.(amount := NegativeAmountOnTax(o.action, o.amount))
  }

  /** On the rows the filter keeps, only taxes change sign, and nothing but
      the amount changes. */
  lemma TaxNegatedExactly(o: Order)
    requires IsIncome(o)
    ensures TaxNegated(o).amount == if o.action == ActionName(Action.Tax) then -o.amount else o.amount
    ensures TaxNegated(o) == o.(amount := TaxNegated(o).amount)
  {
    OnlyOwnName(Action.Dividend, Action.Tax);
    OnlyOwnName(Action.Tax, Action.Tax);
    OnlyOwnName(Action.Interest, Action.Tax);
  }

  /** The filtered rows in ledger order, taxes negated. */
  function Income(orders: seq<Order>): (r: seq<Order>)
    ensures forall x :: x in r <==> exists o :: o in orders && IsIncome(o) && TaxNegated(o) == x
    ensures forall x :: x in r ==> IsIncome(x)
  {
    var kept := Keep(orders, IsIncome);
    var r := MapSeq(kept, TaxNegated);
    forall x | x in r ensures exists o :: o in orders && IsIncome(o) && TaxNegated(o) == x {
      var i :| 0 <= i < |r| && r[i] == x;
      assert kept[i] in kept;
    }
    forall o | o in orders && IsIncome(o) ensures TaxNegated(o) in r {
      var i :| 0 <= i < |kept| && kept[i] == o;
      assert r[i] == TaxNegated(o);
    }
    r
  }

  /** Rows are taken in ledger order: a further income row comes last, any
      other row is skipped. */
  lemma IncomeAddLast(orders: seq<Order>, o: Order)
    ensures Income(orders + [o]) == if IsIncome(o) then Income(orders) + [TaxNegated(o)] else Income(orders)
  {
    KeepAddLast(orders, o, IsIncome);
    var kept := Keep(orders, IsIncome);
    if IsIncome(o) {
      assert MapSeq(kept + [o], TaxNegated) == MapSeq(kept, TaxNegated) + [TaxNegated(o)];
    }
  }

  /** `try_from_orders`: the income rows, or an error when there are none. */
  function TryFromOrders(orders: seq<Order>): (r: Result<seq<Order>>)
    ensures r.Fail? <==> forall o :: o in orders ==> !IsIncome(o)
    ensures r.Fail? ==> r.failure == Error("Orders must contain Dividends or Interests!")
    ensures r.Ok? ==> r.value == Income(orders) && |r.value| > 0
  {
    var rows := Income(orders);
    if |rows| == 0 then
      forall o | o in orders ensures !IsIncome(o) {
        assert TaxNegated(o) !in rows;
      }
      Fail(Error("Orders must contain Dividends or Interests!"))
    else
      assert rows[0] in rows;
      Ok(rows)
  }

  // ------------------------------------------------------------ by ticker

  /** `by_ticker`: one entry per ticker, in order of first appearance, with
      the sum of its amounts (the Dividends column). */
  function ByTicker(rows: seq<Order>): (r: seq<(string, real)>)
    ensures forall i, j :: 0 <= i < j < |r| ==> r[i].0 != r[j].0
    ensures forall i :: 0 <= i < |r| ==> r[i].1 == SumWhere(rows, OrderTicker, r[i].0, OrderAmount)
  {
    SumBy(rows, OrderTicker, OrderAmount)
  }

  /** A ticker has an entry exactly when it has a row. */
  lemma ByTickerCovers(rows: seq<Order>, t: string)
    ensures (exists i :: 0 <= i < |ByTicker(rows)| && ByTicker(rows)[i].0 == t) <==>
      (exists o :: o in rows && OrderTicker(o) == t)
  {
    SumByKey(rows, OrderTicker, OrderAmount, t);
    assert ByTicker(rows) == SumBy(rows, OrderTicker, OrderAmount);
  }

  /** The entries add up to the whole income. */
  lemma ByTickerTotal(rows: seq<Order>)
    ensures SumOf(ByTicker(rows), Second) == SumOf(rows, OrderAmount)
  {
    SumByTotal(rows, OrderTicker, OrderAmount);
  }

  // ------------------------------------------------------------ collect

  /** The least of some strings in `String` order. */
  function MinText(s: seq<string>): (m: string)
    requires |s| > 0
    ensures m in s
    ensures forall x :: x in s ==> !Less(x, m)
    decreases |s|
  {
    if |s| == 1 then
      LessIrreflexive(s[0]);
      s[0]
    else
      var init := s[..|s| - 1];
      var last := s[|s| - 1];
      var m := MinText(init);
      assert forall x :: x in s <==> x in init || x == last by {
        assert s == init + [last];
      }
      if Less(last, m) then
        forall x | x in init ensures !Less(x, last) {
          NotBelowSmaller(x, last, m);
        }
        LessIrreflexive(last);
        last
      else
        m
  }

  /** What is not below `m` is not below anything below `m`. */
  lemma NotBelowSmaller(x: string, y: string, m: string)
    requires Less(y, m) && !Less(x, m)
    ensures !Less(x, y)
  {
    if x == m {
      LessAsymmetric(y, x);
    } else {
      LessTotal(x, m);
      LessTransitive(y, m, x);
      LessAsymmetric(y, x);
    }
  }

  /** One row of `collect`: the day, the ticker, the summed amount and the
      least action of the group. */
  datatype DividendRow = DividendRow(date: Date, ticker: string, amount: real, action: string)

  function DateTicker(o: Order): (Date, string) { (o.date, o.ticker) }

  /** The row of one group: its summed amount and its least action. */
  function GroupRow(rows: seq<Order>, k: (Date, string)): (r: DividendRow)
    ensures (r.date, r.ticker) == k
    ensures r.amount == SumWhere(rows, DateTicker, k, OrderAmount)
  {
    var g := Group(rows, DateTicker, k);
    DividendRow(k.0, k.1, SumWhere(rows, DateTicker, k, OrderAmount),
                if |g| == 0 then "" else MinText(MapSeq(g, OrderAction)))
  }

  /** The action of a group's row is the least action among its rows (in
      `String` order, as `min` on a string column takes it). */
  lemma GroupRowAction(rows: seq<Order>, k: (Date, string))
    requires exists x :: x in rows && DateTicker(x) == k
    ensures exists x :: x in rows && DateTicker(x) == k && x.action == GroupRow(rows, k).action
    ensures forall x :: x in rows && DateTicker(x) == k ==> !Less(x.action, GroupRow(rows, k).action)
  {
    var g := Group(rows, DateTicker, k);
    var x :| x in rows && DateTicker(x) == k;
    assert x in g;
    var actions := MapSeq(g, OrderAction);
    var m := MinText(actions);
    assert GroupRow(rows, k).action == m;
    forall y | y in rows && DateTicker(y) == k ensures !Less(y.action, m) {
      var i :| 0 <= i < |g| && g[i] == y;
      assert actions[i] == y.action;
    }
    var i :| 0 <= i < |actions| && actions[i] == m;
    assert g[i] in g;
  }

  /** `collect`: one row per (Date, Ticker), in order of first appearance,
      holding the group's summed amount. */
  function Collect(rows: seq<Order>): (r: seq<DividendRow>)
    ensures forall i, j :: 0 <= i < j < |r| ==> (r[i].date, r[i].ticker) != (r[j].date, r[j].ticker)
    ensures forall i :: 0 <= i < |r| ==> r[i].amount == SumWhere(rows, DateTicker, (r[i].date, r[i].ticker), OrderAmount)
  {
    var keys := UniqueStable(MapSeq(rows, DateTicker));
    MapSeq(keys, (k: (Date, string)) => GroupRow(rows, k))
  }

  /** A day and ticker has a row exactly when the income has a row for
      it, and that row's action is the least of the group's actions. */
  lemma CollectCovers(rows: seq<Order>, k: (Date, string))
    ensures (exists i :: 0 <= i < |Collect(rows)| && (Collect(rows)[i].date, Collect(rows)[i].ticker) == k) <==>
      (exists x :: x in rows && DateTicker(x) == k)
  {
    var keys := UniqueStable(MapSeq(rows, DateTicker));
    var r := Collect(rows);
    KeysOf(rows, DateTicker, k);
    if exists x :: x in rows && DateTicker(x) == k {
      var i :| 0 <= i < |keys| && keys[i] == k;
      assert (r[i].date, r[i].ticker) == k;
    }
    if exists i :: 0 <= i < |r| && (r[i].date, r[i].ticker) == k {
      var i :| 0 <= i < |r| && (r[i].date, r[i].ticker) == k;
      assert keys[i] == k;
    }
  }

  /** The row of a present day and ticker carries the least action. */
  lemma CollectAction(rows: seq<Order>, i: nat)
    requires i < |Collect(rows)|
    ensures var row := Collect(rows)[i];
      && (exists x :: x in rows && DateTicker(x) == (row.date, row.ticker) && x.action == row.action)
      && (forall x :: x in rows && DateTicker(x) == (row.date, row.ticker) ==> !Less(x.action, row.action))
  {
    var keys := UniqueStable(MapSeq(rows, DateTicker));
    assert keys[i] in keys;
    KeysOf(rows, DateTicker, keys[i]);
    GroupRowAction(rows, keys[i]);
  }

  function RowAmount(r: DividendRow): real { r.amount }

  /** The rows of `collect` add up to the whole income. */
  lemma CollectTotal(rows: seq<Order>)
    ensures SumOf(Collect(rows), RowAmount) == SumOf(rows, OrderAmount)
  {
    var keys := UniqueStable(MapSeq(rows, DateTicker));
    forall x | x in rows ensures DateTicker(x) in keys {
      KeysOf(rows, DateTicker, DateTicker(x));
    }
    GroupSumsPartition(rows, DateTicker, keys, OrderAmount);
    CollectSums(rows, keys);
  }

  lemma {:induction false} CollectSums(rows: seq<Order>, keys: seq<(Date, string)>)
    ensures SumOf(MapSeq(keys, (k: (Date, string)) => GroupRow(rows, k)), RowAmount) ==
      SumOverGroups(rows, DateTicker, keys, OrderAmount)
    decreases |keys|
  {
    if |keys| > 0 {
      var n := |keys| - 1;
      var f := (k: (Date, string)) => GroupRow(rows, k);
      assert MapSeq(keys, f)[..n] == MapSeq(keys[..n], f);
      CollectSums(rows, keys[..n]);
    }
  }

  // ------------------------------------------------------------ currency and pivot

  /** The columns `normalize_currency` converts: Amount and Price. */
  function IncomeColumns(): Columns<Order> {
    Columns(
      (o: Order) => o.currency,
      (o: Order, k: real) => o.(amount := o.amount * k, price := o.price * k),
      (o: Order, c: string) => o.(currency := c))
  }

  /** Conversion touches Amount, Price and Currency only. */
  lemma IncomeRescaled(o: Order, rate: real, target: Currency)
    ensures Rescaled(o, IncomeColumns(), rate, target) ==
      o.(amount := o.amount * rate, price := o.price * rate, currency := CurrencyName(target))
    ensures Rescaled(o, IncomeColumns(), rate, target).qty == o.qty
    ensures Rescaled(o, IncomeColumns(), rate, target).tax == o.tax
  {
  }

  /** `normalize_currency`: the income converted into `target`, and the
      provider left as the conversion leaves it. */
  method NormalizeCurrency(rows: seq<Order>, target: Currency, scraper: Provider, present: Option<Date>, today: Date)
    returns (r: Result<seq<Order>>)
    modifies scraper
    ensures r == NormalizeResult(rows, IncomeColumns(), target, old(scraper.tickers), old(scraper.countries),
                                 scraper.respond, QuoteWindow(present, today))
    ensures ProviderState(scraper.tickers, scraper.countries, scraper.requests) ==
      StateAfter(rows, IncomeColumns(), target, old(ProviderState(scraper.tickers, scraper.countries, scraper.requests)),
                 scraper.respond, QuoteWindow(present, today))
  {
    r := Normalize(rows, IncomeColumns(), target, scraper, present, today);
  }

  function DatedAmount(o: Order): (Date, real) { (o.date, o.amount) }

  /** `pivot`: the amounts by year and month. */
  function PivotIncome(rows: seq<Order>): (p: Pivot)
    ensures |p.rows| > 0 && p.rows[|p.rows| - 1].year == "Total"
  {
    PivotYearMonths(MapSeq(rows, DatedAmount))
  }

  function EntryOf(o: Order): Entry { (YearOf(o.date), MonthOf(o.date), o.amount) }

  /** The pivot's grand total is the whole income. */
  lemma PivotIncomeTotal(rows: seq<Order>)
    ensures var p := PivotIncome(rows); p.rows[|p.rows| - 1].total == SumOf(rows, OrderAmount)
  {
    var data := WithYearMonth(MapSeq(rows, DatedAmount));
    PivotGrandTotal(data);
    assert data == MapSeq(rows, EntryOf);
    SumOfMapped(rows);
  }

  lemma {:induction false} SumOfMapped(rows: seq<Order>)
    ensures SumOf(MapSeq(rows, EntryOf), Value) == SumOf(rows, OrderAmount)
    decreases |rows|
  {
    if |rows| > 0 {
      var n := |rows| - 1;
      assert MapSeq(rows, EntryOf)[..n] == MapSeq(rows[..n], EntryOf);
      SumOfMapped(rows[..n]);
    }
  }
}

/** The dividend figures of the test ledger: Dividend rows 2 and 11 of
    GOOGL (1.34 and 1.92) and row 12 of APPL (2.75). */
module DividendsMock {
  import opened Wrappers
  import opened Calendar
  import opened Text
  import opened Series
  import opened Schema
  import opened Orders
  import opened Compute
  import opened Fixture
  import opened Transform
  import opened Dividends

  /** One row of the filter, from a known prefix to the next. */
  lemma KeepRow(s: seq<Order>, i: nat, before: seq<Order>, after: seq<Order>)
    requires i < |s| && Keep(s[..i], IsIncome) == before
    requires after == if IsIncome(s[i]) then before + [s[i]] else before
    ensures Keep(s[..i + 1], IsIncome) == after
  {
    assert s[..i + 1] == s[..i] + [s[i]];
    KeepAddLast(s[..i], s[i], IsIncome);
  }

  /** The rows the filter keeps from the first `n` rows of the ledger. */
  function KeptPrefix(n: nat): seq<Order>
    requires n <= 14
  {
    var l := MockOrders();
    if n <= 2 then [] else if n <= 11 then [l[2]] else if n == 12 then [l[2], l[11]] else [l[2], l[11], l[12]]
  }

  lemma IncomeRowsAt(i: nat)
    requires i < 14
    ensures IsIncome(MockOrders()[i]) <==> i in {2, 11, 12}
  {
    if i < 7 {
      if i == 0 {} else if i == 1 {} else if i == 2 {} else if i == 3 {} else if i == 4 {} else if i == 5 {} else {}
    } else {
      if i == 7 {} else if i == 8 {} else if i == 9 {} else if i == 10 {} else if i == 11 {} else if i == 12 {} else {}
    }
  }

  lemma KeptPrefixStep(n: nat)
    requires 0 < n <= 14
    ensures KeptPrefix(n) == var o := MockOrders()[n - 1];
      if IsIncome(o) then KeptPrefix(n - 1) + [o] else KeptPrefix(n - 1)
  {
    IncomeRowsAt(n - 1);
  }

  lemma {:induction false} KeptPrefixes(n: nat)
    requires n <= 14
    ensures Keep(MockOrders()[..n], IsIncome) == KeptPrefix(n)
  {
    if n > 0 {
      KeptPrefixes(n - 1);
      KeptPrefixStep(n);
      KeepRow(MockOrders(), n - 1, KeptPrefix(n - 1), KeptPrefix(n));
    } else {
      assert MockOrders()[..0] == [];
    }
  }

  /** Three dividend rows pass the filter unchanged. */
  lemma IncomeOfThree(s: seq<Order>, a: Order, b: Order, c: Order)
    requires Keep(s, IsIncome) == [a, b, c]
    requires a.action == b.action == c.action == "Dividend"
    ensures Income(s) == [a, b, c]
  {
    OnlyOwnName(Action.Dividend, Action.Tax);
  }

  lemma MockRows()
    ensures var l := MockOrders();
      && l[2].action == l[11].action == l[12].action == "Dividend"
      && l[2].ticker == l[11].ticker == "GOOGL" && l[12].ticker == "APPL"
      && l[2].amount == 1.34 && l[11].amount == 1.92 && l[12].amount == 2.75
  {
  }

  /** The three income rows, unchanged since none is a tax. */
  lemma MockIncome()
    ensures var l := MockOrders(); Income(l) == [l[2], l[11], l[12]]
  {
    var l := MockOrders();
    KeptPrefixes(14);
    assert l[..14] == l;
    MockRows();
    IncomeOfThree(l, l[2], l[11], l[12]);
  }

  /** `try_from_orders` succeeds on the test ledger. */
  lemma MockTryFromOrders()
    ensures var l := MockOrders(); TryFromOrders(l) == Ok([l[2], l[11], l[12]])
  {
    MockIncome();
  }

  lemma UniqueOfThree(x: string, y: string)
    requires x != y
    ensures UniqueStable([x, x, y]) == [x, y]
  {
    var s := [x, x, y];
    assert s[..2] == [x, x] && s[..2][..1] == [x] && s[..2][..1][..0] == [];
    assert UniqueStable<string>([]) == [];
    assert UniqueStable([x]) == [x];
    assert UniqueStable([x, x]) == [x];
  }

  /** Two rows of one ticker followed by one of another give two sums. */
  lemma ByTickerOfThree(a: Order, b: Order, c: Order)
    requires a.ticker == b.ticker && a.ticker != c.ticker
    ensures ByTicker([a, b, c]) == [(a.ticker, a.amount + b.amount), (c.ticker, c.amount)]
  {
    var rows := [a, b, c];
    var tickers := MapSeq(rows, OrderTicker);
    assert tickers == [a.ticker, a.ticker, c.ticker];
    UniqueOfThree(a.ticker, c.ticker);
    SumWhereOfThree(a, b, c, a.ticker);
    SumWhereOfThree(a, b, c, c.ticker);
  }

  lemma SumWhereOfThree(a: Order, b: Order, c: Order, t: string)
    ensures SumWhere([a, b, c], OrderTicker, t, OrderAmount) ==
      (if a.ticker == t then a.amount else 0.0) + (if b.ticker == t then b.amount else 0.0) + (if c.ticker == t then c.amount else 0.0)
  {
    SumWhereAddLast([a, b], c, OrderTicker, t, OrderAmount);
    SumWhereAddLast([a], b, OrderTicker, t, OrderAmount);
    SumWhereAddLast([], a, OrderTicker, t, OrderAmount);
    assert [a, b] == [a] + [b] && [a] == [] + [a] && [a, b, c] == [a, b] + [c];
    assert Group([], OrderTicker, t) == [];
  }

  /** `by_ticker` on the test ledger: GOOGL 3.26 and APPL 2.75. */
  lemma MockByTicker()
    ensures ByTicker(Income(MockOrders())) == [("GOOGL", 3.26), ("APPL", 2.75)]
  {
    var l := MockOrders();
    MockIncome();
    MockRows();
    ByTickerOfThree(l[2], l[11], l[12]);
  }

  /** The grand total of the pivot on the test ledger is 6.01. */
  lemma MockPivotTotal()
    ensures var p := PivotIncome(Income(MockOrders())); p.rows[|p.rows| - 1].total == 6.01
  {
    var l := MockOrders();
    MockIncome();
    MockRows();
    PivotOfThree(l[2], l[11], l[12]);
  }

  lemma PivotOfThree(a: Order, b: Order, c: Order)
    ensures var p := PivotIncome([a, b, c]); p.rows[|p.rows| - 1].total == a.amount + b.amount + c.amount
  {
    PivotIncomeTotal([a, b, c]);
    SumOfThree(a, b, c);
  }

  lemma SumOfThree(a: Order, b: Order, c: Order)
    ensures SumOf([a, b, c], OrderAmount) == a.amount + b.amount + c.amount
  {
    var rows := [a, b, c];
    assert rows[..2] == [a, b] && rows[..2][..1] == [a] && rows[..2][..1][..0] == [];
    assert SumOf([a], OrderAmount) == a.amount;
    assert SumOf([a, b], OrderAmount) == a.amount + b.amount;
  }

  /** The year and month of a row dated on a calendar day. */
  lemma EntryOfDated(o: Order, c: Civil)
    requires ValidCivil(c) && o.date == DaysFromCivil(c)
    ensures EntryOf(o) == (c.year, c.month, o.amount)
  {
    YearMonthOf(c, o.date);
  }

  /** The income row `i` of the test ledger, dated 2024-`m`-`d`. */
  lemma MockEntry(i: nat, m: int, d: int)
    requires i < 14 && m == 3 + i % 7 && d == 14 + i % 15 && 1 <= m <= 12 && 1 <= d <= 28
    ensures EntryOf(MockOrders()[i]) == (2024, m, MockOrders()[i].amount)
  {
    MockDates(i);
    EntryOfDated(MockOrders()[i], Civil(2024, m, d));
  }

  /** The three income rows are dated 2024-05-16, 2024-07-25 and
      2024-08-26. */
  lemma MockIncomeEntries()
    ensures var l := MockOrders();
      MapSeq([l[2], l[11], l[12]], EntryOf) == [(2024, 5, 1.34), (2024, 7, 1.92), (2024, 8, 2.75)]
  {
    MockRows();
    MockEntry(2, 5, 16);
    MockEntry(11, 7, 25);
    MockEntry(12, 8, 26);
  }

  /** The dated amounts of the test ledger's income, with their year and
      month. */
  lemma MockPivotData()
    ensures WithYearMonth(MapSeq(Income(MockOrders()), DatedAmount)) == [(2024, 5, 1.34), (2024, 7, 1.92), (2024, 8, 2.75)]
  {
    var l := MockOrders();
    MockIncome();
    MockIncomeEntries();
    EntriesOf([l[2], l[11], l[12]]);
  }

  lemma EntriesOf(rows: seq<Order>)
    ensures WithYearMonth(MapSeq(rows, DatedAmount)) == MapSeq(rows, EntryOf)
  {
  }

  /** `pivot` on the test ledger: one row for 2024 and the Total row, each
      with May 1.34, July 1.92, August 2.75 and a total of 6.01. */
  lemma MockPivot()
    ensures PivotIncome(Income(MockOrders())) ==
      Pivot(["Year", "May", "July", "August", "Total"],
            [PivotRow("2024", [1.34, 1.92, 2.75], 6.01), PivotRow("Total", [1.34, 1.92, 2.75], 6.01)])
  {
    var data := WithYearMonth(MapSeq(Income(MockOrders()), DatedAmount));
    assert PivotIncome(Income(MockOrders())) == PivotOf(data);
    MockPivotData();
    PivotOneYear(2024, 5, 7, 8, 1.34, 1.92, 2.75);
    Year2024Spelled();
    MockMonthNames();
    assert 1.34 + 1.92 + 2.75 == 6.01;
  }

  lemma MockMonthNames()
    ensures MonthName(5) == "May" && MonthName(7) == "July" && MonthName(8) == "August"
  {
  }

  lemma Year2024Spelled()
    ensures IntToString(2024) == "2024"
  {
    assert NatToString(2) == "2";
    assert NatToString(20) == "20";
    assert NatToString(202) == "202";
    assert NatToString(2024) == "2024";
  }
}

