/** Uninvested cash (`Cash`): the ledger's cash movements, signed by
    direction, summed per currency. */
module Uninvested {
  import opened Wrappers
  import opened Text
  import opened Series
  import opened Schema
  import opened Orders
  import opened Compute

  /** One cash movement of `from_orders`' frame: its currency and its
      signed amount. */
  datatype Flow = Flow(currency: string, amount: real)

  function FlowCurrency(f: Flow): string { f.currency }
  function FlowAmount(f: Flow): real { f.amount }

  /** The action pattern `Buy|Withdraw|Tax|Fee`: the row pays money out
      when its action contains any of the four names. */
  predicate Outflow(action: string) {
    || Contains(action, ActionName(Action.Buy))
    || Contains(action, ActionName(Action.Withdraw))
    || Contains(action, ActionName(Action.Tax))
    || Contains(action, ActionName(Action.Fee))
  }

  predicate NotIgnored(o: Order) { o.action != ActionName(Action.Ignore) }

  function Signed(o: Order): (f: Flow)
    ensures f.currency == o.currency
    ensures f.amount == if Outflow(o.action) then -o.amount else o.amount
  {
    Flow(o.currency, if Outflow(o.action) then -o.amount else o.amount)
  }

  /** `Cash::from_orders`: the rows that are not `Ignore`, in order, each
      with its amount negated when it pays money out. */
  function FromOrders(orders: seq<Order>): (r: seq<Flow>)
    ensures |r| <= |orders|
    ensures forall f :: f in r <==> exists o :: o in orders && NotIgnored(o) && Signed(o) == f
  {
    var kept := Keep(orders, NotIgnored);
    var r := MapSeq(kept, Signed);
    forall f | f in r ensures exists o :: o in orders && NotIgnored(o) && Signed(o) == f {
      var i :| 0 <= i < |r| && r[i] == f;
      assert kept[i] in kept;
    }
    forall o | o in orders && NotIgnored(o) ensures Signed(o) in r {
      var i :| 0 <= i < |kept| && kept[i] == o;
      assert r[i] == Signed(o);
    }
    r
  }

  /** The sign rule on action names: exactly Buy, Withdraw, Tax and Fee
      pay out, since no other action's name contains one of those names. */
  lemma OutflowOf(a: Action)
    ensures Outflow(ActionName(a)) <==> a in {Action.Buy, Action.Withdraw, Action.Tax, Action.Fee}
  {
    OnlyOwnName(a, Action.Buy);
    OnlyOwnName(a, Action.Withdraw);
    OnlyOwnName(a, Action.Tax);
    OnlyOwnName(a, Action.Fee);
  }

  /** An `Ignore` row contributes nothing; any other row contributes its
      signed flow after the earlier rows' flows. */
  lemma FromOrdersAddLast(orders: seq<Order>, o: Order)
    ensures FromOrders(orders + [o]) == if NotIgnored(o) then FromOrders(orders) + [Signed(o)] else FromOrders(orders)
  {
    KeepAddLast(orders, o, NotIgnored);
    var kept := Keep(orders, NotIgnored);
    if NotIgnored(o) {
      assert MapSeq(kept + [o], Signed) == MapSeq(kept, Signed) + [Signed(o)];
    }
  }

  /** One row of `collect`'s result. */
  datatype CashRow = CashRow(currency: string, amount: real, ticker: string, country: string)

  function CashRowAmount(c: CashRow): real { c.amount }

  /** The row of a currency's total; its country comes from the parsed
      currency, and a currency that does not parse panics. */
  function CashRowOf(e: (string, real)): (r: Result<CashRow>)
    ensures r.Fail? <==> ParseCurrency(e.0).None?
    ensures r.Ok? ==> r.value.currency == e.0 && r.value.amount == e.1 && r.value.ticker == KindName(Kind.Cash)
    ensures r.Ok? ==> r.value.country == CountryName(CountryOfCurrency(ParseCurrency(e.0).value))
  {
    var c := ParseCurrency(e.0);
    if c.None? then Fail(Panic("called `Result::unwrap()` on an `Err` value"))
    else Ok(CashRow(e.0, e.1, KindName(Kind.Cash), CountryName(CountryOfCurrency(c.value))))
  }

  /** The rows of a list of totals, failing when any total's currency
      fails. */
  function CashRows(sums: seq<(string, real)>): (r: Result<seq<CashRow>>)
    ensures r.Fail? <==> exists i :: 0 <= i < |sums| && CashRowOf(sums[i]).Fail?
    ensures r.Ok? ==> |r.value| == |sums| && forall i :: 0 <= i < |sums| ==> CashRowOf(sums[i]) == Ok(r.value[i])
    decreases |sums|
  {
    if |sums| == 0 then Ok([])
    else
      var init := CashRows(sums[..|sums| - 1]);
      var last := CashRowOf(sums[|sums| - 1]);
      if init.Fail? then
        var i :| 0 <= i < |sums| - 1 && CashRowOf(sums[..|sums| - 1][i]).Fail?;
        assert CashRowOf(sums[i]).Fail?;
        Fail(init.failure)
      else if last.Fail? then Fail(last.failure)
      else Ok(init.value + [last.value])
  }

  /** `collect`: one row per currency, in order of first appearance,
      holding the sum of that currency's flows, ticker "Cash" and the
      currency's country. A currency name that does not parse panics. */
  function Collect(flows: seq<Flow>): (r: Result<seq<CashRow>>)
    ensures r.Fail? <==> exists x :: x in flows && ParseCurrency(x.currency).None?
    ensures r.Ok? ==> forall i, j :: 0 <= i < j < |r.value| ==> r.value[i].currency != r.value[j].currency
    ensures r.Ok? ==> forall i :: 0 <= i < |r.value| ==>
      && r.value[i].amount == SumWhere(flows, FlowCurrency, r.value[i].currency, FlowAmount)
      && r.value[i].ticker == KindName(Kind.Cash)
      && ParseCurrency(r.value[i].currency).Some?
      && r.value[i].country == CountryName(CountryOfCurrency(ParseCurrency(r.value[i].currency).value))
  {
    var sums := SumBy(flows, FlowCurrency, FlowAmount);
    var r := CashRows(sums);
    if r.Fail? then
      var i :| 0 <= i < |sums| && CashRowOf(sums[i]).Fail?;
      SumByKey(flows, FlowCurrency, FlowAmount, sums[i].0);
      r
    else
      forall x | x in flows ensures ParseCurrency(x.currency).Some? {
        SumByKey(flows, FlowCurrency, FlowAmount, x.currency);
        var i :| 0 <= i < |sums| && sums[i].0 == x.currency;
        assert CashRowOf(sums[i]) == Ok(r.value[i]);
      }
      r
  }

  /** A currency has a row exactly when some flow is in that currency. */
  lemma CollectCovers(flows: seq<Flow>, c: string)
    requires Collect(flows).Ok?
    ensures (exists i :: 0 <= i < |Collect(flows).value| && Collect(flows).value[i].currency == c) <==>
      (exists x :: x in flows && x.currency == c)
  {
    var sums := SumBy(flows, FlowCurrency, FlowAmount);
    var rows := Collect(flows).value;
    SumByKey(flows, FlowCurrency, FlowAmount, c);
    if exists i :: 0 <= i < |rows| && rows[i].currency == c {
      var i :| 0 <= i < |rows| && rows[i].currency == c;
      assert CashRowOf(sums[i]) == Ok(rows[i]);
    }
    if exists x :: x in flows && x.currency == c {
      var i :| 0 <= i < |sums| && sums[i].0 == c;
      assert CashRowOf(sums[i]) == Ok(rows[i]);
    }
  }

  /** No cash is lost or invented: the rows add up to all the flows. */
  lemma CollectTotal(flows: seq<Flow>)
    requires Collect(flows).Ok?
    ensures SumOf(Collect(flows).value, CashRowAmount) == SumOf(flows, FlowAmount)
  {
    var sums := SumBy(flows, FlowCurrency, FlowAmount);
    SumByTotal(flows, FlowCurrency, FlowAmount);
    SameAmounts(Collect(flows).value, sums);
  }

  lemma {:induction false} SameAmounts(rows: seq<CashRow>, sums: seq<(string, real)>)
    requires |rows| == |sums|
    requires forall i :: 0 <= i < |sums| ==> CashRowOf(sums[i]) == Ok(rows[i])
    ensures SumOf(rows, CashRowAmount) == SumOf(sums, Second)
    decreases |rows|
  {
    if |rows| > 0 {
      var n := |rows| - 1;
      assert CashRowOf(sums[n]) == Ok(rows[n]);
      SameAmounts(rows[..n], sums[..n]);
    }
  }

  /** The whole pipeline: `Cash::from_orders(orders).collect()`. */
  function UninvestedCash(orders: seq<Order>): (r: Result<seq<CashRow>>)
    ensures r.Fail? <==> exists o :: o in orders && NotIgnored(o) && ParseCurrency(o.currency).None?
  {
    var flows := FromOrders(orders);
    var r := Collect(flows);
    if r.Fail? then
      var x :| x in flows && ParseCurrency(x.currency).None?;
      var o :| o in orders && NotIgnored(o) && Signed(o) == x;
      r
    else
      forall o | o in orders && NotIgnored(o) ensures ParseCurrency(o.currency).Some? {
        assert Signed(o) in flows;
      }
      r
  }
}

/** The uninvested-cash test ledger. */
module UninvestedExample {
  import opened Wrappers
  import opened Series
  import opened Schema
  import opened Orders
  import opened Uninvested

  /** A test row: action, ticker, amount and currency. */
  type Movement = (Action, string, real, Currency)

  function CashOrder(m: Movement): Order {
    Order(0, ActionName(m.0), m.1, 0.0, 0.0, m.2, 0.0, 0.0, "", CurrencyName(m.3), "")
  }

  /** The flow the sign rule gives a movement. */
  function ExpectedFlow(m: Movement): Flow {
    Flow(CurrencyName(m.3), if m.0 in {Action.Buy, Action.Withdraw, Action.Tax, Action.Fee} then -m.2 else m.2)
  }

  /** Nine movements alternating between dollars and pounds. */
  const Movements: seq<Movement> := [
    (Action.Deposit, "CASH", 10335.1, USD),
    (Action.Deposit, "CASH", 2037.1, GBP),
    (Action.Buy, "GOOGL", 4397.45, USD),
    (Action.Buy, "GOOGL", 2094.56, GBP),
    (Action.Sell, "GOOGL", 3564.86, USD),
    (Action.Dividend, "GOOGL", 76.87, GBP),
    (Action.Withdraw, "CASH", 150.00, USD),
    (Action.Tax, "CASH", 3.98, GBP),
    (Action.Fee, "CASH", 1.56, USD)
  ]

  function CashLedger(): (r: seq<Order>)
    ensures |r| == 9
  {
    MapSeq(Movements, CashOrder)
  }

  const CashFlows: seq<Flow> := [
    Flow("USD", 10335.1), Flow("GBP", 2037.1), Flow("USD", -4397.45), Flow("GBP", -2094.56),
    Flow("USD", 3564.86), Flow("GBP", 76.87), Flow("USD", -150.00), Flow("GBP", -3.98), Flow("USD", -1.56)
  ]

  lemma SignedMovement(m: Movement)
    ensures NotIgnored(CashOrder(m)) <==> m.0 != Action.Ignore
    ensures Signed(CashOrder(m)) == ExpectedFlow(m)
  {
    OutflowOf(m.0);
    if m.0 != Action.Ignore {
      ParseActionName(m.0);
      ParseActionName(Action.Ignore);
    }
  }

  lemma ExpectedFlows()
    ensures MapSeq(Movements, ExpectedFlow) == CashFlows
  {
  }

  lemma LedgerFlows()
    ensures FromOrders(CashLedger()) == CashFlows
  {
    var ledger := CashLedger();
    forall i | 0 <= i < |ledger| ensures NotIgnored(ledger[i]) && Signed(ledger[i]) == ExpectedFlow(Movements[i]) {
      SignedMovement(Movements[i]);
    }
    KeepAll(ledger, NotIgnored);
    ExpectedFlows();
  }

  /** A list that starts with two distinct keys and holds only those two
      has those two as its distinct keys. */
  lemma {:induction false} UniqueOfTwo<K(!new)>(s: seq<K>, x: K, y: K)
    requires x != y && |s| >= 2 && s[0] == x && s[1] == y
    requires forall i :: 0 <= i < |s| ==> s[i] == x || s[i] == y
    ensures UniqueStable(s) == [x, y]
    decreases |s|
  {
    if |s| == 2 {
      assert s[..1] == [x] && [x][..0] == [];
      assert UniqueStable<K>([]) == [];
    } else {
      var init := s[..|s| - 1];
      UniqueOfTwo(init, x, y);
    }
  }

  lemma FlowSums()
    ensures SumBy(CashFlows, FlowCurrency, FlowAmount) == [("USD", 9350.95), ("GBP", 15.43)]
  {
    var keys := MapSeq(CashFlows, FlowCurrency);
    assert keys == ["USD", "GBP", "USD", "GBP", "USD", "GBP", "USD", "GBP", "USD"];
    assert "GBP"[0] != "USD"[0];
    UniqueOfTwo(keys, "USD", "GBP");
    UsdSum();
    GbpSum();
  }

  function Masked(k: string): Flow -> real {
    (x: Flow) => if x.currency == k then x.amount else 0.0
  }

  /** A group's sum is the sum of the column with the other rows zeroed. */
  lemma {:induction false} SumWhereMasked(s: seq<Flow>, k: string)
    ensures SumWhere(s, FlowCurrency, k, FlowAmount) == SumOf(s, Masked(k))
    decreases |s|
  {
    if |s| > 0 {
      var n := |s| - 1;
      assert s == s[..n] + [s[n]];
      SumWhereAddLast(s[..n], s[n], FlowCurrency, k, FlowAmount);
      SumWhereMasked(s[..n], k);
    }
  }

  /** A sum checked against a table of its running totals. */
  lemma {:induction false} RunningTotals(s: seq<Flow>, f: Flow -> real, totals: seq<real>)
    requires |totals| == |s| + 1 && totals[0] == 0.0
    requires forall n :: 0 <= n < |s| ==> totals[n + 1] == totals[n] + f(s[n])
    ensures SumOf(s, f) == totals[|s|]
    decreases |s|
  {
    if |s| > 0 {
      var n := |s| - 1;
      forall i | 0 <= i < n ensures totals[..n + 1][i + 1] == totals[..n + 1][i] + f(s[..n][i]) {
        assert totals[i + 1] == totals[i] + f(s[i]);
      }
      RunningTotals(s[..n], f, totals[..n + 1]);
    }
  }

  const UsdTotals: seq<real> :=
    [0.0, 10335.1, 10335.1, 5937.65, 5937.65, 9502.51, 9502.51, 9352.51, 9352.51, 9350.95]
  const GbpTotals: seq<real> :=
    [0.0, 0.0, 2037.1, 2037.1, -57.46, -57.46, 19.41, 19.41, 15.43, 15.43]

  lemma UsdSteps(n: nat)
    requires n < 9
    ensures UsdTotals[n + 1] == UsdTotals[n] + Masked("USD")(CashFlows[n])
  {
    assert "GBP"[0] != "USD"[0];
    if n < 3 {
    } else if n < 6 {
    } else {
    }
  }

  lemma GbpSteps(n: nat)
    requires n < 9
    ensures GbpTotals[n + 1] == GbpTotals[n] + Masked("GBP")(CashFlows[n])
  {
    assert "GBP"[0] != "USD"[0];
    if n < 3 {
    } else if n < 6 {
    } else {
    }
  }

  lemma UsdSum()
    ensures SumWhere(CashFlows, FlowCurrency, "USD", FlowAmount) == 9350.95
  {
    SumWhereMasked(CashFlows, "USD");
    forall n | 0 <= n < 9 ensures UsdTotals[n + 1] == UsdTotals[n] + Masked("USD")(CashFlows[n]) {
      UsdSteps(n);
    }
    RunningTotals(CashFlows, Masked("USD"), UsdTotals);
  }

  lemma GbpSum()
    ensures SumWhere(CashFlows, FlowCurrency, "GBP", FlowAmount) == 15.43
  {
    SumWhereMasked(CashFlows, "GBP");
    forall n | 0 <= n < 9 ensures GbpTotals[n + 1] == GbpTotals[n] + Masked("GBP")(CashFlows[n]) {
      GbpSteps(n);
    }
    RunningTotals(CashFlows, Masked("GBP"), GbpTotals);
  }

  lemma CashRowsPair(a: (string, real), b: (string, real))
    requires CashRowOf(a).Ok? && CashRowOf(b).Ok?
    ensures CashRows([a, b]) == Ok([CashRowOf(a).value, CashRowOf(b).value])
  {
    var e: seq<(string, real)> := [];
    assert CashRows(e) == Ok([]);
    assert e + [a] == [a] && [a] + [b] == [a, b];
    CashRowsAddLast(e, a);
    var ra, rb := CashRowOf(a).value, CashRowOf(b).value;
    assert CashRows(e).value + [ra] == [ra];
    assert CashRows([a]) == Ok([ra]);
    CashRowsAddLast([a], b);
    assert [ra] + [rb] == [ra, rb];
  }

  lemma CashRowsAddLast(sums: seq<(string, real)>, e: (string, real))
    requires CashRows(sums).Ok? && CashRowOf(e).Ok?
    ensures CashRows(sums + [e]) == Ok(CashRows(sums).value + [CashRowOf(e).value])
  {
    var t := sums + [e];
    assert t[..|t| - 1] == sums;
  }

  lemma CollectFlows()
    ensures Collect(CashFlows) == Ok([CashRow("USD", 9350.95, "Cash", "Usa"), CashRow("GBP", 15.43, "Cash", "Uk")])
  {
    FlowSums();
    UsdCashRow();
    GbpCashRow();
    CollectTwo(CashFlows, ("USD", 9350.95), ("GBP", 15.43));
  }

  lemma UsdCashRow()
    ensures CashRowOf(("USD", 9350.95)) == Ok(CashRow("USD", 9350.95, "Cash", "Usa"))
  {
    assert ParseCurrency("USD") == Some(USD);
  }

  lemma GbpCashRow()
    ensures CashRowOf(("GBP", 15.43)) == Ok(CashRow("GBP", 15.43, "Cash", "Uk"))
  {
    assert ParseCurrency("GBP") == Some(GBP);
  }

  lemma CollectTwo(flows: seq<Flow>, a: (string, real), b: (string, real))
    requires SumBy(flows, FlowCurrency, FlowAmount) == [a, b]
    requires CashRowOf(a).Ok? && CashRowOf(b).Ok?
    ensures Collect(flows) == Ok([CashRowOf(a).value, CashRowOf(b).value])
  {
    CashRowsPair(a, b);
  }

  lemma PipelineIs(orders: seq<Order>)
    ensures Uninvested.UninvestedCash(orders) == Collect(FromOrders(orders))
  {
  }

  /** The test's answer: 9350.95 dollars and 15.43 pounds, dollars first
      because they appear first. */
  lemma LedgerCash()
    ensures Uninvested.UninvestedCash(CashLedger()) == Ok([
      CashRow("USD", 9350.95, "Cash", "Usa"), CashRow("GBP", 15.43, "Cash", "Uk")])
  {
    LedgerFlows();
    CollectFlows();
    PipelineIs(CashLedger());
  }
}
