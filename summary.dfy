/** The one-line summary of a portfolio (`Summary`): the invested totals
    of the collected portfolio, the uninvested cash, the dividends, the
    realised profit and the capital paid in, transposed into one line per
    figure with its share of the capital paid in. */
module Summary {
  import opened Wrappers
  import opened Calendar
  import opened Text
  import opened Series
  import opened Schema
  import opened Orders
  import opened Filter
  import opened Compute
  import opened Scraper
  import opened CurrencyNormalize
  import opened Portfolio
  import opened Liquidated

  // ------------------------------------------------------------ from_portfolio

  /** The portfolio row of the uninvested cash. */
  predicate IsCashRow(r: Report) { r.ticker == KindName(Kind.Cash) }
  predicate Invested(r: Report) { !IsCashRow(r) }

  function CostOfRow(r: Report): real { r.averagePrice * r.accruedQty }
  function ValueOfRow(r: Report): real { r.marketPrice * r.accruedQty }
  function PaperProfitOfRow(r: Report): real { r.paperProfit }
  function AmountOfRow(r: Report): real { r.amount }

  /** `f` summed over the rows that are not cash. */
  function InvestedSum(rows: seq<Report>, f: Report -> real): real {
    SumOf(Keep(rows, Invested), f)
  }

  /** The frame the summary is built in: the three sums of `from_portfolio`,
      the cash column (one value per cash row) and the columns added by the
      `with_*` steps, absent until then. */
  datatype Frame = Frame(
    portfolioCost: real,
    marketValue: real,
    paperProfit: real,
    uninvestedCash: seq<real>,
    dividends: Option<real>,
    liquidatedProfit: Option<real>,
    primaryCapital: Option<real>)

  /** `from_portfolio`. */
  function PortfolioFrame(rows: seq<Report>): (f: Frame)
    ensures f.dividends.None? && f.liquidatedProfit.None? && f.primaryCapital.None?
    ensures |f.uninvestedCash| == |Keep(rows, IsCashRow)|
  {
    Frame(InvestedSum(rows, CostOfRow), InvestedSum(rows, ValueOfRow), InvestedSum(rows, PaperProfitOfRow),
          MapSeq(Keep(rows, IsCashRow), AmountOfRow), None, None, None)
  }

  /** Every row is either cash or invested, so a column total splits into
      its invested part and its cash part. */
  lemma {:induction false} InvestedAndCash(rows: seq<Report>, f: Report -> real)
    ensures SumOf(rows, f) == InvestedSum(rows, f) + SumOf(Keep(rows, IsCashRow), f)
    decreases |rows|
  {
    if |rows| > 0 {
      var init := rows[..|rows| - 1];
      var x := rows[|rows| - 1];
      assert rows == init + [x];
      InvestedAndCash(init, f);
      KeepAddLast(init, x, Invested);
      KeepAddLast(init, x, IsCashRow);
      SumOfAppend(Keep(init, Invested), [x], f);
      SumOfAppend(Keep(init, IsCashRow), [x], f);
    }
  }

  /** Adding a cash row changes none of the invested totals. */
  lemma CashRowIgnored(rows: seq<Report>, c: Report)
    requires IsCashRow(c)
    ensures PortfolioFrame(rows + [c]).portfolioCost == PortfolioFrame(rows).portfolioCost
    ensures PortfolioFrame(rows + [c]).marketValue == PortfolioFrame(rows).marketValue
    ensures PortfolioFrame(rows + [c]).paperProfit == PortfolioFrame(rows).paperProfit
    ensures PortfolioFrame(rows + [c]).uninvestedCash == PortfolioFrame(rows).uninvestedCash + [c.amount]
  {
    KeepAddLast(rows, c, Invested);
    KeepAddLast(rows, c, IsCashRow);
    MapSeqAppend(Keep(rows, IsCashRow), [c], AmountOfRow);
  }

  /** `concat_df_horizontal` adding one single-value column: refused when a
      column of that name is already there. */
  function Hstack(existing: Option<real>, v: real, name: string): (r: Result<real>)
    ensures r.Ok? <==> existing.None?
    ensures r.Ok? ==> r.value == v
  {
    if existing.Some? then Fail(Error("unable to hstack, column with name \"" + name + "\" already exists"))
    else Ok(v)
  }

  // ------------------------------------------------------------ with_liquidated_profit

  predicate InvestedProfit(p: ProfitRow) { p.ticker != KindName(Kind.Cash) }
  function ProfitOfRow(p: ProfitRow): real { p.profit }

  /** `with_liquidated_profit`: the non-cash Profit total of a non-empty
      table, added as a column; an empty table sets the column to 0. */
  function ProfitAdded(f: Frame, profit: seq<ProfitRow>): (r: Result<Frame>)
    ensures r.Ok? ==> r.value == f.(liquidatedProfit := r.value.liquidatedProfit)
    ensures |profit| == 0 ==> r == Ok(f.(liquidatedProfit := Some(0.0)))
    ensures |profit| > 0 ==> (r.Ok? <==> f.liquidatedProfit.None?)
    ensures |profit| > 0 && r.Ok? ==>
      r.value.liquidatedProfit == Some(SumOf(Keep(profit, InvestedProfit), ProfitOfRow))
  {
    if |profit| > 0 then
      var v := Hstack(f.liquidatedProfit, SumOf(Keep(profit, InvestedProfit), ProfitOfRow),
                      ColumnName(Column.LiquidatedProfit));
      if v.Fail? then Fail(v.failure) else Ok(f.(liquidatedProfit := Some(v.value)))
    else Ok(f.(liquidatedProfit := Some(0.0)))
  }

  // ------------------------------------------------------------ with_dividends

  /** `with_dividends`, given the per-ticker table of `by_ticker`: the sum of
      its Dividends column; an empty table sets the column to 0. */
  function DividendsAdded(f: Frame, dividends: seq<(string, real)>): (r: Result<Frame>)
    ensures r.Ok? ==> r.value == f.(dividends := r.value.dividends)
    ensures |dividends| == 0 ==> r == Ok(f.(dividends := Some(0.0)))
    ensures |dividends| > 0 ==> (r.Ok? <==> f.dividends.None?)
    ensures |dividends| > 0 && r.Ok? ==> r.value.dividends == Some(SumOf(dividends, Second))
  {
    if |dividends| > 0 then
      var v := Hstack(f.dividends, SumOf(dividends, Second), ColumnName(Column.Dividends));
      if v.Fail? then Fail(v.failure) else Ok(f.(dividends := Some(v.value)))
    else Ok(f.(dividends := Some(0.0)))
  }

  // ------------------------------------------------------------ with_capital_invested

  predicate IsCapital(o: Order) { DepositOrWithdraw(o.action) }
  predicate IsDeposit(o: Order) { o.action == ActionName(Action.Deposit) }
  predicate IsWithdraw(o: Order) { o.action == ActionName(Action.Withdraw) }

  /** `negative_amount_on_withdraw` on one row. */
  function WithdrawNegated(o: Order): Order {
    o.(amount := NegativeAmountOnWithdraw(o.action, o.amount))
  }

  /** The deposits and withdrawals, withdrawals counted negative. */
  function CapitalFlows(orders: seq<Order>): seq<Order> {
    MapSeq(Keep(orders, IsCapital), WithdrawNegated)
  }

  /** Only Amount is converted. */
  function CapitalColumns(): Columns<Order> {
    Columns(
      (o: Order) => o.currency,
      (o: Order, k: real) => o.(amount := o.amount * k),
      (o: Order, c: string) => o.(currency := c))
  }

  /** The PrimaryCapital figure: the converted flows' total, or the error
      of the conversion (among them that of an empty table). */
  function CapitalInvested(orders: seq<Order>, target: Currency, tickers: seq<string>, countries: seq<Country>,
                           respond: Respond, period: SearchPeriod): Result<real>
  {
    var r := NormalizeResult(CapitalFlows(orders), CapitalColumns(), target, tickers, countries, respond, period);
    if r.Fail? then Fail(r.failure) else Ok(SumOf(r.value, OrderAmount))
  }

  /** The capital column added to the frame, or the first error. */
  function WithCapital(f: Frame, capital: Result<real>): (r: Result<Frame>)
    ensures r.Ok? <==> capital.Ok? && f.primaryCapital.None?
    ensures r.Ok? ==> r.value == f.(primaryCapital := Some(capital.value))
  {
    if capital.Fail? then Fail(capital.failure)
    else
      var v := Hstack(f.primaryCapital, capital.value, ColumnName(Column.PrimaryCapital));
      if v.Fail? then Fail(v.failure) else Ok(f.(primaryCapital := Some(v.value)))
  }

  /** A deposit is kept as is and a withdrawal negated. */
  lemma WithdrawSign(o: Order)
    requires IsCapital(o)
    ensures WithdrawNegated(o).amount == if IsWithdraw(o) then -o.amount else o.amount
  {
    OnlyOwnName(Action.Deposit, Action.Withdraw);
    OnlyOwnName(Action.Withdraw, Action.Withdraw);
  }

  /** The capital flows total the deposits less the withdrawals. */
  lemma CapitalIsDepositsLessWithdrawals(orders: seq<Order>)
    ensures SumOf(CapitalFlows(orders), OrderAmount) ==
      SumOf(Keep(orders, IsDeposit), OrderAmount) - SumOf(Keep(orders, IsWithdraw), OrderAmount)
  {
    forall o | IsCapital(o)
      ensures OrderAmount(WithdrawNegated(o)) == if IsWithdraw(o) then -OrderAmount(o) else OrderAmount(o)
    {
      WithdrawSign(o);
    }
    SumOfSigned(orders, IsDeposit, IsWithdraw, IsCapital, WithdrawNegated, OrderAmount);
  }

  /** Flows already in the target currency are not converted. */
  lemma FlowsInTarget(flows: seq<Order>, target: Currency, tickers: seq<string>,
                      countries: seq<Country>, respond: Respond, period: SearchPeriod)
    requires |flows| > 0
    requires forall i :: 0 <= i < |flows| ==> flows[i].currency == CurrencyName(target)
    ensures NormalizeResult(flows, CapitalColumns(), target, tickers, countries, respond, period) == Ok(flows)
  {
    OnlyTargetIff(flows, CapitalColumns(), target);
  }

  lemma CapitalCurrencies(orders: seq<Order>, target: Currency)
    requires forall o :: o in Keep(orders, IsCapital) ==> o.currency == CurrencyName(target)
    ensures forall i :: 0 <= i < |CapitalFlows(orders)| ==> CapitalFlows(orders)[i].currency == CurrencyName(target)
  {
    var kept := Keep(orders, IsCapital);
    forall i | 0 <= i < |kept| ensures CapitalFlows(orders)[i].currency == CurrencyName(target) {
      assert kept[i] in kept;
    }
  }

  lemma CapitalUnconverted(orders: seq<Order>, target: Currency, tickers: seq<string>,
                           countries: seq<Country>, respond: Respond, period: SearchPeriod)
    requires |Keep(orders, IsCapital)| > 0
    requires forall o :: o in Keep(orders, IsCapital) ==> o.currency == CurrencyName(target)
    ensures NormalizeResult(CapitalFlows(orders), CapitalColumns(), target, tickers, countries, respond, period) ==
      Ok(CapitalFlows(orders))
  {
    CapitalCurrencies(orders, target);
    FlowsInTarget(CapitalFlows(orders), target, tickers, countries, respond, period);
  }

  /** When every deposit and withdrawal is already in the target currency
      no rate is needed and PrimaryCapital is the deposits less the
      withdrawals. */
  lemma CapitalInTargetCurrency(orders: seq<Order>, target: Currency, tickers: seq<string>,
                                countries: seq<Country>, respond: Respond, period: SearchPeriod)
    requires |Keep(orders, IsCapital)| > 0
    requires forall o :: o in Keep(orders, IsCapital) ==> o.currency == CurrencyName(target)
    ensures CapitalInvested(orders, target, tickers, countries, respond, period) ==
      Ok(SumOf(Keep(orders, IsDeposit), OrderAmount) - SumOf(Keep(orders, IsWithdraw), OrderAmount))
  {
    CapitalUnconverted(orders, target, tickers, countries, respond, period);
    CapitalIsDepositsLessWithdrawals(orders);
  }

  /** Without deposits or withdrawals the conversion, and so the step, fails. */
  lemma NoCapitalFails(orders: seq<Order>, target: Currency, tickers: seq<string>,
                       countries: seq<Country>, respond: Respond, period: SearchPeriod)
    requires forall o :: o in orders ==> !IsCapital(o)
    ensures CapitalInvested(orders, target, tickers, countries, respond, period).Fail?
  {
    KeepNone(orders, IsCapital);
  }

  // ------------------------------------------------------------ finish / collect

  /** The figures of `finish`, in its column order. */
  datatype Totals = Totals(
    primaryCapital: real,
    portfolioCost: real,
    marketValue: real,
    paperProfit: real,
    dividends: real,
    liquidatedProfit: real,
    netProfit: real,
    uninvestedCash: real)

  /** `finish`: NetProfit is PaperProfit + Dividends + LiquidatedProfit. The
      selection fails when a step has not run, and the model fails when the
      portfolio had not exactly one cash row, the only case in which the
      frame has one row. */
  function Finished(f: Frame): (r: Result<Totals>)
    ensures r.Ok? <==> f.dividends.Some? && f.liquidatedProfit.Some? && f.primaryCapital.Some?
                       && |f.uninvestedCash| == 1
    ensures r.Ok? ==> r.value.netProfit == r.value.paperProfit + r.value.dividends + r.value.liquidatedProfit
    ensures r.Ok? ==>
      && r.value.primaryCapital == f.primaryCapital.value && r.value.portfolioCost == f.portfolioCost
      && r.value.marketValue == f.marketValue && r.value.paperProfit == f.paperProfit
      && r.value.dividends == f.dividends.value && r.value.liquidatedProfit == f.liquidatedProfit.value
      && r.value.uninvestedCash == f.uninvestedCash[0]
  {
    if f.dividends.None? then Fail(Error("column not found: " + ColumnName(Column.Dividends)))
    else if f.liquidatedProfit.None? then Fail(Error("column not found: " + ColumnName(Column.LiquidatedProfit)))
    else if f.primaryCapital.None? then Fail(Error("column not found: " + ColumnName(Column.PrimaryCapital)))
    else if |f.uninvestedCash| != 1 then Fail(Error("frame heights differ"))
    else
      Ok(Totals(f.primaryCapital.value, f.portfolioCost, f.marketValue, f.paperProfit, f.dividends.value,
             f.liquidatedProfit.value, f.paperProfit + f.dividends.value + f.liquidatedProfit.value,
             f.uninvestedCash[0]))
  }

  /** The columns of `finish`, in order. */
  const Figures: seq<Column> := [Column.PrimaryCapital, Column.PortfolioCost, Column.MarketValue,
    Column.PaperProfit, Column.Dividends, Column.LiquidatedProfit, Column.NetProfit, Column.UninvestedCash]

  function Amounts(t: Totals): seq<real> {
    [t.primaryCapital, t.portfolioCost, t.marketValue, t.paperProfit, t.dividends, t.liquidatedProfit,
     t.netProfit, t.uninvestedCash]
  }

  /** A line of the collected summary. */
  datatype Line = Line(description: string, amount: real, rate: real)

  /** `collect`: the figures transposed to (Description, Amount) lines, each
      with Rate = Amount × 100 / PrimaryCapital. */
  function Lines(t: Totals): (r: seq<Line>)
    ensures |r| == |Figures|
    ensures forall i :: 0 <= i < |r| ==> r[i].description == ColumnName(Figures[i]) && r[i].amount == Amounts(t)[i]
    ensures forall i :: 0 <= i < |r| ==> r[i].rate == Quotient(Amounts(t)[i] * 100.0, t.primaryCapital)
  {
    seq(|Figures|, i requires 0 <= i < |Figures| =>
      Line(ColumnName(Figures[i]), Amounts(t)[i], Quotient(Amounts(t)[i] * 100.0, t.primaryCapital)))
  }

  /** Each rate is the figure as a percentage of the capital paid in, and the
      PrimaryCapital line, first, has rate 100. */
  lemma RatesOfCapital(t: Totals)
    requires t.primaryCapital != 0.0
    ensures Lines(t)[0].description == "PrimaryCapital" && Lines(t)[0].rate == 100.0
    ensures forall i :: 0 <= i < |Lines(t)| ==> Lines(t)[i].rate * t.primaryCapital == Lines(t)[i].amount * 100.0
  {
    var r := Lines(t);
    forall i | 0 <= i < |r| ensures r[i].rate * t.primaryCapital == r[i].amount * 100.0 {
      QuotientMul(Amounts(t)[i] * 100.0, t.primaryCapital);
    }
    QuotientMul(t.primaryCapital * 100.0, t.primaryCapital);
  }

  function CollectFrame(f: Frame): Result<seq<Line>> {
    var t := Finished(f);
    if t.Fail? then Fail(t.failure) else Ok(Lines(t.value))
  }

  // ------------------------------------------------------------ the builder

  class Summary {
    var data: Frame

    constructor FromPortfolio(portfolio: seq<Report>)
      ensures data == PortfolioFrame(portfolio)
    {
      data := PortfolioFrame(portfolio);
    }

    /** Each step either fails, leaving the frame as it was, or replaces it. */
    method WithDividends(dividends: seq<(string, real)>) returns (failure: Option<Failure>)
      modifies this
      ensures var r := DividendsAdded(old(data), dividends);
        if r.Ok? then failure.None? && data == r.value else failure == Some(r.failure) && data == old(data)
    {
      var r := DividendsAdded(data, dividends);
      if r.Fail? {
        return Some(r.failure);
      }
      data := r.value;
      failure := None;
    }

    method WithLiquidatedProfit(profit: seq<ProfitRow>) returns (failure: Option<Failure>)
      modifies this
      ensures var r := ProfitAdded(old(data), profit);
        if r.Ok? then failure.None? && data == r.value else failure == Some(r.failure) && data == old(data)
    {
      var r := ProfitAdded(data, profit);
      if r.Fail? {
        return Some(r.failure);
      }
      data := r.value;
      failure := None;
    }

    /** `with_capital_invested`: the deposits and withdrawals of `orders`
        converted into `target` through `scraper`, which is left as the
        conversion leaves it. */
    method WithCapitalInvested(orders: seq<Order>, target: Currency, scraper: Provider,
                               present: Option<Date>, today: Date) returns (failure: Option<Failure>)
      modifies this, scraper
      ensures var r := WithCapital(old(data), CapitalInvested(orders, target, old(scraper.tickers),
                                   old(scraper.countries), scraper.respond, QuoteWindow(present, today)));
        if r.Ok? then failure.None? && data == r.value else failure == Some(r.failure) && data == old(data)
    ensures ProviderState(scraper.tickers, scraper.countries, scraper.requests) ==
      StateAfter(CapitalFlows(orders), CapitalColumns(), target,
                 old(ProviderState(scraper.tickers, scraper.countries, scraper.requests)),
                 scraper.respond, QuoteWindow(present, today))
    {
      var flows := Normalize(CapitalFlows(orders), CapitalColumns(), target, scraper, present, today);
      var capital := if flows.Fail? then Fail(flows.failure) else Ok(SumOf(flows.value, OrderAmount));
      var r := WithCapital(data, capital);
      if r.Fail? {
        return Some(r.failure);
      }
      data := r.value;
      failure := None;
    }

    method Finish() returns (r: Result<Totals>)
      ensures r == Finished(data)
    {
      r := Finished(data);
    }

    method Collect() returns (r: Result<seq<Line>>)
      ensures r == CollectFrame(data)
    {
      r := CollectFrame(data);
    }
  }
}
