/** Row filters on the Action column (`utils::polars::filter`). Each is an
    exact comparison with an action's name. */
module Filter {
  import opened Wrappers
  import opened Schema

  predicate IsBuy(action: string) { action == ActionName(Action.Buy) }
  predicate IsSell(action: string) { action == ActionName(Action.Sell) }
  predicate IsSplit(action: string) { action == ActionName(Action.Split) }
  predicate BuyOrSell(action: string) { IsBuy(action) || IsSell(action) }
  predicate BuyOrSellOrSplit(action: string) { BuyOrSell(action) || IsSplit(action) }
  predicate DepositOrWithdraw(action: string) {
    action == ActionName(Action.Deposit) || action == ActionName(Action.Withdraw)
  }

  /** The rows `buy_or_sell_or_split` keeps are exactly those whose action
      parses as Buy, Sell or Split. */
  lemma BuyOrSellOrSplitParses(action: string)
    ensures BuyOrSellOrSplit(action) <==>
      ParseAction(action) in {Some(Action.Buy), Some(Action.Sell), Some(Action.Split)}
  {
  }
}

/** Derived columns (`utils::polars::compute`). Float64 division by zero
    gives infinity or NaN; here a zero divisor gives 0. */
module Compute {
  import opened Series
  import opened Text
  import opened Schema

  /** `a / b`, with 0 when `b` is zero. */
  function Quotient(a: real, b: real): real {
    if b == 0.0 then 0.0 else a / b
  }

  lemma QuotientMul(a: real, b: real)
    requires b != 0.0
    ensures Quotient(a, b) * b == a
  {
  }

  function PaperProfitRate(marketPrice: real, averagePrice: real): real {
    (Quotient(marketPrice, averagePrice) - 1.0) * 100.0
  }

  function PaperProfit(marketPrice: real, averagePrice: real, qty: real): real {
    (marketPrice - averagePrice) * qty
  }

  function MarketValue(marketPrice: real, qty: real): real {
    marketPrice * qty
  }

  function Profit(paperProfit: real, dividends: real): real {
    paperProfit + dividends
  }

  /** `Profit / Amount * 100`, with NaN (0 / 0) replaced by 0. */
  function ProfitRate(profit: real, amount: real): real {
    Quotient(profit, amount) * 100.0
  }

  /** The profit of a sale: sale price minus the average cost, per unit sold. */
  function SellProfit(price: real, averagePrice: real, qty: real): real {
    (price - averagePrice) * qty
  }

  /** The paper profit is what the position is worth minus what it cost. */
  lemma PaperProfitIsGain(marketPrice: real, averagePrice: real, qty: real)
    ensures PaperProfit(marketPrice, averagePrice, qty) ==
      MarketValue(marketPrice, qty) - averagePrice * qty
  {
  }

  /** A position in profit has a positive paper-profit rate and vice versa. */
  lemma PaperProfitRateSign(marketPrice: real, averagePrice: real, qty: real)
    requires averagePrice > 0.0 && qty > 0.0
    ensures PaperProfitRate(marketPrice, averagePrice) > 0.0 <==>
      PaperProfit(marketPrice, averagePrice, qty) > 0.0
  {
    assert marketPrice / averagePrice > 1.0 <==> marketPrice > averagePrice;
  }

  /** The profit rate is the profit as a percentage of the amount invested. */
  lemma ProfitRateIsPercentage(profit: real, amount: real)
    requires amount != 0.0
    ensures ProfitRate(profit, amount) * amount == profit * 100.0
  {
  }

  /** Sale proceeds minus the cost basis of the units sold. */
  lemma SellProfitIsProceedsMinusCost(price: real, averagePrice: real, qty: real)
    ensures SellProfit(price, averagePrice, qty) == price * qty - averagePrice * qty
  {
  }

  /** `negative_qty_on_sell`: the quantity is negated when the action
      contains "Sell" anywhere. */
  function NegativeQtyOnSell(action: string, qty: real): real {
    if Contains(action, "Sell") then -qty else qty
  }

  /** `negative_amount_on_withdraw`. */
  function NegativeAmountOnWithdraw(action: string, amount: real): real {
    if Contains(action, "Withdraw") then -amount else amount
  }

  /** `negative_amount_on_tax`. */
  function NegativeAmountOnTax(action: string, amount: real): real {
    if Contains(action, "Tax") then -amount else amount
  }

  /** Substring matching and exact matching agree on the names of actions:
      the only action name containing "Withdraw", "Tax", "Buy" or "Fee" is that
      name itself, since no other name has its first letter. */
  lemma OnlyOwnName(a: Action, b: Action)
    requires b in {Action.Withdraw, Action.Tax, Action.Buy, Action.Fee}
    ensures Contains(ActionName(a), ActionName(b)) <==> a == b
  {
    if a == b {
      ContainsSelf(ActionName(a));
    } else {
      FirstCharAbsent(ActionName(a), ActionName(b));
    }
  }

  /** Likewise for "Sell", which also has its first letter in "Split". */
  lemma OnlySellContainsSell(a: Action)
    ensures Contains(ActionName(a), "Sell") <==> a == Action.Sell
  {
    if a == Action.Sell {
      ContainsSelf("Sell");
    } else if a == Action.Split {
      ShorterAbsent("lit", "Sell");
      assert "plit"[..4][0] != 'S' && "plit"[1..] == "lit";
      assert "Split"[..4][1] != 'e' && "Split"[1..] == "plit";
    } else {
      FirstCharAbsent(ActionName(a), "Sell");
    }
  }

  /** Each sign flip is its own inverse: applied twice to a row it gives
      the value back. */
  lemma NegationsUndo(action: string, x: real)
    ensures NegativeQtyOnSell(action, NegativeQtyOnSell(action, x)) == x
    ensures NegativeAmountOnWithdraw(action, NegativeAmountOnWithdraw(action, x)) == x
    ensures NegativeAmountOnTax(action, NegativeAmountOnTax(action, x)) == x
  {
  }

  /** Hence the negation helpers agree with an exact comparison on action
      names, and keep the magnitude. */
  lemma NegationsMatchExactly(a: Action, x: real)
    ensures NegativeQtyOnSell(ActionName(a), x) == (if a == Action.Sell then -x else x)
    ensures NegativeAmountOnWithdraw(ActionName(a), x) == (if a == Action.Withdraw then -x else x)
    ensures NegativeAmountOnTax(ActionName(a), x) == (if a == Action.Tax then -x else x)
  {
    SellFlip(a, x);
    OwnNameFlip(a, Action.Withdraw, x);
    OwnNameFlip(a, Action.Tax, x);
  }

  lemma SellFlip(a: Action, x: real)
    ensures NegativeQtyOnSell(ActionName(a), x) == (if a == Action.Sell then -x else x)
  {
    OnlySellContainsSell(a);
  }

  lemma OwnNameFlip(a: Action, b: Action, x: real)
    requires b == Action.Withdraw || b == Action.Tax
    ensures b == Action.Withdraw ==> NegativeAmountOnWithdraw(ActionName(a), x) == (if a == b then -x else x)
    ensures b == Action.Tax ==> NegativeAmountOnTax(ActionName(a), x) == (if a == b then -x else x)
  {
    OnlyOwnName(a, b);
  }

  /** `allocation`: each position's market value as a percentage of the
      total market value of the table. */
  function Allocation(marketValues: seq<real>): (r: seq<real>)
    ensures |r| == |marketValues|
  {
    var total := Sum(marketValues);
    seq(|marketValues|, i requires 0 <= i < |marketValues| => Quotient(marketValues[i] * 100.0, total))
  }

  /** The allocations add up to 100 whenever the total market value is not zero. */
  lemma AllocationSumsTo100(marketValues: seq<real>)
    requires Sum(marketValues) != 0.0
    ensures Sum(Allocation(marketValues)) == 100.0
  {
    var total := Sum(marketValues);
    var a := Allocation(marketValues);
    forall i | 0 <= i < |a| ensures a[i] == marketValues[i] * (100.0 / total) {
      assert a[i] == marketValues[i] * 100.0 / total;
    }
    ScaledSum(marketValues, a, 100.0 / total);
  }

  lemma {:induction false} ScaledSum(s: seq<real>, t: seq<real>, k: real)
    requires |t| == |s|
    requires forall i :: 0 <= i < |s| ==> t[i] == s[i] * k
    ensures Sum(t) == Sum(s) * k
    decreases |s|
  {
    if |s| > 0 {
      ScaledSum(s[..|s| - 1], t[..|t| - 1], k);
    }
  }
}

/** `map_column_str_to_f64`: replace each key of a string column by its
    value in a map; a key missing from the map panics ("Map incomplete"). */
module ColumnMap {
  import opened Wrappers

  function MapColumnStrToF64(keys: seq<string>, m: map<string, real>): (r: Result<seq<real>>)
    ensures r.Ok? <==> forall i :: 0 <= i < |keys| ==> keys[i] in m
    ensures r.Ok? ==> |r.value| == |keys| && forall i :: 0 <= i < |keys| ==> r.value[i] == m[keys[i]]
    ensures r.Fail? ==> r.failure.Panic?
    decreases |keys|
  {
    if |keys| == 0 then Ok([])
    else if keys[0] !in m then Fail(Panic("Map incomplete"))
    else
      match MapColumnStrToF64(keys[1..], m)
      case Fail(f) => Fail(f)
      case Ok(rest) => Ok([m[keys[0]]] + rest)
  }
}

/** `transform::pivot_year_months`: a table of (Date, value) rows turned
    into one row per year and one column per month that occurs, each cell
    the sum of that year's and month's values, followed by a Total column
    (the row's sum) and a Total row (each column's sum). Years appear in the
    order they first occur; months in ascending order. */
module Transform {
  import opened Calendar
  import opened Series
  import opened IntSets
  import opened Text

  /** A row after the Year and Month columns were added: (year, month, value). */
  type Entry = (int, int, real)

  datatype PivotRow = PivotRow(year: string, cells: seq<real>, total: real)
  datatype Pivot = Pivot(columns: seq<string>, rows: seq<PivotRow>)

  function YearKey(e: Entry): int { e.0 }
  function MonthKey(e: Entry): int { e.1 }
  function Value(e: Entry): real { e.2 }

  /** The first step: `Date.dt().year()` and `Date.dt().month()` as columns. */
  function WithYearMonth(data: seq<(Date, real)>): (r: seq<Entry>)
    ensures |r| == |data|
  {
    MapSeq(data, (e: (Date, real)) => (YearOf(e.0), MonthOf(e.0), e.1))
  }

  function PivotYearMonths(data: seq<(Date, real)>): Pivot {
    PivotOf(WithYearMonth(data))
  }

  /** The months that occur, each once, in ascending order. */
  function Months(data: seq<Entry>): (ms: seq<int>)
    ensures Increasing(ms)
    ensures forall m :: m in ms <==> exists e :: e in data && MonthKey(e) == m
  {
    var present := MapSeq(data, MonthKey);
    assert forall m :: m in present <==> exists e :: e in data && MonthKey(e) == m by {
      forall m ensures m in present <==> exists e :: e in data && MonthKey(e) == m {
        if m in present {
          var i :| 0 <= i < |present| && present[i] == m;
          assert data[i] in data;
        }
        if exists e :: e in data && MonthKey(e) == m {
          var e :| e in data && MonthKey(e) == m;
          var i :| 0 <= i < |data| && data[i] == e;
          assert present[i] == m;
        }
      }
    }
    SortDistinct(UniqueStable(present))
  }

  /** The years that occur, each once, in order of first occurrence. */
  function Years(data: seq<Entry>): seq<int> {
    UniqueStable(MapSeq(data, YearKey))
  }

  function Cells(yearRows: seq<Entry>, months: seq<int>): (r: seq<real>)
    ensures |r| == |months|
    ensures forall j :: 0 <= j < |months| ==> r[j] == SumWhere(yearRows, MonthKey, months[j], Value)
  {
    if |months| == 0 then []
    else Cells(yearRows, months[..|months| - 1]) + [SumWhere(yearRows, MonthKey, months[|months| - 1], Value)]
  }

  function BodyRow(data: seq<Entry>, months: seq<int>, y: int): (r: PivotRow)
    ensures |r.cells| == |months|
  {
    var cells := Cells(Group(data, YearKey, y), months);
    PivotRow(IntToString(y), cells, Sum(cells))
  }

  function Body(data: seq<Entry>, months: seq<int>, years: seq<int>): (r: seq<PivotRow>)
    ensures |r| == |years|
    ensures forall i :: 0 <= i < |years| ==> r[i] == BodyRow(data, months, years[i])
  {
    seq(|years|, i requires 0 <= i < |years| => BodyRow(data, months, years[i]))
  }

  /** The body without its last year is the body of the other years. */
  lemma BodyPrefix(data: seq<Entry>, months: seq<int>, years: seq<int>)
    requires |years| > 0
    ensures Body(data, months, years)[..|years| - 1] == Body(data, months, years[..|years| - 1])
  {
  }

  /** Column `j` summed over the rows. */
  function ColumnTotal(rows: seq<PivotRow>, j: nat): real {
    if |rows| == 0 then 0.0
    else
      var last := rows[|rows| - 1];
      ColumnTotal(rows[..|rows| - 1], j) + (if j < |last.cells| then last.cells[j] else 0.0)
  }

  function TotalsTotal(rows: seq<PivotRow>): real {
    if |rows| == 0 then 0.0 else TotalsTotal(rows[..|rows| - 1]) + rows[|rows| - 1].total
  }

  function PivotOf(data: seq<Entry>): (p: Pivot)
    ensures |p.rows| == |Years(data)| + 1
    ensures |p.columns| == |Months(data)| + 2
    ensures p.rows[|p.rows| - 1].year == "Total"
    ensures forall i :: 0 <= i < |p.rows| ==> |p.rows[i].cells| == |Months(data)|
  {
    var months := Months(data);
    var body := Body(data, months, Years(data));
    var totalRow := PivotRow("Total",
      seq(|months|, j requires 0 <= j < |months| => ColumnTotal(body, j)), TotalsTotal(body));
    var rows := body + [totalRow];
    assert forall i :: 0 <= i < |rows| ==> |rows[i].cells| == |months| by {
      forall i | 0 <= i < |rows| ensures |rows[i].cells| == |months| {
        if i < |body| { assert rows[i] == body[i] == BodyRow(data, months, Years(data)[i]); }
        else { assert rows[i] == totalRow; }
      }
    }
    Pivot(["Year"] + MapSeq(months, MonthName) + ["Total"], rows)
  }

  lemma {:induction false} SumCells(yearRows: seq<Entry>, months: seq<int>)
    ensures Sum(Cells(yearRows, months)) == SumOverGroups(yearRows, MonthKey, months, Value)
    decreases |months|
  {
    if |months| > 0 {
      var c := Cells(yearRows, months);
      assert c[..|c| - 1] == Cells(yearRows, months[..|months| - 1]);
      SumCells(yearRows, months[..|months| - 1]);
    }
  }

  lemma {:induction false} SumTotals(data: seq<Entry>, months: seq<int>, years: seq<int>)
    requires forall e :: e in data ==> MonthKey(e) in months
    requires Increasing(months)
    ensures TotalsTotal(Body(data, months, years)) == SumOverGroups(data, YearKey, years, Value)
    decreases |years|
  {
    if |years| > 0 {
      var b := Body(data, months, years);
      BodyPrefix(data, months, years);
      SumTotals(data, months, years[..|years| - 1]);
      var y := years[|years| - 1];
      PivotRowTotal(data, months, y);
      assert b[|b| - 1] == BodyRow(data, months, y);
      assert TotalsTotal(b) == TotalsTotal(b[..|b| - 1]) + b[|b| - 1].total;
    }
  }

  /** Each year's Total is the sum of that year's values. */
  lemma PivotRowTotal(data: seq<Entry>, months: seq<int>, y: int)
    requires forall e :: e in data ==> MonthKey(e) in months
    requires Increasing(months)
    ensures BodyRow(data, months, y).total == SumWhere(data, YearKey, y, Value)
  {
    var rows := Group(data, YearKey, y);
    SumCells(rows, months);
    forall i, j | 0 <= i < j < |months| ensures months[i] != months[j] { }
    GroupSumsPartition(rows, MonthKey, months, Value);
  }

  /** The Total row's Total is the sum of every value in the table. */
  lemma PivotGrandTotal(data: seq<Entry>)
    ensures var p := PivotOf(data); p.rows[|p.rows| - 1].total == SumOf(data, Value)
  {
    var months := Months(data);
    var years := Years(data);
    SumTotals(data, months, years);
    forall e | e in data ensures YearKey(e) in years {
      var i :| 0 <= i < |data| && data[i] == e;
      assert MapSeq(data, YearKey)[i] == YearKey(e);
    }
    GroupSumsPartition(data, YearKey, years, Value);
  }

  /** In the Total row, each month's cell is the sum of that month's values
      over all years. */
  lemma PivotMonthTotal(data: seq<Entry>, j: nat)
    requires j < |Months(data)|
    ensures var p := PivotOf(data);
      p.rows[|p.rows| - 1].cells[j] == SumWhere(data, MonthKey, Months(data)[j], Value)
  {
    var months := Months(data);
    var years := Years(data);
    var m := months[j];
    forall e | e in Group(data, MonthKey, m) ensures YearKey(e) in years {
      var i :| 0 <= i < |data| && data[i] == e;
      assert MapSeq(data, YearKey)[i] == YearKey(e);
    }
    ColumnOverYears(data, months, years, j);
    GroupSumsPartition(Group(data, MonthKey, m), YearKey, years, Value);
  }

  lemma {:induction false} ColumnOverYears(data: seq<Entry>, months: seq<int>, years: seq<int>, j: nat)
    requires j < |months|
    ensures ColumnTotal(Body(data, months, years), j)
      == SumOverGroups(Group(data, MonthKey, months[j]), YearKey, years, Value)
    decreases |years|
  {
    if |years| > 0 {
      var b := Body(data, months, years);
      BodyPrefix(data, months, years);
      var y := years[|years| - 1];
      ColumnOverYears(data, months, years[..|years| - 1], j);
      ColumnCell(data, months, y, j);
      assert b[|b| - 1] == BodyRow(data, months, y);
      assert ColumnTotal(b, j) == ColumnTotal(b[..|b| - 1], j) + b[|b| - 1].cells[j];
    }
  }

  /** One year's cell in column `j` is that month's sum over the year. */
  lemma ColumnCell(data: seq<Entry>, months: seq<int>, y: int, j: nat)
    requires j < |months|
    ensures BodyRow(data, months, y).cells[j] == SumWhere(Group(data, MonthKey, months[j]), YearKey, y, Value)
  {
    GroupCommute(data, YearKey, y, MonthKey, months[j]);
    assert BodyRow(data, months, y).cells[j] == SumWhere(Group(data, YearKey, y), MonthKey, months[j], Value);
  }

  /** An increasing sequence holding exactly three values is those three in
      order. */
  lemma IncreasingThree(ms: seq<int>, a: int, b: int, c: int)
    requires a < b < c && Increasing(ms)
    requires forall m :: m in ms <==> m == a || m == b || m == c
    ensures ms == [a, b, c]
  {
    assert a in ms && b in ms && c in ms;
    var k :| 0 <= k < |ms| && ms[k] == c;
    assert |ms| >= 3 by {
      var i :| 0 <= i < |ms| && ms[i] == a;
      var j :| 0 <= j < |ms| && ms[j] == b;
      assert i < j < k;
    }
    assert ms[0] in ms && ms[1] in ms && ms[2] in ms;
    assert ms[0] < ms[1] < ms[2];
    assert ms[0] == a && ms[1] == b && ms[2] == c;
    var last := ms[|ms| - 1];
    assert last in ms;
    assert last <= c;
  }

  /** One value three times has that value as its only distinct one. */
  lemma UniqueOfOne(y: int)
    ensures UniqueStable([y, y, y]) == [y]
  {
    var s := [y, y, y];
    assert s[..2] == [y, y] && s[..2][..1] == [y] && s[..2][..1][..0] == [];
    assert UniqueStable<int>([]) == [];
    assert UniqueStable([y]) == [y];
    assert UniqueStable([y, y]) == [y];
  }

  /** The group of three entries, written out. */
  lemma GroupThree<K>(x: Entry, y: Entry, z: Entry, key: Entry -> K, k: K)
    ensures Group([x, y, z], key, k) ==
      (if key(x) == k then [x] else []) + (if key(y) == k then [y] else []) + (if key(z) == k then [z] else [])
  {
    GroupAddLast([], x, key, k);
    assert [] + [x] == [x];
    GroupAddLast([x], y, key, k);
    assert [x] + [y] == [x, y];
    GroupAddLast([x, y], z, key, k);
    assert [x, y] + [z] == [x, y, z];
  }

  /** The sum of one key's values over three entries, written out. */
  lemma SumWhereThree(x: Entry, y: Entry, z: Entry, key: Entry -> int, k: int)
    ensures SumWhere([x, y, z], key, k, Value) ==
      (if key(x) == k then x.2 else 0.0) + (if key(y) == k then y.2 else 0.0) + (if key(z) == k then z.2 else 0.0)
  {
    SumWhereAddLast([], x, key, k, Value);
    assert [] + [x] == [x];
    assert Group([], key, k) == [];
    SumWhereAddLast([x], y, key, k, Value);
    assert [x] + [y] == [x, y];
    SumWhereAddLast([x, y], z, key, k, Value);
    assert [x, y] + [z] == [x, y, z];
  }

  /** The rows of the pivot before the Total row are the body, and the
      columns are Year, the month names and Total. */
  lemma PivotParts(data: seq<Entry>)
    ensures var p := PivotOf(data);
      && p.rows[..|Years(data)|] == Body(data, Months(data), Years(data))
      && p.columns == ["Year"] + MapSeq(Months(data), MonthName) + ["Total"]
  {
  }

  /** The pivot of one year with one entry in each of three months: a row
      for the year with the three values and their sum, and a Total row
      alike. */
  lemma PivotOneYear(y: int, m1: int, m2: int, m3: int, a: real, b: real, c: real)
    requires m1 < m2 < m3
    ensures PivotOf([(y, m1, a), (y, m2, b), (y, m3, c)]) ==
      Pivot(["Year", MonthName(m1), MonthName(m2), MonthName(m3), "Total"],
            [PivotRow(IntToString(y), [a, b, c], a + b + c), PivotRow("Total", [a, b, c], a + b + c)])
  {
    var data := [(y, m1, a), (y, m2, b), (y, m3, c)];
    var months := Months(data);
    var years := Years(data);
    OneYearKeys(y, m1, m2, m3, a, b, c);
    var p := PivotOf(data);
    PivotParts(data);
    var row := PivotRow(IntToString(y), [a, b, c], a + b + c);
    OneYearRow(y, m1, m2, m3, a, b, c);
    assert p.rows[0] == Body(data, months, years)[0] == row;
    var total := PivotRow("Total", [a, b, c], a + b + c);
    OneYearTotal(y, m1, m2, m3, a, b, c);
    assert p.rows == [row, total];
    assert MapSeq(months, MonthName) == [MonthName(m1), MonthName(m2), MonthName(m3)];
  }

  /** The months and years of such a table. */
  lemma OneYearKeys(y: int, m1: int, m2: int, m3: int, a: real, b: real, c: real)
    requires m1 < m2 < m3
    ensures var data := [(y, m1, a), (y, m2, b), (y, m3, c)];
      Months(data) == [m1, m2, m3] && Years(data) == [y]
  {
    var data := [(y, m1, a), (y, m2, b), (y, m3, c)];
    var months := Months(data);
    IncreasingThree(months, m1, m2, m3) by {
      forall m ensures m in months <==> m == m1 || m == m2 || m == m3 {
        assert (exists e :: e in data && MonthKey(e) == m) <==> m == m1 || m == m2 || m == m3 by {
          if m == m1 { assert data[0] in data; }
          if m == m2 { assert data[1] in data; }
          if m == m3 { assert data[2] in data; }
        }
      }
    }
    assert MapSeq(data, YearKey) == [y, y, y];
    UniqueOfOne(y);
  }

  /** The year's row of such a table. */
  lemma OneYearRow(y: int, m1: int, m2: int, m3: int, a: real, b: real, c: real)
    requires m1 < m2 < m3
    ensures BodyRow([(y, m1, a), (y, m2, b), (y, m3, c)], [m1, m2, m3], y) ==
      PivotRow(IntToString(y), [a, b, c], a + b + c)
  {
    var data := [(y, m1, a), (y, m2, b), (y, m3, c)];
    GroupThree(data[0], data[1], data[2], YearKey, y);
    assert Group(data, YearKey, y) == data;
    SumWhereThree(data[0], data[1], data[2], MonthKey, m1);
    SumWhereThree(data[0], data[1], data[2], MonthKey, m2);
    SumWhereThree(data[0], data[1], data[2], MonthKey, m3);
    var cells := Cells(data, [m1, m2, m3]);
    assert cells == [a, b, c];
    SumThree(a, b, c);
  }

  lemma SumThree(a: real, b: real, c: real)
    ensures Sum([a, b, c]) == a + b + c
  {
    assert [a, b, c][..2] == [a, b] && [a, b][..1] == [a] && [a][..0] == [];
    assert Sum([a]) == a;
    assert Sum([a, b]) == a + b;
  }

  /** The Total row of such a table. */
  lemma OneYearTotal(y: int, m1: int, m2: int, m3: int, a: real, b: real, c: real)
    requires m1 < m2 < m3
    requires var data := [(y, m1, a), (y, m2, b), (y, m3, c)];
      Months(data) == [m1, m2, m3] && Years(data) == [y]
    ensures var p := PivotOf([(y, m1, a), (y, m2, b), (y, m3, c)]);
      p.rows[1] == PivotRow("Total", [a, b, c], a + b + c)
  {
    var data := [(y, m1, a), (y, m2, b), (y, m3, c)];
    var p := PivotOf(data);
    OneYearTotalCells(y, m1, m2, m3, a, b, c);
    PivotGrandTotal(data);
    SumOfThree(data);
  }

  lemma OneYearTotalCells(y: int, m1: int, m2: int, m3: int, a: real, b: real, c: real)
    requires m1 < m2 < m3
    requires var data := [(y, m1, a), (y, m2, b), (y, m3, c)];
      Months(data) == [m1, m2, m3] && Years(data) == [y]
    ensures PivotOf([(y, m1, a), (y, m2, b), (y, m3, c)]).rows[1].cells == [a, b, c]
  {
    OneYearTotalCell(y, m1, m2, m3, a, b, c, 0);
    OneYearTotalCell(y, m1, m2, m3, a, b, c, 1);
    OneYearTotalCell(y, m1, m2, m3, a, b, c, 2);
  }

  lemma OneYearTotalCell(y: int, m1: int, m2: int, m3: int, a: real, b: real, c: real, j: nat)
    requires m1 < m2 < m3 && j < 3
    requires var data := [(y, m1, a), (y, m2, b), (y, m3, c)];
      Months(data) == [m1, m2, m3] && Years(data) == [y]
    ensures PivotOf([(y, m1, a), (y, m2, b), (y, m3, c)]).rows[1].cells[j] == [a, b, c][j]
  {
    var data := [(y, m1, a), (y, m2, b), (y, m3, c)];
    PivotMonthTotal(data, j);
    SumWhereThree(data[0], data[1], data[2], MonthKey, [m1, m2, m3][j]);
  }

  lemma SumOfThree(data: seq<Entry>)
    requires |data| == 3
    ensures SumOf(data, Value) == data[0].2 + data[1].2 + data[2].2
  {
    assert data[..2] == [data[0], data[1]] && data[..2][..1] == [data[0]] && data[..2][..1][..0] == [];
    assert SumOf([data[0]], Value) == data[0].2;
    assert SumOf([data[0], data[1]], Value) == data[0].2 + data[1].2;
  }
}
