/** The Trading212 loader: the broker's action descriptions classified by
    their first two words, its CSV export completed with defaults for the
    columns it may omit, and each row turned into a ledger row. */
module Trading212 {
  import opened Wrappers
  import opened Calendar
  import opened Text
  import opened Series
  import opened Schema
  import opened Orders
  import opened Compute
  import opened Broker

  // ------------------------------------------------------------ map_action

  /** The words `map_action` looks at: the first two of the description. */
  function Head(s: string): (w: seq<string>)
    ensures |w| <= 2
  {
    Take(Words(s), 2)
  }

  /** `map_action`: "Deposit" and "Withdrawal" alone; a second word "buy" or
      "sell"; then a first word "Dividend" or "Interest" with some second
      word. Anything else panics. */
  function MapAction(s: string): (r: Result<Action>)
    ensures r.Ok? ==> r.value in {Deposit, Withdraw, Buy, Sell, Dividend, Interest}
    ensures r == Ok(Deposit) <==> Head(s) == ["Deposit"]
    ensures r == Ok(Withdraw) <==> Head(s) == ["Withdrawal"]
    ensures r == Ok(Buy) <==> |Head(s)| == 2 && Head(s)[1] == "buy"
    ensures r == Ok(Sell) <==> |Head(s)| == 2 && Head(s)[1] == "sell"
    ensures r == Ok(Dividend) <==> |Head(s)| == 2 && Head(s)[0] == "Dividend" && Head(s)[1] !in {"buy", "sell"}
    ensures r == Ok(Interest) <==> |Head(s)| == 2 && Head(s)[0] == "Interest" && Head(s)[1] !in {"buy", "sell"}
    ensures r.Fail? ==> r == Fail(Panic("Unknown " + s))
  {
    var w := Head(s);
    if w == ["Deposit"] then Ok(Deposit)
    else if w == ["Withdrawal"] then Ok(Withdraw)
    else if |w| == 2 && w[1] == "buy" then Ok(Buy)
    else if |w| == 2 && w[1] == "sell" then Ok(Sell)
    else if |w| == 2 && w[0] == "Dividend" then Ok(Dividend)
    else if |w| == 2 && w[0] == "Interest" then Ok(Interest)
    else Fail(Panic("Unknown " + s))
  }

  /** Only the first two words decide the action: descriptions that agree
      on them map alike (the panic message quotes the whole text). */
  lemma FirstTwoWordsDecide(s: string, t: string)
    requires Head(s) == Head(t)
    ensures MapAction(s).Ok? <==> MapAction(t).Ok?
    ensures MapAction(s).Ok? ==> MapAction(s) == MapAction(t)
  {
  }

  /** Market and limit orders are told by their second word. */
  lemma MarketBuy()
    ensures MapAction("Market buy") == Ok(Buy)
  {
    MarketBuyHead();
  }

  lemma MarketBuyHead()
    ensures Head("Market buy") == ["Market", "buy"]
  {
    PrintableWord("Market");
    PrintableWord("buy");
    TwoWords("Market", "buy");
    MarketBuySpelled();
  }

  lemma MarketBuySpelled()
    ensures "Market" + " " + "buy" == "Market buy"
  {
  }

  lemma LimitSell()
    ensures MapAction("Limit sell") == Ok(Sell)
  {
    LimitSellHead();
  }

  lemma LimitSellHead()
    ensures Head("Limit sell") == ["Limit", "sell"]
  {
    PrintableWord("Limit");
    PrintableWord("sell");
    TwoWords("Limit", "sell");
    LimitSellSpelled();
  }

  lemma LimitSellSpelled()
    ensures "Limit" + " " + "sell" == "Limit sell"
  {
  }

  /** Dividends and interest are told by their first word, whatever
      follows. */
  lemma OrdinaryDividend()
    ensures MapAction("Dividend (Ordinary)") == Ok(Dividend)
  {
    OrdinaryDividendHead();
  }

  lemma OrdinaryDividendHead()
    ensures Head("Dividend (Ordinary)") == ["Dividend", "(Ordinary)"]
  {
    PrintableWord("Dividend");
    PrintableWord("(Ordinary)");
    TwoWords("Dividend", "(Ordinary)");
    OrdinaryDividendSpelled();
  }

  lemma OrdinaryDividendSpelled()
    ensures "Dividend" + " " + "(Ordinary)" == "Dividend (Ordinary)"
  {
  }

  lemma InterestOnCashHead()
    ensures Head("Interest on cash") == ["Interest", "on"]
  {
    PrintableWord("Interest");
    PrintableWord("on");
    PrintableWord("cash");
    ThreeWords("Interest", "on", "cash");
    InterestOnCashSpelled();
    assert ["Interest", "on", "cash"][..2] == ["Interest", "on"];
  }

  lemma InterestOnCashSpelled()
    ensures "Interest" + " " + "on" + " " + "cash" == "Interest on cash"
  {
  }

  lemma InterestOnCash()
    ensures MapAction("Interest on cash") == Ok(Interest)
  {
    InterestOnCashHead();
    assert "on" != "buy" && "on" != "sell";
  }

  /** A second word "buy" wins over a first word "Dividend". */
  lemma BuyBeforeDividend()
    ensures MapAction("Dividend buy") == Ok(Buy)
  {
    BuyBeforeDividendHead();
  }

  lemma BuyBeforeDividendHead()
    ensures Head("Dividend buy") == ["Dividend", "buy"]
  {
    PrintableWord("Dividend");
    PrintableWord("buy");
    TwoWords("Dividend", "buy");
    BuyBeforeDividendSpelled();
  }

  lemma BuyBeforeDividendSpelled()
    ensures "Dividend" + " " + "buy" == "Dividend buy"
  {
  }

  /** A deposit is the single word. */
  lemma DepositAlone()
    ensures MapAction("Deposit") == Ok(Deposit)
  {
    PrintableWord("Deposit");
    WordThen("Deposit", "");
    assert "Deposit" + "" == "Deposit";
    assert Head("Deposit") == ["Deposit"];
  }

  /** With a further word a deposit is not recognised, and the load panics. */
  lemma DepositWithMore()
    ensures MapAction("Deposit funds").Fail?
  {
    DepositWithMoreHead();
  }

  lemma DepositWithMoreHead()
    ensures Head("Deposit funds") == ["Deposit", "funds"]
  {
    PrintableWord("Deposit");
    PrintableWord("funds");
    TwoWords("Deposit", "funds");
    DepositWithMoreSpelled();
  }

  lemma DepositWithMoreSpelled()
    ensures "Deposit" + " " + "funds" == "Deposit funds"
  {
  }

  /** The "Unknown" that stands for a null action panics. */
  lemma NullActionPanics()
    ensures MapAction("Unknown").Fail?
  {
    PrintableWord("Unknown");
    WordThen("Unknown", "");
    assert "Unknown" + "" == "Unknown";
    assert Head("Unknown") == ["Unknown"];
  }

  // ------------------------------------------------------------ the CSV export

  /** A CSV cell as the reader types it; an empty field is null. */
  datatype Cell = Text(s: string) | Number(x: real) | Null

  type Row = map<string, Cell>

  datatype Csv = Csv(header: seq<string>, rows: seq<Row>)

  /** A cell of a row; a column the row lacks reads as null. */
  function Get(row: Row, name: string): Cell {
    if name in row then row[name] else Null
  }

  /** A column the export may lack and the value it then gets. */
  datatype OptionalColumn = OptionalColumn(name: string, default: Cell)

  /** The optional columns of `load_from_csv`, with their defaults. */
  const OptionalColumns: seq<OptionalColumn> := [
    OptionalColumn("Stamp duty reserve tax", Number(0.0)),
    OptionalColumn("Withholding tax", Number(0.0)),
    OptionalColumn("Currency conversion fee", Number(0.0)),
    OptionalColumn("No. of shares", Number(0.0)),
    OptionalColumn("Price / share", Number(0.0)),
    OptionalColumn("Ticker", Text("CASH")),
    OptionalColumn("ISIN", Text("GB"))
  ]

  /** The same table with the share count defaulting to one, as a blank
      share count does. */
  const OptionalColumnsCorrected: seq<OptionalColumn> :=
    OptionalColumns[3 := OptionalColumn("No. of shares", Number(1.0))]

  function Names(cols: seq<OptionalColumn>): (r: seq<string>)
    ensures |r| == |cols| && forall i :: 0 <= i < |cols| ==> r[i] == cols[i].name
  {
    if |cols| == 0 then [] else [cols[0].name] + Names(cols[1..])
  }

  predicate DistinctNames(cols: seq<OptionalColumn>) {
    forall i, j :: 0 <= i < j < |cols| ==> cols[i].name != cols[j].name
  }

  /** `with_column(lit(default).alias(name))`: the column added at the end,
      holding its default in every row. */
  function AddColumn(csv: Csv, c: OptionalColumn): (r: Csv)
    ensures r.header == csv.header + [c.name] && |r.rows| == |csv.rows|
    ensures forall k :: 0 <= k < |r.rows| ==> r.rows[k] == csv.rows[k][c.name := c.default]
  {
    Csv(csv.header + [c.name], MapSeq(csv.rows, (row: Row) => row[c.name := c.default]))
  }

  /** The export after the optional-column loop over `cols`: each column
      that the original `present` header lacks is added with its default. */
  function Defaulted(csv: Csv, present: seq<string>, cols: seq<OptionalColumn>): (r: Csv)
    ensures |r.rows| == |csv.rows|
  {
    if |cols| == 0 then csv
    else
      var before := Defaulted(csv, present, cols[..|cols| - 1]);
      var c := cols[|cols| - 1];
      if c.name in present then before else AddColumn(before, c)
  }

  /** The loop over the optional columns, checked against the header the
      file was read with. */
  method WithOptionalColumns(csv: Csv, cols: seq<OptionalColumn>) returns (r: Csv)
    ensures r == Defaulted(csv, csv.header, cols)
  {
    var columns := csv.header;
    r := csv;
    var i := 0;
    while i < |cols|
      invariant 0 <= i <= |cols|
      invariant r == Defaulted(csv, columns, cols[..i])
    {
      assert cols[..i + 1][..i] == cols[..i];
      if cols[i].name !in columns {
        r := AddColumn(r, cols[i]);
      }
      i := i + 1;
    }
    assert cols[..i] == cols;
  }

  /** Each row of `r` holds each optional column: its own cell when `csv`
      has the column, the default otherwise. */
  ghost predicate Filled(csv: Csv, r: Csv, cols: seq<OptionalColumn>)
    requires |r.rows| == |csv.rows|
  {
    forall k, i {:trigger Get(r.rows[k], cols[i].name)} :: 0 <= k < |r.rows| && 0 <= i < |cols| ==>
      Get(r.rows[k], cols[i].name) ==
        if cols[i].name in csv.header then Get(csv.rows[k], cols[i].name) else cols[i].default
  }

  /** Each row of `r` holds the cells of `csv` in every other column. */
  ghost predicate Untouched(csv: Csv, r: Csv, cols: seq<OptionalColumn>)
    requires |r.rows| == |csv.rows|
  {
    forall k, name {:trigger Get(r.rows[k], name)} :: 0 <= k < |r.rows| && name !in Names(cols) ==> Get(r.rows[k], name) == Get(csv.rows[k], name)
  }

  /** The cells of a row after a column is added. */
  lemma AddColumnGet(csv: Csv, c: OptionalColumn, k: nat, name: string)
    requires k < |csv.rows|
    ensures Get(AddColumn(csv, c).rows[k], name) == if name == c.name then c.default else Get(csv.rows[k], name)
  {
  }

  /** After the loop every row holds each optional column, its own cell or
      the default, and every other cell is untouched; no row is added or
      lost. */
  lemma {:induction false} DefaultedCells(csv: Csv, cols: seq<OptionalColumn>)
    requires DistinctNames(cols)
    ensures var r := Defaulted(csv, csv.header, cols);
      |r.rows| == |csv.rows| && Filled(csv, r, cols) && Untouched(csv, r, cols)
    decreases |cols|
  {
    if |cols| > 0 {
      var init := cols[..|cols| - 1];
      assert DistinctNames(init);
      DefaultedCells(csv, init);
      var c := cols[|cols| - 1];
      assert cols == init + [c];
      FilledStep(csv, init, c);
      UntouchedStep(csv, init, c);
    }
  }

  /** The last column's name is none of the earlier ones. */
  lemma LastNameFresh(cols: seq<OptionalColumn>)
    requires |cols| > 0 && DistinctNames(cols)
    ensures cols[|cols| - 1].name !in Names(cols[..|cols| - 1])
  {
    var init := cols[..|cols| - 1];
    forall j | 0 <= j < |init| ensures Names(init)[j] != cols[|cols| - 1].name {
      assert init[j] == cols[j];
    }
  }

  /** One more column of the loop keeps every optional column filled. */
  lemma FilledStep(csv: Csv, init: seq<OptionalColumn>, c: OptionalColumn)
    requires DistinctNames(init + [c])
    requires Filled(csv, Defaulted(csv, csv.header, init), init)
    requires Untouched(csv, Defaulted(csv, csv.header, init), init)
    ensures Filled(csv, Defaulted(csv, csv.header, init + [c]), init + [c])
  {
    var cols := init + [c];
    var r := Defaulted(csv, csv.header, cols);
    LastNameFresh(cols);
    assert cols[..|cols| - 1] == init && cols[|cols| - 1] == c;
    forall k, i {:trigger Get(r.rows[k], cols[i].name)} | 0 <= k < |r.rows| && 0 <= i < |cols|
      ensures Get(r.rows[k], cols[i].name) ==
                if cols[i].name in csv.header then Get(csv.rows[k], cols[i].name) else cols[i].default
    {
      if i < |init| {
        assert cols[i] == init[i];
      }
      FilledCell(csv, init, c, k, i);
    }
    assert Filled(csv, r, cols);
  }

  /** One cell of `FilledStep`: row `k`, optional column `i`. */
  lemma FilledCell(csv: Csv, init: seq<OptionalColumn>, c: OptionalColumn, k: nat, i: nat)
    requires k < |csv.rows| && i <= |init|
    requires i < |init| ==> init[i].name != c.name
    requires c.name !in Names(init)
    requires Filled(csv, Defaulted(csv, csv.header, init), init)
    requires Untouched(csv, Defaulted(csv, csv.header, init), init)
    ensures var cols := init + [c];
      Get(Defaulted(csv, csv.header, cols).rows[k], cols[i].name) ==
        if cols[i].name in csv.header then Get(csv.rows[k], cols[i].name) else cols[i].default
  {
    var cols := init + [c];
    var before := Defaulted(csv, csv.header, init);
    assert cols[..|cols| - 1] == init;
    assert Defaulted(csv, csv.header, cols) == if c.name in csv.header then before else AddColumn(before, c);
    if i < |init| {
      assert cols[i] == init[i];
      assert Get(before.rows[k], init[i].name) ==
        if init[i].name in csv.header then Get(csv.rows[k], init[i].name) else init[i].default;
      if c.name !in csv.header {
        AddColumnGet(before, c, k, init[i].name);
        assert Get(AddColumn(before, c).rows[k], init[i].name) == Get(before.rows[k], init[i].name);
      }
    } else {
      assert cols[i] == c;
      if c.name !in csv.header {
        AddColumnGet(before, c, k, c.name);
      } else {
        assert Get(before.rows[k], c.name) == Get(csv.rows[k], c.name);
      }
    }
  }

  /** One more column of the loop leaves every other cell as it was. */
  lemma UntouchedStep(csv: Csv, init: seq<OptionalColumn>, c: OptionalColumn)
    requires Untouched(csv, Defaulted(csv, csv.header, init), init)
    ensures Untouched(csv, Defaulted(csv, csv.header, init + [c]), init + [c])
  {
    var cols := init + [c];
    var before := Defaulted(csv, csv.header, init);
    var r := Defaulted(csv, csv.header, cols);
    assert cols[..|cols| - 1] == init;
    assert r == if c.name in csv.header then before else AddColumn(before, c);
    forall k, name | 0 <= k < |r.rows| && name !in Names(cols)
      ensures Get(r.rows[k], name) == Get(csv.rows[k], name)
    {
      assert name != Names(cols)[|cols| - 1];
      assert name !in Names(init) by {
        forall j | 0 <= j < |init| ensures Names(init)[j] != name {
          assert Names(init)[j] == Names(cols)[j];
        }
      }
      if c.name !in csv.header {
        AddColumnGet(before, c, k, name);
      }
    }
  }

  /** The optional names are distinct. */
  lemma OptionalColumnsDistinct()
    ensures DistinctNames(OptionalColumns) && DistinctNames(OptionalColumnsCorrected)
  {
  }

  // ------------------------------------------------------------ one row

  /** `cast(Float64)`: a number, else null. */
  function NumberOf(c: Cell): Option<real> {
    if c.Number? then Some(c.x) else None
  }

  /** A string column read by `map_str_column`: its text, the fallback for
      null, and a type error for a number. */
  function TextOf(c: Cell, ifNull: string): Result<string> {
    match c
    case Text(s) => Ok(s)
    case Null => Ok(ifNull)
    case Number(_) => Fail(Error("invalid series dtype: expected `String`"))
  }

  /** The ledger row of one export row, in the select's column order:
      Date from Time, Action by `map_action` (null reads "Unknown"), Ticker
      ("CASH" for null), Qty (1 for null), Amount from Total, Tax the
      withholding plus the stamp duty, Commission the conversion fee (0 for
      null each), Country from the ISIN (null reads "Default"), Type Stock,
      the configured currency, and Price finally Amount / Qty. */
  function RowOrder(row: Row, currency: Currency, time: Cell -> Result<Date>): (r: Result<Order>)
    ensures r.Ok? ==> && r.value.qty == NumberOf(Get(row, "No. of shares")).GetOr(1.0)
                      && r.value.amount == NumberOf(Get(row, "Total")).GetOr(0.0)
                      && r.value.price == Quotient(r.value.amount, r.value.qty)
                      && r.value.tax == NumberOf(Get(row, "Withholding tax")).GetOr(0.0)
                                        + NumberOf(Get(row, "Stamp duty reserve tax")).GetOr(0.0)
                      && r.value.commission == NumberOf(Get(row, "Currency conversion fee")).GetOr(0.0)
                      && r.value.kind == KindName(Kind.Stock) && r.value.currency == CurrencyName(currency)
  {
    var date := time(Get(row, "Time"));
    if date.Fail? then Fail(date.failure)
    else
      var actionText := TextOf(Get(row, "Action"), "Unknown");
      if actionText.Fail? then Fail(actionText.failure)
      else
        var action := MapAction(actionText.value);
        if action.Fail? then Fail(action.failure)
        else
          var ticker := TextOf(Get(row, "Ticker"), "CASH");
          if ticker.Fail? then Fail(ticker.failure)
          else
            var qty := NumberOf(Get(row, "No. of shares")).GetOr(1.0);
            var amount := NumberOf(Get(row, "Total")).GetOr(0.0);
            var tax := NumberOf(Get(row, "Withholding tax")).GetOr(0.0)
                       + NumberOf(Get(row, "Stamp duty reserve tax")).GetOr(0.0);
            var commission := NumberOf(Get(row, "Currency conversion fee")).GetOr(0.0);
            var isin := TextOf(Get(row, "ISIN"), "Default");
            if isin.Fail? then Fail(isin.failure)
            else
              var country := CountryFromIsin(isin.value);
              if country.Fail? then Fail(country.failure)
              else
                Ok(Order(date.value, ActionName(action.value), ticker.value, qty, Quotient(amount, qty), amount,
                         tax, commission, CountryName(country.value), CurrencyName(currency), KindName(Kind.Stock)))
  }

  /** The conversion of rows, as a function value. */
  function Converter(currency: Currency, time: Cell -> Result<Date>): Row -> Result<Order> {
    (row: Row) => RowOrder(row, currency, time)
  }

  /** A row converts exactly when its time parses, its action text is a
      string `map_action` knows, and its Ticker and ISIN are strings with an
      ISIN of at least two characters. */
  lemma RowOrderOk(row: Row, currency: Currency, time: Cell -> Result<Date>)
    ensures RowOrder(row, currency, time).Ok? <==>
      && time(Get(row, "Time")).Ok?
      && TextOf(Get(row, "Action"), "Unknown").Ok?
      && MapAction(TextOf(Get(row, "Action"), "Unknown").value).Ok?
      && TextOf(Get(row, "Ticker"), "CASH").Ok?
      && TextOf(Get(row, "ISIN"), "Default").Ok?
      && |TextOf(Get(row, "ISIN"), "Default").value| >= 2
  {
  }

  /** A row of a cash movement without any ISIN is of unknown country: the
      "Default" stand-in names no known country. */
  lemma NullIsinIsUnknown(row: Row, currency: Currency, time: Cell -> Result<Date>)
    requires Get(row, "ISIN") == Null && RowOrder(row, currency, time).Ok?
    ensures RowOrder(row, currency, time).value.country == CountryName(Unknown)
  {
    assert "Default"[..2] == "De";
    assert CountryFromIsin("Default") == Ok(Unknown);
  }

  // ------------------------------------------------------------ load_from_csv

  /** The columns the select reads that have no default, in the order it
      reads them: a file without one fails the whole query. */
  const RequiredColumns: seq<string> := ["Time", "Action", "Total"]

  /** The first of `names` that `header` lacks. */
  function FirstMissing(names: seq<string>, header: seq<string>): (r: Option<string>)
    ensures r.None? <==> forall i :: 0 <= i < |names| ==> names[i] in header
    ensures r.Some? ==> exists i :: 0 <= i < |names| && names[i] == r.value && r.value !in header
                          && forall j :: 0 <= j < i ==> names[j] in header
  {
    if |names| == 0 then None
    else if names[0] !in header then Some(names[0])
    else
      var rest := FirstMissing(names[1..], header);
      assert forall i :: 1 <= i < |names| ==> names[i] == names[1..][i - 1];
      rest
  }

  /** `load_from_csv` on an export already read (with "Not available"
      blanked out), with the given optional-column defaults: a file without
      a Time, Action or Total column fails with the first one missing;
      otherwise the rows are converted, every one, then sanitized. */
  function LoadWith(csv: Csv, cols: seq<OptionalColumn>, currency: Currency, time: Cell -> Result<Date>)
    : (r: Result<seq<Order>>)
    ensures var rows := MapRows(Defaulted(csv, csv.header, cols).rows, Converter(currency, time));
      && (r.Ok? <==> (forall i :: 0 <= i < |RequiredColumns| ==> RequiredColumns[i] in csv.header) && rows.Ok?)
      && (r.Ok? ==> DateSorted(r.value) && multiset(r.value) == multiset(rows.value))
    ensures "Total" !in csv.header && "Time" in csv.header && "Action" in csv.header ==>
      r == Fail(Error("not found: Total"))
  {
    var missing := FirstMissing(RequiredColumns, csv.header);
    assert "Total" !in csv.header && "Time" in csv.header && "Action" in csv.header ==>
      missing == Some("Total") by {
      var h := csv.header;
      if "Total" !in h && "Time" in h && "Action" in h {
        assert RequiredColumns[1..] == ["Action", "Total"] && RequiredColumns[1..][1..] == ["Total"];
        assert FirstMissing(RequiredColumns, h) == FirstMissing(["Action", "Total"], h);
        assert FirstMissing(["Action", "Total"], h) == FirstMissing(["Total"], h);
      }
    }
    assert "not found: " + "Total" == "not found: Total";
    if missing.Some? then Fail(Error("not found: " + missing.value))
    else
      var full := Defaulted(csv, csv.header, cols);
      var rows := MapRows(full.rows, Converter(currency, time));
      if rows.Fail? then Fail(rows.failure) else Ok(Sanitize(rows.value))
  }

  /** The loader as written: a missing share-count column is filled with 0. */
  function LoadCsvAsWritten(csv: Csv, currency: Currency, time: Cell -> Result<Date>): Result<seq<Order>> {
    LoadWith(csv, OptionalColumns, currency, time)
  }

  /** The loader with a missing share-count column filled with 1, the value
      a blank share count gets. */
  function LoadCsv(csv: Csv, currency: Currency, time: Cell -> Result<Date>): Result<seq<Order>> {
    LoadWith(csv, OptionalColumnsCorrected, currency, time)
  }

  /** Every loaded row comes from a row of the file, completed with the
      optional columns. */
  lemma LoadedRow(csv: Csv, cols: seq<OptionalColumn>, currency: Currency, time: Cell -> Result<Date>, o: Order)
    requires LoadWith(csv, cols, currency, time).Ok? && o in LoadWith(csv, cols, currency, time).value
    ensures exists k :: 0 <= k < |csv.rows| && RowOrder(Defaulted(csv, csv.header, cols).rows[k], currency, time) == Ok(o)
  {
    var full := Defaulted(csv, csv.header, cols);
    var f := Converter(currency, time);
    SanitizedFrom(full.rows, f);
    var k :| 0 <= k < |full.rows| && f(full.rows[k]) == Ok(o);
    assert RowOrder(full.rows[k], currency, time) == Ok(o);
  }

  /** The discrepancy: from an export without a share-count column every row
      loads with quantity 0, so its price Amount / Qty is a division by zero
      (infinite or NaN in the program; 0 here). */
  lemma MissingSharesGiveZeroQty(csv: Csv, currency: Currency, time: Cell -> Result<Date>, o: Order)
    requires "No. of shares" !in csv.header && LoadCsvAsWritten(csv, currency, time).Ok?
    requires o in LoadCsvAsWritten(csv, currency, time).value
    ensures o.qty == 0.0
  {
    OptionalColumnsDistinct();
    MissingShares(csv, OptionalColumns, 0.0, currency, time, o);
  }

  /** With the correction such rows load with quantity 1 and price equal to
      the amount, as rows with a blank share count do. */
  lemma MissingSharesGiveOneQty(csv: Csv, currency: Currency, time: Cell -> Result<Date>, o: Order)
    requires "No. of shares" !in csv.header && LoadCsv(csv, currency, time).Ok?
    requires o in LoadCsv(csv, currency, time).value
    ensures o.qty == 1.0 && o.price == o.amount
  {
    OptionalColumnsDistinct();
    MissingShares(csv, OptionalColumnsCorrected, 1.0, currency, time, o);
    QuotientMul(o.amount, 1.0);
  }

  lemma MissingShares(csv: Csv, cols: seq<OptionalColumn>, q: real, currency: Currency, time: Cell -> Result<Date>, o: Order)
    requires DistinctNames(cols) && |cols| > 3 && cols[3] == OptionalColumn("No. of shares", Number(q))
    requires "No. of shares" !in csv.header && LoadWith(csv, cols, currency, time).Ok?
    requires o in LoadWith(csv, cols, currency, time).value
    ensures o.qty == q && o.price == Quotient(o.amount, q)
  {
    var full := Defaulted(csv, csv.header, cols);
    LoadedRow(csv, cols, currency, time, o);
    var k :| 0 <= k < |csv.rows| && RowOrder(full.rows[k], currency, time) == Ok(o);
    DefaultAt(csv, cols, k, 3);
  }

  /** One cell of a column the file lacks: its default. */
  lemma DefaultAt(csv: Csv, cols: seq<OptionalColumn>, k: nat, i: nat)
    requires DistinctNames(cols) && k < |csv.rows| && i < |cols| && cols[i].name !in csv.header
    ensures Get(Defaulted(csv, csv.header, cols).rows[k], cols[i].name) == cols[i].default
  {
    DefaultedCells(csv, cols);
  }
}
