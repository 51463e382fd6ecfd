/** The Schwab loader: actions classified by up to four words of their
    description, transfer rows dropped, the ticker taken from the symbol or
    the description, fees recognised by their description, and each row
    completed with the defaults of a US brokerage account. */
module Schwab {
  import opened Wrappers
  import opened Calendar
  import opened Text
  import opened Series
  import opened Schema
  import opened Orders
  import opened Broker

  // ------------------------------------------------------------ map_action

  /** The words `map_action` looks at: the first four of the description. */
  function Head(s: string): (w: seq<string>)
    ensures |w| <= 4
  {
    Take(Words(s), 4)
  }

  /** `map_action`: the patterns tried in order; anything else panics. */
  function MapAction(s: string): (r: Result<Action>)
    ensures r == Ok(Buy) <==> Head(s) == ["Buy"]
    ensures r == Ok(Sell) <==> Head(s) == ["Sell"]
    ensures r == Ok(Split) <==> Head(s) == ["Split"]
    ensures r == Ok(Deposit) <==> |Head(s)| == 2 && Head(s)[0] == "Wire"
    ensures r == Ok(Withdraw) <==> Head(s) == ["Withdrawal"]
    ensures r == Ok(Ignore) <==> Head(s) == ["Internal", "Transfer"]
    ensures r == Ok(Action.Tax) <==> Head(s) == ["Journaled", "Shares"] || (|Head(s)| == 3 && Head(s)[1] == "Tax")
    ensures r == Ok(Interest) <==> |Head(s)| == 2 && Head(s)[1] == "Interest" && Head(s)[0] != "Wire"
    ensures r == Ok(Dividend) <==>
      || (|Head(s)| == 3 && Head(s)[1] == "Div")
      || (|Head(s)| == 2 && Head(s)[1] == "Dividend" && Head(s)[0] != "Wire")
      || Head(s) == ["Long", "Term", "Cap", "Gain"]
    ensures r != Ok(Fee)
    ensures r.Fail? ==> r == Fail(Panic("Unknown " + s))
  {
    var w := Head(s);
    if w == ["Buy"] then Ok(Buy)
    else if w == ["Sell"] then Ok(Sell)
    else if w == ["Split"] then Ok(Split)
    else if |w| == 2 && w[0] == "Wire" then Ok(Deposit)
    else if |w| == 3 && w[1] == "Div" then Ok(Dividend)
    else if |w| == 2 && w[1] == "Dividend" then Ok(Dividend)
    else if w == ["Journaled", "Shares"] then Ok(Action.Tax)
    else if |w| == 3 && w[1] == "Tax" then Ok(Action.Tax)
    else if |w| == 2 && w[1] == "Interest" then Ok(Interest)
    else if w == ["Withdrawal"] then Ok(Withdraw)
    else if w == ["Long", "Term", "Cap", "Gain"] then Ok(Dividend)
    else if w == ["Internal", "Transfer"] then Ok(Ignore)
    else Fail(Panic("Unknown " + s))
  }

  /** Only the first four words decide the action. */
  lemma FirstFourWordsDecide(s: string, t: string)
    requires Head(s) == Head(t)
    ensures MapAction(s).Ok? <==> MapAction(t).Ok?
    ensures MapAction(s).Ok? ==> MapAction(s) == MapAction(t)
  {
  }

  /** A wire is a deposit whatever its second word: the pattern comes before
      those of dividends and interest. */
  lemma WireDividend()
    ensures MapAction("Wire Dividend") == Ok(Deposit)
  {
    WireDividendHead();
  }

  /** How the wire-dividend action splits into words. */
  lemma WireDividendHead()
    ensures Head("Wire Dividend") == ["Wire", "Dividend"]
  {
    PrintableWord("Wire");
    PrintableWord("Dividend");
    TwoWords("Wire", "Dividend");
    WireDividendSpelled();
  }

  lemma WireDividendSpelled()
    ensures "Wire" + " " + "Dividend" == "Wire Dividend"
  {
  }

  /** A withholding-tax adjustment is a tax. */
  lemma TaxAdjustment()
    ensures MapAction("NRA Tax Adj") == Ok(Action.Tax)
  {
    TaxAdjustmentHead();
  }

  /** How the tax-adjustment action splits into words. */
  lemma TaxAdjustmentHead()
    ensures Head("NRA Tax Adj") == ["NRA", "Tax", "Adj"]
  {
    PrintableWord("NRA");
    PrintableWord("Tax");
    PrintableWord("Adj");
    ThreeWords("NRA", "Tax", "Adj");
    TaxAdjustmentSpelled();
  }

  lemma TaxAdjustmentSpelled()
    ensures "NRA" + " " + "Tax" + " " + "Adj" == "NRA Tax Adj"
  {
  }

  /** Three words match only a dividend or a tax by their middle word. */
  lemma ThreeWordsUnmatched(s: string)
    requires |Head(s)| == 3 && Head(s)[1] != "Div" && Head(s)[1] != "Tax"
    ensures MapAction(s).Fail?
  {
  }

  /** A dividend with a third word is not one of the patterns. */
  lemma ReinvestedDividendPanics()
    ensures MapAction("Cash Dividend Reinvest").Fail?
  {
    ReinvestedDividendPanicsHead();
    assert |"Dividend"| == 8;
    ThreeWordsUnmatched("Cash Dividend Reinvest");
  }

  /** How the reinvested-dividend action splits into words. */
  lemma ReinvestedDividendPanicsHead()
    ensures Head("Cash Dividend Reinvest") == ["Cash", "Dividend", "Reinvest"]
  {
    PrintableWord("Cash");
    PrintableWord("Dividend");
    PrintableWord("Reinvest");
    ThreeWords("Cash", "Dividend", "Reinvest");
    ReinvestedDividendSpelled();
  }

  lemma ReinvestedDividendSpelled()
    ensures "Cash" + " " + "Dividend" + " " + "Reinvest" == "Cash Dividend Reinvest"
  {
  }

  // ------------------------------------------------------------ the ticker

  /** The first position of `c`. */
  function IndexOf(s: string, c: char): (r: Option<nat>)
    ensures r.Some? ==> r.value < |s| && s[r.value] == c && c !in s[..r.value]
    ensures r.None? ==> c !in s
  {
    if |s| == 0 then None
    else if s[0] == c then Some(0)
    else
      var rest := IndexOf(s[1..], c);
      if rest.None? then None
      else
        assert s[..rest.value + 1] == [s[0]] + s[1..][..rest.value];
        Some(rest.value + 1)
  }

  /** The last position of `c`. */
  function LastIndexOf(s: string, c: char): (r: Option<nat>)
    ensures r.Some? ==> r.value < |s| && s[r.value] == c && c !in s[r.value + 1..]
    ensures r.None? ==> c !in s
  {
    if |s| == 0 then None
    else if s[|s| - 1] == c then Some(|s| - 1)
    else
      var init := s[..|s| - 1];
      var rest := LastIndexOf(init, c);
      if rest.None? then
        assert s == init + [s[|s| - 1]];
        None
      else
        assert s[rest.value + 1..] == init[rest.value + 1..] + [s[|s| - 1]];
        rest
  }

  /** What the description's `\((.*)\)` captures when `\(.+\)` matches it:
      the text from after its first '(' to its last ')', not empty. */
  function Parenthesised(s: string): (r: Option<string>)
    ensures r.Some? ==> |r.value| > 0
  {
    var open := IndexOf(s, '(');
    var close := LastIndexOf(s, ')');
    if open.Some? && close.Some? && open.value + 1 < close.value then Some(s[open.value + 1..close.value])
    else None
  }

  /** `\(.+\)` matches exactly when some '(' has a ')' after it with at
      least one character between them. */
  lemma ParenthesisedMatches(s: string)
    ensures Parenthesised(s).Some? <==>
      exists i, j :: 0 <= i && i + 1 < j < |s| && s[i] == '(' && s[j] == ')'
  {
    var open := IndexOf(s, '(');
    var close := LastIndexOf(s, ')');
    if open.Some? && close.Some? && open.value + 1 < close.value {
      assert s[open.value] == '(' && s[close.value] == ')';
    }
  }

  /** The ticker: the symbol, or for a row without one the parenthesised
      part of its description, or "CASH". */
  function Ticker(symbol: string, description: string): string {
    if symbol != "" then symbol
    else if Parenthesised(description).Some? then Parenthesised(description).value
    else "CASH"
  }

  // ------------------------------------------------------------ one row

  /** A row of the export after its cells are read: the date as parsed
      from "%m/%d/%Y", the Action text (null for an empty field), the
      symbol, the description, the quantity when it is a number, and the
      Amount, Price and "Fees & Comm" cash cells as numbers (0 for an
      empty or unreadable cell). */
  datatype SchwabRow = SchwabRow(
    date: Date,
    action: Option<string>,
    symbol: string,
    description: Option<string>,
    quantity: Option<real>,
    amount: real,
    price: real,
    fees: real)

  /** The row filter: a description that mentions neither a transfer of
      security nor a cash movement (a null description drops the row). */
  predicate Kept(row: SchwabRow) {
    row.description.Some?
    && !Contains(row.description.value, "TRANSFER OF SECURITY")
    && !Contains(row.description.value, "CASH MOVEMENT")
  }

  /** The action a row ends with: a description mentioning "FEE" makes it a
      fee, and the final rewrite of any action containing "Tax" to "Tax". */
  function FinalAction(action: Action, description: string): string {
    var named := if Contains(description, "FEE") then ActionName(Fee) else ActionName(action);
    if Contains(named, "Tax") then ActionName(Action.Tax) else named
  }

  /** The rewrite to "Tax" changes no action name: only "Tax" itself
      contains it. */
  lemma TaxRewriteInert(a: Action)
    ensures Contains(ActionName(a), "Tax") <==> a == Action.Tax
  {
    ContainsSelf("Tax");
    if a != Action.Tax {
      FirstCharAbsent(ActionName(a), "Tax");
    }
  }

  /** The action of a row: a fee when the description says so, otherwise
      the mapped action. */
  lemma FinalActionIs(action: Action, description: string)
    ensures FinalAction(action, description) ==
      if Contains(description, "FEE") then ActionName(Fee) else ActionName(action)
  {
    TaxRewriteInert(Fee);
    TaxRewriteInert(action);
  }

  /** The ledger row of a kept row: the mapped action (null reads
      "Unknown"), the ticker, Qty 1 when there is no number, Amount, Tax
      0, the cash Price, the fees as Commission, Country Usa, Type Stock
      and the configured currency. */
  function RowOrder(row: SchwabRow, currency: Currency): (r: Result<Order>)
    requires Kept(row)
    ensures r.Ok? <==> MapAction(row.action.GetOr("Unknown")).Ok?
    ensures r.Ok? ==> && r.value.date == row.date
                      && r.value.qty == row.quantity.GetOr(1.0)
                      && r.value.amount == row.amount && r.value.price == row.price
                      && r.value.commission == row.fees && r.value.tax == 0.0
                      && r.value.country == CountryName(Usa) && r.value.kind == KindName(Kind.Stock)
                      && r.value.currency == CurrencyName(currency)
  {
    var action := MapAction(row.action.GetOr("Unknown"));
    if action.Fail? then Fail(action.failure)
    else
      var description := row.description.value;
      Ok(Order(row.date, FinalAction(action.value, description), Ticker(row.symbol, description),
               row.quantity.GetOr(1.0), row.price, row.amount, 0.0, row.fees,
               CountryName(Usa), CurrencyName(currency), KindName(Kind.Stock)))
  }

  /** The conversion of kept rows, as a function value. */
  function Converter(currency: Currency): SchwabRow -> Result<Order> {
    (row: SchwabRow) => if Kept(row) then RowOrder(row, currency) else Fail(Panic("row not kept"))
  }

  /** `load_from_csv` on an export already read: the kept rows converted,
      then sanitized. */
  function LoadCsv(rows: seq<SchwabRow>, currency: Currency): (r: Result<seq<Order>>)
    ensures var converted := MapRows(Keep(rows, Kept), Converter(currency));
      && (r.Ok? <==> converted.Ok?)
      && (r.Ok? ==> DateSorted(r.value) && multiset(r.value) == multiset(converted.value))
  {
    var converted := MapRows(Keep(rows, Kept), Converter(currency));
    if converted.Fail? then Fail(converted.failure) else Ok(Sanitize(converted.value))
  }

  /** Every loaded row comes from a kept row of the export: one whose
      description mentions no transfer. */
  lemma LoadedRow(rows: seq<SchwabRow>, currency: Currency, o: Order)
    requires LoadCsv(rows, currency).Ok? && o in LoadCsv(rows, currency).value
    ensures exists row :: row in rows && Kept(row) && RowOrder(row, currency) == Ok(o)
  {
    var kept := Keep(rows, Kept);
    SanitizedFrom(kept, Converter(currency));
    var k :| 0 <= k < |kept| && Converter(currency)(kept[k]) == Ok(o);
    assert kept[k] in kept;
    assert RowOrder(kept[k], currency) == Ok(o);
  }

  /** A row whose description mentions "FEE" is loaded as a fee. */
  lemma FeeRows(row: SchwabRow, currency: Currency)
    requires Kept(row) && RowOrder(row, currency).Ok? && Contains(row.description.value, "FEE")
    ensures RowOrder(row, currency).value.action == ActionName(Fee)
  {
    FinalActionIs(MapAction(row.action.GetOr("Unknown")).value, row.description.value);
  }

  /** Any other row keeps its mapped action. */
  lemma MappedRows(row: SchwabRow, currency: Currency)
    requires Kept(row) && RowOrder(row, currency).Ok? && !Contains(row.description.value, "FEE")
    ensures RowOrder(row, currency).value.action == ActionName(MapAction(row.action.GetOr("Unknown")).value)
  {
    FinalActionIs(MapAction(row.action.GetOr("Unknown")).value, row.description.value);
  }
}
