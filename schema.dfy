/** The vocabulary shared by every table: column names, order actions,
    security types, countries and currencies, with their string forms
    (`strum` PascalCase, or UPPERCASE for currencies) and conversions. */
module Schema {
  import opened Wrappers

  datatype Column =
    | Date | Ticker | Qty | Price | Action | Amount | Type | Tax | Commission
    | Country | Currency | PortfolioCost | UninvestedCash | AveragePrice
    | MarketPrice | MarketPriceCurrency | MarketValue | Dividends | DividendYield
    | PaperProfit | PaperProfitRate | PrimaryCapital | AccruedQty | Total | Profit
    | ProfitRate | LiquidatedProfit | NetProfit | AllocationRate

  /** `Column::as_str`: the variant name, which is already PascalCase. */
  function ColumnName(c: Column): string {
    match c
    case Date => "Date" case Ticker => "Ticker" case Qty => "Qty" case Price => "Price"
    case Action => "Action" case Amount => "Amount" case Type => "Type" case Tax => "Tax"
    case Commission => "Commission" case Country => "Country" case Currency => "Currency"
    case PortfolioCost => "PortfolioCost" case UninvestedCash => "UninvestedCash"
    case AveragePrice => "AveragePrice" case MarketPrice => "MarketPrice"
    case MarketPriceCurrency => "MarketPriceCurrency" case MarketValue => "MarketValue"
    case Dividends => "Dividends" case DividendYield => "DividendYield"
    case PaperProfit => "PaperProfit" case PaperProfitRate => "PaperProfitRate"
    case PrimaryCapital => "PrimaryCapital" case AccruedQty => "AccruedQty" case Total => "Total"
    case Profit => "Profit" case ProfitRate => "ProfitRate" case LiquidatedProfit => "LiquidatedProfit"
    case NetProfit => "NetProfit" case AllocationRate => "AllocationRate"
  }

  datatype Action = Sell | Buy | Split | Dividend | Deposit | Tax | Fee | Interest | Withdraw | Ignore

  function ActionName(a: Action): string {
    match a
    case Sell => "Sell" case Buy => "Buy" case Split => "Split" case Dividend => "Dividend"
    case Deposit => "Deposit" case Tax => "Tax" case Fee => "Fee" case Interest => "Interest"
    case Withdraw => "Withdraw" case Ignore => "Ignore"
  }

  /** `Action::from_str`: exact, case-sensitive match of a variant name. */
  function ParseAction(s: string): (r: Option<Action>)
    ensures r.Some? ==> ActionName(r.value) == s
  {
    if s == "Sell" then Some(Sell) else if s == "Buy" then Some(Buy)
    else if s == "Split" then Some(Split) else if s == "Dividend" then Some(Dividend)
    else if s == "Deposit" then Some(Deposit) else if s == "Tax" then Some(Action.Tax)
    else if s == "Fee" then Some(Fee) else if s == "Interest" then Some(Interest)
    else if s == "Withdraw" then Some(Withdraw) else if s == "Ignore" then Some(Ignore)
    else None
  }

  /** Every action's name parses back to that action. */
  lemma ParseActionName(a: Action)
    ensures ParseAction(ActionName(a)) == Some(a)
  {
  }

  /** `Type`, the kind of security held. */
  datatype Kind = Stock | Fii | Etf | Cash | Other

  function KindName(k: Kind): string {
    match k
    case Stock => "Stock" case Fii => "Fii" case Etf => "Etf" case Cash => "Cash" case Other => "Other"
  }

  datatype Country = Unknown | NA | Usa | Uk | Brazil | Ireland | EU

  /** `Country::default()`. */
  const DefaultCountry: Country := Unknown

  /** The PascalCase form `strum` gives each variant; the all-capital
      variants `NA` and `EU` become "Na" and "Eu". */
  function CountryName(c: Country): string {
    match c
    case Unknown => "Unknown" case NA => "Na" case Usa => "Usa" case Uk => "Uk"
    case Brazil => "Brazil" case Ireland => "Ireland" case EU => "Eu"
  }

  function ParseCountry(s: string): (r: Option<Country>)
    ensures r.Some? ==> CountryName(r.value) == s
  {
    if s == "Unknown" then Some(Unknown) else if s == "Na" then Some(Country.NA)
    else if s == "Usa" then Some(Usa) else if s == "Uk" then Some(Uk)
    else if s == "Brazil" then Some(Brazil) else if s == "Ireland" then Some(Ireland)
    else if s == "Eu" then Some(EU) else None
  }

  lemma ParseCountryName(c: Country)
    ensures ParseCountry(CountryName(c)) == Some(c)
  {
  }

  /** `Country::from_isin`: the country named by the first two characters
      of an ISIN; `split_at(2)` panics on a shorter string. */
  function CountryFromIsin(isin: string): (r: Result<Country>)
    ensures r.Fail? <==> |isin| < 2
    ensures r.Ok? ==> (r.value == Usa <==> isin[..2] == "US")
    ensures r.Ok? ==> (r.value == Uk <==> isin[..2] == "GB")
    ensures r.Ok? ==> (r.value == Ireland <==> isin[..2] == "IE")
    ensures r.Ok? ==> r.value in {Usa, Uk, Ireland, Unknown}
  {
    if |isin| < 2 then Fail(Panic("byte index 2 is out of bounds"))
    else
      var prefix := isin[..2];
      if prefix == "US" then Ok(Usa)
      else if prefix == "GB" then Ok(Uk)
      else if prefix == "IE" then Ok(Ireland)
      else Ok(DefaultCountry)
  }

  datatype Currency = BRL | EUR | GBP | GBX | USD | NA

  /** `Currency::default()`. */
  const DefaultCurrency: Currency := BRL

  function CurrencyName(c: Currency): string {
    match c
    case BRL => "BRL" case EUR => "EUR" case GBP => "GBP" case GBX => "GBX" case USD => "USD" case NA => "NA"
  }

  function ParseCurrency(s: string): (r: Option<Currency>)
    ensures r.Some? ==> CurrencyName(r.value) == s
  {
    if s == "BRL" then Some(BRL) else if s == "EUR" then Some(EUR)
    else if s == "GBP" then Some(GBP) else if s == "GBX" then Some(GBX)
    else if s == "USD" then Some(USD) else if s == "NA" then Some(Currency.NA) else None
  }

  lemma ParseCurrencyName(c: Currency)
    ensures ParseCurrency(CurrencyName(c)) == Some(c)
  {
  }

  /** Names are distinct, so a currency is determined by its name. */
  lemma CurrencyNameInjective(a: Currency, b: Currency)
    requires CurrencyName(a) == CurrencyName(b)
    ensures a == b
  {
    ParseCurrencyName(a);
    ParseCurrencyName(b);
  }

  /** `symbol`: the sign a currency is printed with. */
  function Symbol(c: Currency): string {
    match c
    case BRL => "R$" case EUR => "€" case GBP => "£" case GBX => "£p" case USD => "$" case NA => "NA"
  }

  /** Distinct currencies print distinct symbols. */
  lemma SymbolInjective(a: Currency, b: Currency)
    requires Symbol(a) == Symbol(b)
    ensures a == b
  {
    assert |Symbol(a)| == |Symbol(b)|;
  }

  /** `Currency::from(Country)`: the currency a country's securities trade in. */
  function CurrencyOfCountry(c: Country): Currency {
    match c
    case Unknown => Currency.NA case NA => Currency.NA case Usa => USD case Uk => GBP
    case EU => EUR case Brazil => BRL case Ireland => GBP
  }

  /** `Country::from(Currency)`. */
  function CountryOfCurrency(c: Currency): Country {
    match c
    case NA => Country.NA case USD => Usa case GBP => Uk case GBX => Uk case BRL => Brazil case EUR => EU
  }

  /** Going from a currency to its country and back loses only pence:
      every currency but GBX comes back as itself, GBX as GBP. */
  lemma CurrencyCountryRoundTrip(c: Currency)
    ensures CurrencyOfCountry(CountryOfCurrency(c)) == (if c == GBX then GBP else c)
  {
  }

  /** Going from a country to its currency and back identifies Unknown
      with NA and Ireland with the UK; every other country comes back. */
  lemma CountryCurrencyRoundTrip(k: Country)
    ensures CountryOfCurrency(CurrencyOfCountry(k)) ==
      (if k == Unknown then Country.NA else if k == Ireland then Uk else k)
  {
  }
}
