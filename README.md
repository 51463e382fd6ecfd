# reis-finance, modelled in Dafny

reis-finance is a personal-portfolio calculator. It loads the ledgers that
brokers export (Trading212, Schwab) into one table of orders, fetches quotes
through a provider (Yahoo Finance, behind a file cache), and reports on the
ledger: the open positions valued at market and at average cost, realised
profit on sales, dividends and interest, uninvested cash, a one-line summary
and a timeline of summaries, each of them convertible into one currency. The
reports can be uploaded to a Google spreadsheet.

This project models the rules underneath those pipelines. A table is a
sequence of records, money and quantities are `real`, dates are day numbers
on the proleptic Gregorian calendar, and a panic or an error is the failure
of a `Result`. The quote provider is an object whose answer to a request is
a parameter; the test mock is one such answer.

Modules, following the source:

- `Wrappers`, `Text`, `Series`, `Calendar`: results and options, words and
  decimal text, sums and groupings over sequences, the calendar.
- `Schema`, `Orders`, `Fixture`: actions, countries, currencies and their
  names; the ledger row; the test ledger.
- `Scraper`, `Mock`, `QuoteCache`, `Yahoo`: the quote provider, its mock,
  the caching provider and the Yahoo ticker rules.
- `Filter`, `Compute`, `ColumnMap`, `Transform`: the row filters, formulas,
  the string-to-number column map and the year/month pivot.
- `CurrencyNormalize`, `LegacyCurrencyNormalize`, `NormalizeExamples`: the
  currency normaliser and its older version.
- `AverageCost`, `LegacyAverageCost` (and their `Mock` modules): the
  perpetual-inventory average cost, newer and older.
- `Portfolio`, `Liquidated`, `Dividends`, `Uninvested`, `Summary`,
  `Timeline`: the reports.
- `Broker`, `Trading212`, `Schwab`: the loaders.
- `GoogleSheet`: the A1 cell names and the upload cursor.
- `PortfolioMock`, `PortfolioTests`: the portfolio tests' ledger, quotes and
  dividends, each step's expected rows, and the tests' chains of steps.
- `LegacyDate`: the older date type of the scraper.

## Model

| member | source | states |
|---|---|---|
| Schema.ParseAction | src/lib/schema.rs:42-55 | `Action::from_str` accepts only a variant's PascalCase name: whatever it parses has the input as its name |
| Schema.ParseActionName | src/lib/schema.rs:42-61 | the name of every action parses back to that action |
| Schema.ParseCountry | src/lib/schema.rs:79-95 | `Country::from_str` accepts only a variant's PascalCase name |
| Schema.ParseCountryName | src/lib/schema.rs:79-95 | the name of every country parses back to that country |
| Schema.CountryFromIsin | src/lib/schema.rs:97-104 | an ISIN shorter than two characters panics in `split_at`; otherwise "US" gives Usa, "GB" Uk, "IE" Ireland, and any other prefix Unknown |
| Calendar.CivilRoundTrip | src/lib/timeline.rs:33-34 | the day number of a valid year, month and day converts back to that year, month and day |
| Calendar.DaysRoundTrip | src/lib/timeline.rs:33-34 | every day number is a valid calendar day, and that day's number is the day number itself |
| Calendar.YearMonthOf | src/lib/utils/polars.rs:186-187 | `year()` and `month()` of a date's day number are the date's own year and month, and every month is 1 to 12 |
| Schema.ParseCurrency | src/lib/schema.rs:107-124 | `Currency::from_str` accepts only a variant's UPPERCASE name |
| Schema.ParseCurrencyName | src/lib/schema.rs:107-124 | the name of every currency parses back to that currency |
| Schema.CurrencyNameInjective | src/lib/schema.rs:110-124 | distinct currencies have distinct names |
| Schema.CurrencyCountryRoundTrip | src/lib/schema.rs:138-163 | currency → country → currency gives back every currency except GBX, which comes back as GBP |
| Schema.CountryCurrencyRoundTrip | src/lib/schema.rs:138-163 | country → currency → country gives back every country except Unknown, which comes back as NA, and Ireland, which comes back as Uk |
| Fixture.MockOrders | src/lib/utils/test.rs:140-145 | the test ledger has fourteen rows, one per listed action |
| Fixture.MockDates | src/lib/utils/test.rs:147-151 | row i is dated 2024-(3 + i mod 7)-(14 + i mod 15) |
| Fixture.MockAmounts | src/lib/utils/test.rs:153-172 | every row's Amount is its Qty times its Price, and every row is a US-dollar row of a US company |
| Schema.SymbolInjective | src/lib/schema.rs:126-135 | distinct currencies print distinct symbols |
| Scraper.ScraperData.constructor | src/lib/scraper/mod.rs:29-36 | `ScraperData::new` stores the three frames as given |
| Scraper.ScraperData.Default | src/lib/scraper/mod.rs:22-27 | the default `ScraperData` holds three empty frames |
| Scraper.ScraperData.ConcatQuotes | src/lib/scraper/mod.rs:38-46 | the quotes become the old quotes followed by the new rows; splits and dividends are untouched |
| Scraper.ScraperData.ConcatSplits | src/lib/scraper/mod.rs:48-55 | the splits become the old splits followed by the new rows; the other frames are untouched |
| Scraper.ScraperData.ConcatDividends | src/lib/scraper/mod.rs:57-64 | the dividends become the old dividends followed by the new rows; the other frames are untouched |
| Scraper.IntervalTextInjective | src/lib/scraper/mod.rs:67-77 | distinct intervals print differently: "{n}d", "{n}w", "{n}mo" and "{n}y" never coincide |
| Scraper.ToNaive | src/lib/scraper/mod.rs:79-92 | `to_naive` counts back from today: n days, 7n weeks' days, n months, or 12y months; the `u32` product `y * 12` panics when it overflows |
| Scraper.YearIsTwelveMonths | src/lib/scraper/mod.rs:87-90 | a span of y years reaches the same day as one of 12y months |
| Scraper.WeekIsSevenDays | src/lib/scraper/mod.rs:83-86 | a span of w weeks reaches the same day as one of 7w days |
| Scraper.PairName | src/lib/scraper/cache.rs:91-92 | a currency pair is registered under "{from}/{to}", which contains '/' |
| Scraper.Provider.constructor | src/lib/utils/test.rs:52-65 | a new provider has no registered tickers, no countries and no requests |
| Scraper.Provider.WithTicker | src/lib/utils/test.rs:69-79 | the tickers are appended, with the given countries or `Usa` for each ticker when none are given |
| Scraper.Provider.WithCurrency | src/lib/utils/test.rs:81-85 | the pair "{from}/{to}" is appended with country NA |
| Scraper.Provider.Reset | src/lib/utils/test.rs:132-136 | both registration lists are cleared |
| Scraper.Provider.Load | src/lib/utils/test.rs:91-130 | the answer is the provider's answer to the registrations, and a successful load then resets them; a failed load leaves them in place |
| Scraper.DefaultCountries | src/lib/utils/test.rs:76-77 | the given countries, or `Usa` once per ticker |
| Mock.MockRespond | src/lib/utils/test.rs:91-127 | the mock answers when every ticker is in its price list (otherwise it panics), with one quote per ticker in order, priced from the list and in the currency of the ticker's country, and with no splits or dividends |
| Mock.NewMock | src/lib/utils/test.rs:52-65 | `Scraper::new()` is a provider with empty lists that answers as the mock does |
| Mock.MockCurrencyLoad | src/lib/utils/test.rs:56-63 | registering USD/GBP with the mock and loading gives the listed rate 0.87, and empties the mock again |
| Mock.DropLineBreaks | src/lib/utils/test.rs:19 | the bytes kept are exactly those other than CR and LF |
| Mock.CompareFiles | src/lib/utils/test.rs:11-32 | comparing panics when either file cannot be read |
| Mock.CompareReflexive | src/lib/utils/test.rs:11-32 | a file compares equal to itself |
| Mock.InsertedLineBreak | src/lib/utils/test.rs:19-31 | inserting a CR or LF byte anywhere does not change the comparison's answer |
| Mock.DifferentByte | src/lib/utils/test.rs:19-31 | files that differ in a byte other than CR and LF compare unequal |
| QuoteCache.Dump | src/lib/scraper/cache.rs:64-74 | a non-empty frame is written so that reading the file gives it back; an empty frame leaves the file unchanged |
| QuoteCache.LatestDate | src/lib/scraper/cache.rs:120-121 | the latest date is the date of some cached quote, and no quote is later |
| QuoteCache.UpdateStart | src/lib/scraper/cache.rs:120-136 | an update starts the day before the latest cached quote, or at the requested start when no quote is cached |
| QuoteCache.Restrict | src/lib/scraper/cache.rs:161-169 | the rows kept are those of a registered ticker dated within the period, ends included |
| QuoteCache.Answer | src/lib/scraper/cache.rs:161-179 | quotes and dividends are restricted to the registered tickers and the period; splits are returned as they are |
| QuoteCache.Merged | src/lib/scraper/cache.rs:104-111 | after `reset` the loaded-ticker list is sorted, holds each ticker once, and holds exactly the old list's and the registered tickers |
| QuoteCache.ValidCacheSkipsFetch | src/lib/scraper/cache.rs:138-158 | when every registered ticker was loaded before, the provider is not asked, no file changes, and the answer comes from the files |
| QuoteCache.FetchErrorPropagates | src/lib/scraper/cache.rs:141-145 | a failed fetch is returned as the load's failure and leaves the files unchanged |
| QuoteCache.FetchAppendsQuotes | src/lib/scraper/cache.rs:147-153 | after a fetch the quotes file holds the cached quotes followed by the fetched ones, with nothing removed, so rows fetched again appear twice |
| QuoteCache.QuotesFileGrows | src/lib/scraper/cache.rs:113-158 | what could be read from the quotes file before a load is a prefix of what can be read after it |
| QuoteCache.ReturnedQuotesInScope | src/lib/scraper/cache.rs:161-169 | every returned quote is of a registered ticker and within the period, whether it came from the files or from the provider |
| QuoteCache.ReloadIsCovered | src/lib/scraper/cache.rs:104-111 | after a load, registering the same tickers again finds them all loaded, and tickers loaded earlier stay loaded |
| QuoteCache.Cache.constructor | src/lib/scraper/cache.rs:26-36 | a new cache wraps the provider and the files with both ticker lists empty |
| QuoteCache.Cache.WithTicker | src/lib/scraper/cache.rs:81-89 | the tickers are appended, repeats included, and are forwarded to the inner provider |
| QuoteCache.Cache.WithCurrency | src/lib/scraper/cache.rs:91-98 | the pair is registered and forwarded only when it is not registered already |
| QuoteCache.Cache.Reset | src/lib/scraper/cache.rs:104-111 | the inner provider is reset, the registered tickers are merged into the loaded list, and the registered list is cleared |
| QuoteCache.Cache.ReadFiles | src/lib/scraper/cache.rs:114-136 | the frames read are the files' contents, and the update start is computed from the cached quotes |
| QuoteCache.Cache.RestrictToRegistered | src/lib/scraper/cache.rs:161-179 | the data becomes the answer restricted to the registered tickers and the period |
| QuoteCache.Cache.Load | src/lib/scraper/cache.rs:113-183 | the load returns what `PlanLoad` describes, asks the provider for the days from the update start to today only when the cache is not valid, and resets both ticker lists on success |
| QuoteCache.Either.WithTicker | src/lib/scraper/cache.rs:191-205 | the call goes to the active side unchanged |
| QuoteCache.Either.WithCurrency | src/lib/scraper/cache.rs:207-217 | the call goes to the active side unchanged |
| QuoteCache.Either.Reset | src/lib/scraper/cache.rs:223-233 | the call goes to the active side unchanged |
| QuoteCache.Either.Load | src/lib/scraper/cache.rs:235-240 | the call goes to the active side unchanged |
| Yahoo.ListingOf | src/lib/scraper/yahoo.rs:43-50 | Usa has no suffix and multiplier 1, Uk ".L" and 0.01, Brazil ".SA" and 1, Ireland ".L" and 1; any other country panics |
| Yahoo.CurrencyNameShape | src/lib/schema.rs:107-119 | every currency's name has three letters except NA, which is the only one starting with 'N' |
| Yahoo.RateTickerInjective | src/lib/scraper/yahoo.rs:38-41 | distinct currency pairs get distinct "{from}{to}=x" tickers |
| Yahoo.YahooScraper.constructor | src/lib/scraper/yahoo.rs:22-30 | a new scraper has an empty ticker and multiplier 1 |
| Yahoo.YahooScraper.WithTicker | src/lib/scraper/yahoo.rs:33-36 | the ticker is replaced and the multiplier kept |
| Yahoo.YahooScraper.WithCurrency | src/lib/scraper/yahoo.rs:38-41 | the ticker becomes the pair's rate ticker and the multiplier is kept |
| Yahoo.YahooScraper.WithCountry | src/lib/scraper/yahoo.rs:43-54 | the listing's suffix is appended to the ticker and its multiplier replaces the old one; a country without a listing panics and changes nothing |
| Yahoo.DayOf | src/lib/scraper/yahoo.rs:113-116 | a Unix time falls within the UTC day it is mapped to |
| Yahoo.Quotes | src/lib/scraper/yahoo.rs:106-121 | one element per quote: the quote's UTC day and its close times the multiplier |
| Yahoo.Splits | src/lib/scraper/yahoo.rs:123-138 | one element per split: its UTC day and a ratio that, multiplied by the denominator, gives the numerator |
| Yahoo.Dividends | src/lib/scraper/yahoo.rs:140-155 | one element per dividend: its UTC day and its amount, not scaled by the multiplier |
| Yahoo.PenceToPounds | src/lib/scraper/yahoo.rs:106-121 | a London listing's prices are a hundredth of the quoted closes |
| Filter.BuyOrSellOrSplitParses | src/lib/utils/polars.rs:148-166 | the rows `buy_or_sell_or_split` keeps are exactly those whose action parses as Buy, Sell or Split |
| Compute.QuotientMul | src/lib/utils/polars.rs:97-101 | a quotient by a non-zero divisor, multiplied back by the divisor, gives the dividend |
| Compute.PaperProfitIsGain | src/lib/utils/polars.rs:84-91 | the paper profit is the position's market value minus its cost at the average price |
| Compute.PaperProfitRateSign | src/lib/utils/polars.rs:79-82 | for a positive average price, the paper-profit rate is positive exactly when the market price is above the average price |
| Compute.ProfitRateIsPercentage | src/lib/utils/polars.rs:97-101 | the profit rate times the amount invested is a hundred times the profit |
| Compute.SellProfitIsProceedsMinusCost | src/lib/utils/polars.rs:133-135 | a sale's profit is its proceeds minus the cost, at the average price, of the units sold |
| Compute.OnlyOwnName | src/lib/utils/polars.rs:113-131 | the only action name containing "Withdraw", "Tax", "Buy" or "Fee" is that name itself |
| Compute.OnlySellContainsSell | src/lib/utils/polars.rs:103-111 | the only action name containing "Sell" is Sell |
| Compute.NegationsMatchExactly | src/lib/utils/polars.rs:103-131 | on action names, the three `contains_literal` sign flips negate exactly the Sell, Withdraw and Tax rows, whatever the value, and leave every other action's value as it is |
| Compute.NegationsUndo | src/lib/utils/polars.rs:103-131 | each sign flip applied twice gives back the value it started from |
| Compute.Allocation | src/lib/utils/polars.rs:137-140 | one allocation per position |
| Compute.AllocationSumsTo100 | src/lib/utils/polars.rs:137-140 | the allocations add up to 100 whenever the total market value is not zero |
| ColumnMap.MapColumnStrToF64 | src/lib/utils/polars.rs:43-59 | the mapping succeeds exactly when every key is in the map, and then gives each row its key's value; a missing key panics |
| Transform.WithYearMonth | src/lib/utils/polars.rs:183-189 | the table gains a year and a month per row |
| Transform.Months | src/lib/utils/polars.rs:191-202 | the month columns are the months that occur, each once, in ascending order |
| Transform.Cells | src/lib/utils/polars.rs:209-220 | a year's cell for each month is the sum of that year's values in that month, 0 when there are none |
| Transform.Body | src/lib/utils/polars.rs:209-229 | one pivot row per year |
| Transform.PivotOf | src/lib/utils/polars.rs:182-242 | the pivot has one row per year plus the Total row, and its columns are Year, the months and Total |
| Transform.PivotRowTotal | src/lib/utils/polars.rs:222-229 | each year's Total is the sum of that year's values |
| Transform.PivotGrandTotal | src/lib/utils/polars.rs:231-240 | the Total row's Total is the sum of every value in the table |
| Transform.PivotMonthTotal | src/lib/utils/polars.rs:231-240 | in the Total row, each month's cell is the sum of that month's values over all the years |
| Transform.ColumnCell | src/lib/utils/polars.rs:209-220 | a year's cell in a month's column is that month's values summed over the year |
| Transform.PivotOneYear | src/lib/utils/polars.rs:182-242 | three amounts in three months of one year pivot to the columns Year, the three month names in calendar order and Total, with the year's row and the Total row each holding the three amounts and their sum |
| CurrencyNormalize.Before | src/lib/currency.rs:63-72 | `split_once('/')` finds a part exactly when the separator occurs, and that part holds no separator |
| CurrencyNormalize.PairPrefix | src/lib/currency.rs:63-72 | the part of a pair ticker before its '/' names the currency it is quoted from |
| CurrencyNormalize.Currencies | src/lib/currency.rs:24-26 | the table's currency names, sorted and each once, are exactly those of its rows |
| CurrencyNormalize.OnlyTargetIff | src/lib/currency.rs:28-30 | the short cut is taken exactly when the table is non-empty and every row is in the target currency |
| CurrencyNormalize.RegisteredMembers | src/lib/currency.rs:32-39 | a pair is registered exactly when its currency's name is among the table's names and is not the target |
| CurrencyNormalize.ParsedNext | src/lib/currency.rs:32-35 | the loop goes past a name that parses and stops at the first that does not |
| CurrencyNormalize.PairNameInjective | src/lib/currency.rs:36-38 | distinct currencies paired with one target give distinct tickers |
| CurrencyNormalize.RegisteredOnce | src/lib/currency.rs:32-39 | every currency other than the target is registered once: no pair appears twice |
| CurrencyNormalize.RegisteredStep | src/lib/currency.rs:32-39 | one more name registers at most its own pair |
| CurrencyNormalize.LastPrice | src/lib/currency.rs:48-62 | a ticker has a last price exactly when it is quoted, and that price is one of its quotes |
| CurrencyNormalize.QuotedTickers | src/lib/currency.rs:48-51 | one group per quoted ticker, each once, in order of first appearance |
| CurrencyNormalize.RateTable | src/lib/currency.rs:48-87 | a quoted ticker without '/' panics; otherwise each quoted ticker gives the currency before its '/' at its last price, followed by the target at rate 1 |
| CurrencyNormalize.JoinedRates | src/lib/currency.rs:94-104 | after the left join and `fill_null(1)` every row has at least one rate |
| CurrencyNormalize.RateOf | src/lib/currency.rs:104 | a currency without an entry has rate 1 |
| CurrencyNormalize.JoinedRatesDistinct | src/lib/currency.rs:94-104 | with one entry per currency, the join gives each row exactly one rate |
| CurrencyNormalize.RateOfEntry | src/lib/currency.rs:94-104 | the entry for a currency gives that currency's rate |
| CurrencyNormalize.ConvertRowwise | src/lib/currency.rs:89-107 | with one entry per currency the output has the input's rows in order, each converted at its currency's rate and relabelled with the target |
| CurrencyNormalize.EntryCurrency | src/lib/currency.rs:63-72 | entry i of the rate table is the source currency of a pair into the target |
| CurrencyNormalize.EntriesDiffer | src/lib/currency.rs:48-87 | two entries of the rate table are for different currencies |
| CurrencyNormalize.RateTableKeys | src/lib/currency.rs:48-87 | with pairs into the target, the rate table has one entry per currency, and only the last is for the target |
| CurrencyNormalize.ConvertedRowwise | src/lib/currency.rs:94-107 | the rows keep their order, each converted at its currency's rate, and rows already in the target currency at rate 1 |
| CurrencyNormalize.ConvertRelabels | src/lib/currency.rs:106 | every converted row carries the target currency |
| CurrencyNormalize.ConvertFrom | src/lib/currency.rs:89-107 | every converted row is a row of the table rescaled at some rate |
| CurrencyNormalize.NormalizedFrom | src/lib/currency.rs:8-110 | every row `normalize` returns is a row of the table, either as it was or rescaled at some rate |
| CurrencyNormalize.NormalizedInTarget | src/lib/currency.rs:28-107 | a table `normalize` returns is in the target currency |
| CurrencyNormalize.RateOfLast | src/lib/currency.rs:77-87 | when only the last entry is for a currency, its rate is that currency's |
| CurrencyNormalize.QuoteWindow | src/lib/currency.rs:41-45 | the quotes are requested from three days before the present date up to it; without a date both ends default to today |
| CurrencyNormalize.RegisterOne | src/lib/currency.rs:33-38 | one name is parsed and, unless it is the target, registered as a pair with country NA |
| CurrencyNormalize.RegisterNext | src/lib/currency.rs:32-39 | one pass of the loop extends the registrations by the next name's pair, or stops at a name that does not parse |
| CurrencyNormalize.RegisterPairs | src/lib/currency.rs:32-39 | the loop registers the pairs of every name up to the first that does not parse, and succeeds exactly when every name parses |
| CurrencyNormalize.NormalizeResult | src/lib/currency.rs:8-110 | an empty table is an error; a table in the target currency only comes back unchanged; otherwise the registrations are made, the quotes are loaded and each row is converted, and an unparsable currency or a failed load is the error |
| CurrencyNormalize.Normalize | src/lib/currency.rs:8-110 | the method returns `NormalizeResult`, leaves the provider unchanged on the two early returns, and otherwise leaves it as registering and loading does |
| NormalizeExamples.CashToPounds | src/lib/currency.rs:170-216 | 150 USD and 1.56 GBP in pounds are 130.5 and 1.56 GBP at the mock's USD/GBP rate of 0.87 |
| NormalizeExamples.CashCurrencies | src/lib/currency.rs:24-26 | the two cash rows' currencies are GBP and USD, sorted |
| NormalizeExamples.CashRegistered | src/lib/currency.rs:32-39 | converting to GBP registers only USD/GBP |
| NormalizeExamples.CashAnswer | src/lib/utils/test.rs:91-127 | the mock answers USD/GBP with one quote of 0.87 |
| NormalizeExamples.OnePairRates | src/lib/currency.rs:48-87 | one quoted pair gives its own rate and then the target's rate of 1 |
| NormalizeExamples.CashConverted | src/lib/currency.rs:94-107 | the two rows converted at 0.87 and 1 |
| NormalizeExamples.CashConversion | src/lib/currency.rs:94-107 | the conversion of the two rows from the mock's quote |
| NormalizeExamples.CashRequest | src/lib/currency.rs:41-45 | the lookup asks the provider once, for the default period |
| NormalizeExamples.CashNames | src/currency.rs:19-24 | the older normaliser visits USD then GBP, in first-appearance order |
| NormalizeExamples.LookupQuoted | src/currency.rs:35-42 | a currency whose pair is answered with one quote maps to that quote's price, and the registrations are cleared |
| NormalizeExamples.LegacyUsdStep | src/currency.rs:35-42 | the dollar lookup registers USD/GBP, loads it and clears the mock |
| NormalizeExamples.LegacyGbpStep | src/currency.rs:31-33 | the pound lookup maps the target to 1 without a load |
| NormalizeExamples.LegacyCashLookup | src/currency.rs:19-48 | the lookups of USD and GBP give 0.87 and 1 |
| NormalizeExamples.LegacyCashRows | src/currency.rs:50-64 | the two rows, each scaled at its currency's rate, in pounds |
| NormalizeExamples.LegacyCashToPounds | src/currency.rs:9-67 | the older normaliser gives the same pounds as the newer one on the two rows |
| NormalizeExamples.UsdCurrencies | src/lib/currency.rs:24-26 | a table whose two rows are in dollars has the one currency name USD |
| NormalizeExamples.UsdRequest | src/lib/currency.rs:32-45 | for USD alone the loop registers only USD/GBP and the mock answers with its one quote |
| NormalizeExamples.UsdRates | src/lib/currency.rs:48-87 | the USD/GBP quote alone gives dollars at 0.87 and pounds at 1 |
| NormalizeExamples.UsdConvert | src/lib/currency.rs:94-107 | two dollar rows at those rates are each scaled by 0.87 |
| NormalizeExamples.UsdConverted | src/lib/currency.rs:48-107 | two dollar rows, converted with the USD/GBP quote, are each scaled by 0.87 |
| NormalizeExamples.UsdPass | src/lib/currency.rs:8-110 | a pass over two dollar rows against a mock with nothing registered converts both at 0.87, makes one request and leaves nothing registered |
| LegacyCurrencyNormalize.DayBackIsOneDay | src/currency.rs:37 | the period starts where the interval `Day(1)` reaches back to and ends today |
| LegacyCurrencyNormalize.LookupStepSpec | src/currency.rs:25-47 | a lookup panics exactly on a name that does not parse and on a successful load without quotes; otherwise it adds the name to the map, at rate 1 for the target without touching the provider, and at rate 1 after a failed load |
| LegacyCurrencyNormalize.LookupAllNext | src/currency.rs:19-48 | one more name adds that name's lookup after the earlier ones |
| LegacyCurrencyNormalize.LookupAllKeys | src/currency.rs:19-48 | the rate map has one key per looked-up name |
| LegacyCurrencyNormalize.LookupAllSucceeds | src/currency.rs:19-48 | no lookup panics when every name parses and every successful load has at least one quote |
| LegacyCurrencyNormalize.LookupAllTarget | src/currency.rs:31-33 | the target maps to 1, wherever it occurs among the names |
| LegacyCurrencyNormalize.LookupAllSameCurrency | src/currency.rs:31-33 | a table in the target currency only is looked up without a load: each name maps to 1 and the provider is left as it was |
| LegacyCurrencyNormalize.LookupAllStops | src/currency.rs:19-48 | once a prefix of the names panics, the whole lookup panics with the same message |
| LegacyCurrencyNormalize.LookupOne | src/currency.rs:25-47 | the closure's body for one name does what `LookupStep` describes |
| LegacyCurrencyNormalize.LookupPair | src/currency.rs:35-46 | registering and loading one pair does what `PairLookup` describes |
| LegacyCurrencyNormalize.LookupNext | src/currency.rs:19-48 | one pass of the closure extends the lookups by the next name, and its panic is the panic of the whole sequence |
| LegacyCurrencyNormalize.LookupRates | src/currency.rs:19-48 | the closure over the distinct currencies gives the rate map `LookupAll` describes |
| LegacyCurrencyNormalize.LegacyNormalize | src/currency.rs:9-67 | every row is scaled by its currency's looked-up rate and marked with the target currency |
| LegacyCurrencyNormalize.SameCurrencyUnchanged | src/currency.rs:19-64 | with no short cut, a table in the target currency still comes back as it was |
| AverageCost.CostOrders | src/lib/perpetual_inventory.rs:23 | the fold sees exactly the Buy, Sell and Split rows of the ledger |
| AverageCost.Trace | src/lib/perpetual_inventory.rs:20-90 | one output row per kept row, carrying that row's ticker state after it |
| AverageCost.WithCumulative | src/lib/perpetual_inventory.rs:20-90 | the one-pass computation with a map of running states per ticker gives the per-ticker folds of `Trace` |
| AverageCost.StateStep | src/lib/perpetual_inventory.rs:54-65 | one row of the pass keeps the map equal to the folds of every ticker's rows so far, and appends the specification's row |
| AverageCost.FoldStep | src/lib/perpetual_inventory.rs:84 | one more row changes only its own ticker's state, by one step |
| AverageCost.CollectLatest | src/lib/perpetual_inventory.rs:96-107 | one entry per ticker that appears in the trace, and no other |
| AverageCost.LatestIsFold | src/lib/perpetual_inventory.rs:96-107 | the state reported for a ticker is the fold of all of that ticker's Buy, Sell and Split rows |
| AverageCost.LatestIsLastRow | src/lib/perpetual_inventory.rs:102-105 | the state reported for a ticker is the one on its last row, and no later row has that ticker |
| AverageCost.LatestOfPrefix | src/lib/perpetual_inventory.rs:96-107 | after a prefix of the trace, a ticker is reported exactly when it has rows so far, at the fold of those rows |
| AverageCost.LatestStep | src/lib/perpetual_inventory.rs:102-105 | one more trace row updates only its ticker's entry |
| AverageCost.TickerFoldIsGroupFold | src/lib/perpetual_inventory.rs:84 | folding the group of a ticker equals one pass over the ledger that skips other tickers |
| AverageCost.SellKeepsAverage | src/lib/perpetual_inventory.rs:56 | a sale keeps the average and lowers the quantity by the amount sold |
| AverageCost.SplitKeepsCostBasis | src/lib/perpetual_inventory.rs:55 | a split divides the average and multiplies the quantity by its ratio, keeping the cost basis |
| AverageCost.BuyAddsToCostBasis | src/lib/perpetual_inventory.rs:57-62 | a purchase adds its price times quantity to the cost basis and its quantity to the holding, as the formula of lines 18-19 says |
| AverageCost.BuysOnlyCostBasis | src/lib/perpetual_inventory.rs:18-19 | with purchases only, the holding is the total bought and the cost basis the total spent |
| AverageCost.BuysOnlyWeightedMean | src/lib/perpetual_inventory.rs:18-19 | with purchases only, the average is the total spent over the total bought |
| AverageCostMock.MockAppl | src/lib/perpetual_inventory.rs:116-145 | the mock ledger leaves APPL at an average of 98.03 with 13.2 shares |
| AverageCostMock.MockGoogl | src/lib/perpetual_inventory.rs:116-145 | the mock ledger leaves GOOGL at an average of 69.10 with 10 shares after the split |
| AverageCostMock.ApplPrefixes | src/lib/perpetual_inventory.rs:116-145 | the APPL state after each prefix of the mock ledger |
| AverageCostMock.GooglPrefixes | src/lib/perpetual_inventory.rs:116-145 | the GOOGL state after each prefix of the mock ledger |
| LegacyAverageCost.Signed | src/lib/utils/polars.rs:103-111 | a row whose action names Sell has its quantity negated; the other fields are kept |
| LegacyAverageCost.LegacyRows | src/perpetutal_inventory.rs:22-23 | the Buy and Sell rows, in order, each with its quantity signed |
| LegacyAverageCost.LegacyTrace | src/perpetutal_inventory.rs:19-82 | one output row per signed row, carrying its ticker's state after it |
| LegacyAverageCost.LegacyWithCumulative | src/perpetutal_inventory.rs:19-82 | the one-pass computation with a map of running states gives the per-ticker folds of `LegacyTrace` |
| LegacyAverageCost.LegacyStateStep | src/perpetutal_inventory.rs:50-57 | one row of the pass keeps the map equal to the folds so far and appends the specification's row |
| LegacyAverageCost.LegacyFoldStep | src/perpetutal_inventory.rs:76 | one more row changes only its own ticker's state |
| LegacyAverageCost.LegacyTickerFoldIsGroupFold | src/perpetutal_inventory.rs:76 | folding a ticker's group equals one pass that skips other tickers |
| LegacyAverageCost.LegacyRowsAddLast | src/perpetutal_inventory.rs:22-23 | one more ledger row adds its signed self when it is a Buy or a Sell, and nothing otherwise |
| LegacyAverageCost.LegacyStepRule | src/perpetutal_inventory.rs:50-56 | the holding moves by the row's quantity; a negative quantity keeps the average and a non-negative one adds its amount to the cost basis |
| LegacyAverageCost.StepsAgree | src/perpetutal_inventory.rs:50-56 | on a Buy or a positive Sell, the older step of the signed row is the newer step of the row |
| LegacyAverageCost.FoldsAgree | src/perpetutal_inventory.rs:19-82 | without splits, the older fold over signed rows equals the newer fold |
| LegacyAverageCost.TracesAgree | src/perpetutal_inventory.rs:19-82 | without splits, the two versions produce the same rows with the same states, the older showing sales negated |
| LegacyAverageCostMock.MockLegacyAppl | src/perpetutal_inventory.rs:108-134 | the older fold leaves APPL at 98.03 with 13.2 shares |
| LegacyAverageCostMock.MockLegacyGoogl | src/perpetutal_inventory.rs:108-134 | the older fold does not see the split and leaves GOOGL at 34.55 with 20 shares |
| LegacyAverageCostMock.LegacyApplPrefixes | src/perpetutal_inventory.rs:108-134 | the older APPL state after each prefix of the mock ledger |
| LegacyAverageCostMock.LegacyGooglPrefixes | src/perpetutal_inventory.rs:108-134 | the older GOOGL state after each prefix of the mock ledger |
| Dividends.TaxNegatedExactly | src/lib/utils/polars.rs:123-131 | on the kept rows only a Tax changes sign, and only its amount changes |
| Dividends.Income | src/lib/dividends.rs:15-22 | the Dividend, Tax and Interest rows of the ledger, taxes negated, and nothing else |
| Dividends.IncomeAddLast | src/lib/dividends.rs:15-22 | rows are kept in ledger order: a further income row comes last, another row is skipped |
| Dividends.TryFromOrders | src/lib/dividends.rs:13-28 | fails with "Orders must contain Dividends or Interests!" exactly when no row is income; otherwise gives the non-empty income |
| Dividends.ByTicker | src/lib/dividends.rs:55-66 | one entry per ticker, each holding the sum of that ticker's amounts |
| Dividends.ByTickerCovers | src/lib/dividends.rs:55-66 | a ticker has an entry exactly when it has an income row |
| Dividends.ByTickerTotal | src/lib/dividends.rs:55-66 | the entries add up to the whole income |
| Dividends.MinText | src/lib/dividends.rs:80 | the least of a non-empty set of strings is one of them and no member is below it |
| Dividends.GroupRow | src/lib/dividends.rs:77-81 | a group's row carries its day and ticker and the sum of its amounts |
| Dividends.GroupRowAction | src/lib/dividends.rs:80 | a group's action is one of its rows' actions and no row's action is below it |
| Dividends.Collect | src/lib/dividends.rs:68-83 | one row per day and ticker, each with the group's summed amount |
| Dividends.CollectCovers | src/lib/dividends.rs:68-83 | a day and ticker has a row exactly when the income has a row for it |
| Dividends.CollectAction | src/lib/dividends.rs:80 | the row of a day and ticker carries the least of that group's actions |
| Dividends.CollectTotal | src/lib/dividends.rs:68-83 | the rows of `collect` add up to the whole income |
| Dividends.IncomeRescaled | src/lib/dividends.rs:39 | conversion rescales Amount and Price and relabels Currency, leaving Qty and Tax |
| Dividends.NormalizeCurrency | src/lib/dividends.rs:30-46 | the income converted by the shared normaliser over Amount and Price, and the provider's registrations and requests left as that conversion leaves them |
| Dividends.PivotIncome | src/lib/dividends.rs:48-53 | the pivot of the amounts by year and month ends with the Total row |
| Dividends.PivotIncomeTotal | src/lib/dividends.rs:48-53 | the pivot's grand total is the whole income |
| DividendsMock.IncomeRowsAt | src/lib/utils/test.rs:140-172 | the income rows of the test ledger are rows 2, 11 and 12 |
| DividendsMock.MockIncome | src/lib/dividends.rs:15-22 | the test ledger's income is those three rows, unchanged since none is a tax |
| DividendsMock.MockTryFromOrders | src/lib/dividends.rs:96-97 | `try_from_orders` succeeds on the test ledger |
| DividendsMock.MockByTicker | src/lib/dividends.rs:92-117 | `by_ticker` on the test ledger gives GOOGL 3.26 and APPL 2.75 |
| DividendsMock.MockPivotTotal | src/lib/dividends.rs:119-141 | the pivot's grand total on the test ledger is 6.01 |
| DividendsMock.MockPivot | src/lib/dividends.rs:121-141 | the pivot of the test ledger's dividends has the columns Year, May, July, August and Total, and the rows 2024 and Total, each holding 1.34, 1.92, 2.75 and 6.01 |
| Uninvested.Signed | src/lib/uninvested.rs:18-33 | a flow keeps the row's currency, and its amount is negated exactly when the action pays out |
| Uninvested.FromOrders | src/lib/uninvested.rs:11-36 | the flows are the signed rows that are not Ignore, nothing else |
| Uninvested.OutflowOf | src/lib/uninvested.rs:21-30 | the pattern "Buy\|Withdraw\|Tax\|Fee" matches exactly the names of Buy, Withdraw, Tax and Fee |
| Uninvested.FromOrdersAddLast | src/lib/uninvested.rs:11-36 | an Ignore row adds nothing; any other row adds its signed flow after the earlier ones |
| Uninvested.CashRowOf | src/lib/uninvested.rs:43-50 | a currency's row has ticker Cash and the currency's country, and a currency that does not parse panics |
| Uninvested.CashRows | src/lib/uninvested.rs:44-50 | the rows of a list of totals, failing exactly when one of them fails |
| Uninvested.Collect | src/lib/uninvested.rs:38-53 | one row per currency with the sum of its flows; fails exactly when a flow's currency does not parse |
| Uninvested.CollectCovers | src/lib/uninvested.rs:41-42 | a currency has a row exactly when some flow is in that currency |
| Uninvested.CollectTotal | src/lib/uninvested.rs:41-42 | the rows add up to all the flows |
| Uninvested.UninvestedCash | src/lib/uninvested.rs:10-53 | the pipeline fails exactly when a row that is not Ignore has a currency that does not parse |
| UninvestedExample.SignedMovement | src/lib/uninvested.rs:65-90 | each movement of the test ledger gives the flow its action's sign calls for |
| UninvestedExample.LedgerFlows | src/lib/uninvested.rs:92 | the flows of the test ledger |
| UninvestedExample.FlowSums | src/lib/uninvested.rs:41-42 | the test's flows sum to 9350.95 dollars and 15.43 pounds |
| UninvestedExample.CollectFlows | src/lib/uninvested.rs:38-53 | the rows of the test's flows, with countries Usa and Uk |
| UninvestedExample.LedgerCash | src/lib/uninvested.rs:63-114 | the test's answer: 9350.95 dollars and 15.43 pounds |
| Portfolio.Trades | src/lib/portfolio.rs:26 | exactly the Buy and Sell rows of the ledger |
| Portfolio.Aggregate | src/lib/portfolio.rs:29-39 | a ticker's aggregate holds the sum of its amounts and of its signed quantities |
| Portfolio.TradedTickers | src/lib/portfolio.rs:29 | the traded tickers, sorted, each once |
| Portfolio.OpenTickers | src/lib/portfolio.rs:40 | the filter on the aggregates is a filter on the tickers |
| Portfolio.OpenPositionsSorted | src/lib/portfolio.rs:41 | the rows of `from_orders` are sorted by ticker, with no ticker twice |
| Portfolio.OpenPositionsRows | src/lib/portfolio.rs:29-40 | each row is its ticker's aggregate and holds a positive quantity |
| Portfolio.OpenPositionsCover | src/lib/portfolio.rs:18-49 | a ticker has a row exactly when it was traded and its accrued quantity is positive |
| Portfolio.NetQuantity | src/lib/portfolio.rs:27 | over trades, the signed quantities add up to the quantity bought minus the quantity sold |
| Portfolio.AccruedIsBoughtMinusSold | src/lib/portfolio.rs:34-36 | a ticker's accrued quantity is what was bought of it minus what was sold |
| Portfolio.JoinRow | src/lib/portfolio.rs:77-78 | one left-join row: merged once per matching right row, or filled when there is none |
| Portfolio.LeftJoin | src/lib/portfolio.rs:77-78 | every left row appears, once per match or once filled, and nothing else |
| Portfolio.DistinctKeysMatchOnce | src/lib/portfolio.rs:77 | a right table with distinct tickers matches each left row at most once |
| Portfolio.LeftJoinOneToOne | src/lib/portfolio.rs:77-78 | when each left row matches at most one right row, the join keeps the rows one for one and in order |
| Portfolio.Latest | src/lib/portfolio.rs:64-67 | the chosen quote is one of the group and no quote of the group is later |
| Portfolio.QuoteGroupKeys | src/lib/portfolio.rs:55-63 | the groups are keyed by the distinct (Ticker, Currency) pairs of the quotes dated on or before the present |
| Portfolio.QuoteGroupPrice | src/lib/portfolio.rs:64-67 | each group is priced at a quote of its pair dated on or before the present, and no such quote is later |
| Portfolio.QuoteGroupsDistinct | src/lib/portfolio.rs:60-63 | no two groups share a (Ticker, Currency) pair |
| Portfolio.QuoteGroupsCover | src/lib/portfolio.rs:55-63 | every quote dated on or before the present has its group |
| Portfolio.QuotedRow | src/lib/portfolio.rs:74-78 | each row the join makes for a holding is that holding priced from the quotes |
| Portfolio.QuotedRows | src/lib/portfolio.rs:51-81 | every row out is a holding priced from a latest quote of its ticker, or at 0 when it has none |
| Portfolio.QuotedCover | src/lib/portfolio.rs:74-78 | every currency a holding's ticker is quoted in gives it a priced row in that currency |
| Portfolio.QuotedOneToOne | src/lib/portfolio.rs:51-81 | with one quote currency per ticker, each holding is priced in place, one row per row, in order |
| Portfolio.CurrentIsFold | src/lib/portfolio.rs:84-97 | the engine's state joined on Ticker, with nulls as 0, is the fold of the ticker's cost rows |
| Portfolio.AveragedIsCosted | src/lib/portfolio.rs:83-109 | the rows whose average-cost quantity is positive are kept, in order, each valued at that quantity times its average price |
| Portfolio.LatestAgrees | src/lib/portfolio.rs:89-106 | row by row, joining with the engine's state is the valuation at cost |
| Portfolio.CostedRow | src/lib/portfolio.rs:98-106 | a row valued at cost has Amount equal to AveragePrice times AccruedQty |
| Portfolio.AppraisedGain | src/lib/portfolio.rs:111-118 | the paper profit is market value minus amount, and for a held position its rate is positive exactly when the profit is |
| Portfolio.ProfitedGain | src/lib/portfolio.rs:120-126 | the profit is market value minus amount plus dividends, and the rate is that profit as a percentage of the amount |
| Portfolio.DividendsJoined | src/lib/portfolio.rs:128-139 | with one entry per ticker, each row keeps its place and gains its ticker's dividends, 0 when it has none |
| Portfolio.Allocated | src/lib/portfolio.rs:169-174 | every row keeps all its other fields and gains an allocation |
| Portfolio.AllocationsSumTo100 | src/lib/utils/polars.rs:137-140 | the allocations add up to 100 when the total market value is not 0 |
| Portfolio.Matched | src/lib/portfolio.rs:156-164 | a working row appears once per cash line with its key, or once when there is none |
| Portfolio.MatchedRows | src/lib/portfolio.rs:156-164 | the outer join's rows from the working frame are exactly the working rows |
| Portfolio.MergeCashRows | src/lib/portfolio.rs:146-167 | the merge keeps every row and adds a cash row for each cash line that matches none, and nothing else |
| Portfolio.MergeDisjoint | src/lib/portfolio.rs:146-167 | when no cash line shares a row's key, the merge appends one row per cash line |
| Portfolio.CashAppraised | src/lib/portfolio.rs:165-166 | a cash row, with quantity 1 and its amount as price, is worth its amount and makes no paper profit |
| Portfolio.MoneyRescaled | src/lib/portfolio.rs:184-187 | the first pass leaves AccruedQty and MarketPrice as they are |
| Portfolio.PriceRescaled | src/lib/portfolio.rs:193-200 | the second pass converts MarketPrice alone and relabels MarketPriceCurrency |
| Portfolio.RegroupRow | src/lib/portfolio.rs:202-215 | a (Ticker, Currency) group sums Amount and AccruedQty and averages AveragePrice weighted by quantity |
| Portfolio.RegroupKeys | src/lib/portfolio.rs:202-206 | one row per (Ticker, Currency) pair, and no two with the same pair |
| Portfolio.RegroupOneCurrency | src/lib/portfolio.rs:202-206 | in one currency the regrouped rows have distinct tickers |
| Portfolio.RegroupTotals | src/lib/portfolio.rs:207-215 | the regroup keeps the totals of Amount, AccruedQty and, when no group's quantity sums to 0, the cost basis |
| Portfolio.CashRegroupTotal | src/lib/portfolio.rs:228-233 | the cash regroup keeps the total cash |
| Portfolio.RegroupInCurrency | src/lib/portfolio.rs:202-215 | regrouping rows of one currency gives rows of that currency |
| Portfolio.CashRegroupInCurrency | src/lib/portfolio.rs:228-233 | the regrouped cash stays in its currency |
| Portfolio.PassesInTarget | src/lib/portfolio.rs:181-200 | after both passes succeed every row is in the target currency |
| Portfolio.NormalizedInTargetCurrency | src/lib/portfolio.rs:176-238 | a successful `normalize_currency` leaves every row, cash included, in the target currency, and no cash pending |
| Portfolio.NormalizedTickersDistinct | src/lib/portfolio.rs:176-217 | without pending cash, a successful `normalize_currency` leaves one row per ticker |
| Portfolio.Reported | src/lib/portfolio.rs:252-255 | the reported row keeps every column but Country |
| Portfolio.Portfolio.FromOrders | src/lib/portfolio.rs:18-49 | the builder holds the ledger, its open positions and no cash, and the present day defaults to today |
| Portfolio.Portfolio.WithQuotes | src/lib/portfolio.rs:51-81 | the working frame becomes the quoted frame; the pending cash is untouched |
| Portfolio.Portfolio.WithAveragePrice | src/lib/portfolio.rs:83-109 | the working frame becomes the frame valued at cost |
| Portfolio.Portfolio.PaperProfit | src/lib/portfolio.rs:111-118 | each row gains its market value, paper profit and rate |
| Portfolio.Portfolio.WithProfit | src/lib/portfolio.rs:120-126 | each row gains its profit and rate |
| Portfolio.Portfolio.WithDividends | src/lib/portfolio.rs:128-139 | the working frame is joined with the dividends |
| Portfolio.Portfolio.WithUninvestedCash | src/lib/portfolio.rs:141-144 | the cash is kept pending and the working frame is unchanged |
| Portfolio.Portfolio.MergeUninvestedCash | src/lib/portfolio.rs:146-167 | the working frame is merged with the cash frame |
| Portfolio.Portfolio.WithAllocation | src/lib/portfolio.rs:169-174 | each row gains its allocation |
| Portfolio.Portfolio.NormalizeCurrency | src/lib/portfolio.rs:176-238 | both passes, the regroup and the cash pass in order, with the first failure returned and the pending cash taken |
| Portfolio.Portfolio.NormalizeCash | src/lib/portfolio.rs:219-235 | the pending cash is converted, regrouped and merged, or its failure returned |
| Portfolio.Portfolio.Collect | src/lib/portfolio.rs:247-257 | the pending cash is merged at most once and every row is reported without Country |
| PortfolioMock.MockTradesKept | src/lib/portfolio.rs:18-49 | the buys and sells of the test ledger are its rows at positions 1 and 3 to 10 (counting from 0), in order |
| PortfolioMock.MockTickers | src/lib/portfolio.rs:18-49 | the test ledger trades APPL and GOOGL, in that order |
| PortfolioMock.MockOpenPositions | src/lib/portfolio.rs:290-296 | `from_orders` on the test ledger holds APPL for 2020.236 with 13.2 shares and GOOGL for 1541.4 with 20 shares |
| PortfolioMock.MockLoad | src/lib/portfolio.rs:271-275 | the mock provider with GOOGL and APPL and no countries answers with the quotes 33.87 (GOOGL) and 103.95 (APPL), in USD |
| PortfolioMock.MockQuoted | src/lib/portfolio.rs:290-296 | `with_quotes` prices APPL at 103.95 and GOOGL at 33.87 on any present date from the quotes' date on |
| PortfolioMock.MockAveraged | src/lib/portfolio.rs:327-334 | `with_average_price` values APPL at 13.2 shares for 1293.996 (98.03 each) and GOOGL at 10 shares for 691 (69.10 each) |
| PortfolioMock.MockDividended | src/lib/portfolio.rs:412-420 | `with_dividends` gives APPL 9.84 and GOOGL 1.45 |
| PortfolioMock.MockAppraised | src/lib/portfolio.rs:452-461 | `paper_profit` gives market values 1372.14 and 338.7, paper profits 78.144 and -352.3, and rates that show as 6.039 and -50.9841 to four places |
| PortfolioMock.MockProfited | src/lib/portfolio.rs:502-514 | `with_profit` gives profits 87.984 and -350.85, and rates that show as 6.7994 and -50.7742 to four places |
| PortfolioMock.MockProfitReports | src/lib/portfolio.rs:502-514 | the profit test's chain collects the two expected report rows, every other column 0 |
| PortfolioMock.GroupOfTwo | src/lib/portfolio.rs:202-206 | of two rows with different (Ticker, Currency) keys, each key's group is its own row |
| PortfolioMock.RegroupOne | src/lib/portfolio.rs:207-215 | a group of one row with shares held keeps its Amount, AccruedQty, MarketPrice and AveragePrice, and the other columns are empty |
| PortfolioMock.RegroupTwo | src/lib/portfolio.rs:202-215 | two rows with different keys and shares held regroup to themselves, in order |
| PortfolioMock.MockNormalized | src/lib/portfolio.rs:339-374 | `normalize_currency(GBP)` on the rows valued at cost fails nowhere and gives APPL 1125.77652, 13.2 shares, 90.4365 and 85.2861, and GOOGL 601.17, 10 shares, 29.4669 and 60.117, each within half a cent of the test's two-place figure |
| PortfolioTests.LoadMockQuotes | src/lib/portfolio.rs:271-275 | a fresh mock with GOOGL and APPL registered loads the two mock quotes, and is left with nothing registered and one request |
| PortfolioTests.QuotedPortfolio | src/lib/portfolio.rs:268-298 | `from_orders` then `with_quotes` holds the priced APPL and GOOGL rows, with no pending cash, and hands back the loaded mock |
| PortfolioTests.AveragedPortfolio | src/lib/portfolio.rs:327-334 | then `with_average_price` holds the rows valued at cost, with the loaded mock handed back |
| PortfolioTests.AveragePriceTest | src/lib/portfolio.rs:302-336 | the collected rows are the test's expected ones, every other column 0 |
| PortfolioTests.DividendsTest | src/lib/portfolio.rs:380-422 | the collected rows are the test's expected ones, every other column 0 |
| PortfolioTests.CapitalGainTest | src/lib/portfolio.rs:426-464 | the collected rows are the test's expected ones, every other column 0 |
| PortfolioTests.ProfitTest | src/lib/portfolio.rs:468-518 | the collected rows are the test's expected ones, every other column 0 |
| PortfolioTests.NormalizedCurrencyTest | src/lib/portfolio.rs:339-377 | on the mock that loaded the quotes, the collected rows in pounds are the test's expected ones to two places, every other column 0 |
| Liquidated.JoinOne | src/lib/liquidated.rs:31-49 | the trace rows a sale joins to match it on ticker, date and action |
| Liquidated.InnerJoin | src/lib/liquidated.rs:31-49 | every joined row comes from a left row |
| Liquidated.FromOrdersAsWritten | src/lib/liquidated.rs:14-63 | every row is a sale of the ledger with its own date, ticker, quantity, price, amount and currency |
| Liquidated.FromOrders | src/lib/liquidated.rs:14-63 | every row is a sale of the ledger, paired with its own trace row |
| Liquidated.TraceOrders | src/lib/liquidated.rs:16-18 | the trace has one row per Buy, Sell or Split row, in order |
| Liquidated.SalesInOrder | src/lib/liquidated.rs:50-60 | the rows are exactly the ledger's sales, in ledger order, each with its own fields |
| Liquidated.ProfitAgainstAverageBefore | src/lib/utils/polars.rs:133-135 | a sale's profit is its price minus the average held just before it, times the quantity sold |
| Liquidated.SaleKeepsAverage | src/lib/perpetual_inventory.rs:56 | the average on a sale's trace row is the average before the sale |
| Liquidated.SoldBeforeJoin | src/lib/liquidated.rs:31-50 | keeping the sales after the join is keeping them before it, since the action is a join column |
| Liquidated.JoinedSales | src/lib/liquidated.rs:31-51 | with no two sales of a ticker on one day, the sales joined to the trace are the trace's own sale rows |
| Liquidated.AsWrittenJoinsSales | src/lib/liquidated.rs:31-51 | the join as written is the join of the kept sales |
| Liquidated.AsWrittenAgrees | src/lib/liquidated.rs:14-63 | when no two sales of a ticker share a day, the join as written gives each sale once with its own trace row |
| Liquidated.DoubledJoin | src/lib/liquidated.rs:31-49 | a purchase and two identical sales: each sale joins to both sale rows of the trace |
| Liquidated.SameDaySalesCountedTwice | src/lib/liquidated.rs:31-51 | on such a ledger the join as written reports every sale and its profit twice |
| Liquidated.ProfitNotConverted | src/lib/liquidated.rs:74 | conversion scales Amount and Price and relabels Currency, and Profit stays in the sale's currency |
| Liquidated.NormalizeCurrency | src/lib/liquidated.rs:65-81 | the rows converted by the shared normaliser over Amount and Price, and the provider's registrations and requests left as that conversion leaves them |
| Liquidated.PivotProfit | src/lib/liquidated.rs:83-92 | the profits by year and month, ending with the Total row |
| Liquidated.PivotProfitTotal | src/lib/liquidated.rs:83-92 | the pivot's grand total is the whole realised profit |
| LiquidatedMock.MockKeptIsCostOrders | src/lib/perpetual_inventory.rs:23 | the ten Buy, Sell and Split rows of the test ledger |
| LiquidatedMock.MockSaleRow3 | src/lib/perpetual_inventory.rs:54-65 | the first GOOGL sale's trace row: average 34.8, 18 shares left |
| LiquidatedMock.MockSaleRow4 | src/lib/perpetual_inventory.rs:54-65 | the second GOOGL sale's trace row: average 34.8, 10 shares left |
| LiquidatedMock.MockSaleRow7 | src/lib/perpetual_inventory.rs:54-65 | the APPL sale's trace row: average 107.48, 2.7 shares left |
| LiquidatedMock.MockProfit | src/lib/liquidated.rs:104-134 | `from_orders` on the test ledger: three sales with profits 81.36, 2.4 and 12.8 |
| LiquidatedMock.MockUniqueSales | src/lib/utils/test.rs:140-172 | no two sales of the test ledger share a ticker and a day |
| LiquidatedMock.MockProfitAsWritten | src/lib/liquidated.rs:104-134 | so the join as written gives the same three rows on it |
| Summary.PortfolioFrame | src/lib/summary.rs:16-36 | the frame holds the invested totals and one UninvestedCash value per cash row, and none of the later columns |
| Summary.InvestedAndCash | src/lib/summary.rs:19-33 | every row is cash or invested, so a column total splits into its invested and its cash part |
| Summary.CashRowIgnored | src/lib/summary.rs:19-33 | a cash row changes none of the invested totals and adds its amount to the cash column |
| Summary.Hstack | src/lib/summary.rs:41-50 | a horizontal concatenation adding one column is refused exactly when a column of that name is already there |
| Summary.ProfitAdded | src/lib/summary.rs:38-58 | a non-empty table adds the total of its non-cash profits, failing when the column exists; an empty one sets the column to 0 |
| Summary.DividendsAdded | src/lib/summary.rs:60-77 | a non-empty table adds the sum of its Dividends column, failing when the column exists; an empty one sets it to 0 |
| Summary.WithCapital | src/lib/summary.rs:106-110 | the capital is added exactly when it was computed and the column is not there yet |
| Summary.WithdrawSign | src/lib/utils/polars.rs:113-121 | a deposit is kept as is and a withdrawal negated |
| Summary.CapitalIsDepositsLessWithdrawals | src/lib/summary.rs:86-89 | the capital flows total the deposits less the withdrawals |
| Summary.FlowsInTarget | src/lib/currency.rs:28-30 | flows already in the target currency come back unconverted |
| Summary.CapitalInTargetCurrency | src/lib/summary.rs:79-113 | when every deposit and withdrawal is in the target currency, PrimaryCapital is the deposits less the withdrawals |
| Summary.NoCapitalFails | src/lib/currency.rs:19-22 | without deposits or withdrawals the conversion, and so the step, fails |
| Summary.Finished | src/lib/summary.rs:135-160 | NetProfit is PaperProfit plus Dividends plus LiquidatedProfit, and the selection fails exactly when a step has not run |
| Summary.Lines | src/lib/summary.rs:115-133 | one (Description, Amount) line per figure, in the column order, each with its rate against PrimaryCapital |
| Summary.RatesOfCapital | src/lib/summary.rs:125-130 | each rate is the figure as a percentage of the capital, and the PrimaryCapital line has rate 100 |
| Summary.Summary.FromPortfolio | src/lib/summary.rs:16-36 | the frame of the portfolio's rows |
| Summary.Summary.WithDividends | src/lib/summary.rs:60-77 | the step either fails leaving the frame as it was, or replaces it |
| Summary.Summary.WithLiquidatedProfit | src/lib/summary.rs:38-58 | the step either fails leaving the frame as it was, or replaces it |
| Summary.Summary.WithCapitalInvested | src/lib/summary.rs:79-113 | the deposits and withdrawals converted through the provider and added as PrimaryCapital, or the first error; the provider is left as that conversion leaves it |
| Summary.Summary.Finish | src/lib/summary.rs:135-160 | the finished frame |
| Summary.Summary.Collect | src/lib/summary.rs:115-133 | the lines of the finished frame |
| Timeline.ParseIsoDate | src/lib/timeline.rs:33-34 | the parse succeeds exactly when the text is four, two and two digits split by dashes that name a day of the calendar, and then gives the day number of that year, month and day |
| Timeline.ParseExampleDate | src/lib/timeline.rs:120 | "2024-09-27" parses to day 19993 |
| Timeline.TargetDate | src/lib/timeline.rs:32-37 | without a date the target is today |
| Timeline.SnapshotOrders | src/lib/timeline.rs:43-47 | a snapshot sees exactly the Split rows and the rows dated on or before its date |
| Timeline.SnapshotsGrow | src/lib/timeline.rs:43-47 | a later snapshot sees every order an earlier one sees |
| Timeline.Steps | src/lib/timeline.rs:86-90 | the dates start at the first date and end at the target; each next date is the previous one plus the interval, capped at the target |
| Timeline.StepsRise | src/lib/timeline.rs:89-90 | from a date not past the target the dates rise strictly by the interval, but the last, and stay between the first date and the target |
| Timeline.StepsPastTarget | src/lib/timeline.rs:89-90 | from a date past the target there are two snapshots: that date, then the target |
| Timeline.StepsCount | src/lib/timeline.rs:86-90 | with n snapshots, n-1 steps of the interval reach the target and n-2 do not |
| Timeline.Run | src/lib/timeline.rs:42-91 | one snapshot per date, stopping at the first error |
| Timeline.RunSnapshots | src/lib/timeline.rs:49-85 | each snapshot of a successful run is the summary, at its own date, of the orders that date sees |
| Timeline.SortByDate | src/lib/timeline.rs:93-95 | the snapshots sorted by date, the same ones as often as before |
| Timeline.SortSorted | src/lib/timeline.rs:93-95 | snapshots already in date order are left as they are |
| Timeline.RunFirst | src/lib/timeline.rs:42-91 | a run is the first snapshot's error, or its snapshot followed by the run from the next date |
| Timeline.RunSteps | src/lib/timeline.rs:42-91 | the stepping loop gives the run over the dates `Steps` describes |
| Timeline.SummaryOverTime | src/lib/timeline.rs:25-96 | `summary` gives the timeline `TimelineResult` describes |
| Timeline.SortedSnapshots | src/lib/timeline.rs:86-95 | the sorted snapshots follow their dates; from a first date past the target, the target comes first |
| Timeline.TimelineDates | src/lib/timeline.rs:25-96 | the dates of a successful timeline, from the first order's date up to the target |
| LegacyDate.ParseDate | src/scraper/scraper.rs:27-40 | "Wrong format" unless there are exactly three '-'-separated fields; then each field must parse as an unsigned integer of its width |
| LegacyDate.DateText | src/scraper/scraper.rs:19-25 | the date part followed by a zero time and offset |
| LegacyDate.ParseDatePart | src/scraper/scraper.rs:19-40 | parsing the printed date part gives the date back |
| LegacyDate.DisplayRoundTrip | src/scraper/scraper.rs:19-40 | for a four-digit year the first ten characters of the display parse back to the date |
| LegacyDate.DisplayIsNotParsed | src/scraper/scraper.rs:19-40 | the whole displayed string is not accepted, since its last field carries the time |
| LegacyDate.TimeTextAgrees | src/scraper/scraper.rs:6-17 | `Time` prints as the newer `Interval` does, and distinct spans print differently |
| Broker.Sanitize | src/lib/broker/mod.rs:27-36 | the rows sorted by date, each row as often as before |
| Broker.SanitizeSorted | src/lib/broker/mod.rs:27-36 | with the model's stable date sort, rows already in date order are left as they are |
| Broker.SanitizeIdempotent | src/lib/broker/mod.rs:27-36 | with the model's stable date sort, sorting twice is sorting once |
| Broker.MapRows | src/lib/broker/trading212.rs:127-175 | the rows convert exactly when every row does, one order per row in order; otherwise the failure is some row's |
| Broker.SanitizedFrom | src/lib/broker/mod.rs:27-36 | every sanitized row is the conversion of one of the loader's rows |
| Broker.LoadAllOk | src/lib/broker/mod.rs:17-25 | a directory loads exactly when every file does, and then it is the files' rows in file order |
| Broker.LoadAllFail | src/lib/broker/mod.rs:17-25 | a failing directory load reports the error of the first file that fails |
| Broker.LoadFromDir | src/lib/broker/mod.rs:17-25 | the loop over the files gives `LoadAll` |
| Broker.LoadPrefixFails | src/lib/broker/mod.rs:20-22 | once a prefix of the files fails, the whole load fails with the same error |
| Trading212.MapAction | src/lib/broker/trading212.rs:44-55 | each action's pattern on the first two words of the description, both directions, and a panic naming the text otherwise |
| Trading212.FirstTwoWordsDecide | src/lib/broker/trading212.rs:45 | descriptions that agree on their first two words map alike |
| Trading212.MarketBuy | src/lib/broker/trading212.rs:49 | "Market buy" is a Buy |
| Trading212.LimitSell | src/lib/broker/trading212.rs:50 | "Limit sell" is a Sell |
| Trading212.OrdinaryDividend | src/lib/broker/trading212.rs:51 | "Dividend (Ordinary)" is a Dividend |
| Trading212.InterestOnCash | src/lib/broker/trading212.rs:52 | "Interest on cash" is Interest |
| Trading212.BuyBeforeDividend | src/lib/broker/trading212.rs:49-51 | a second word "buy" wins over a first word "Dividend" |
| Trading212.DepositAlone | src/lib/broker/trading212.rs:47 | "Deposit" alone is a Deposit |
| Trading212.DepositWithMore | src/lib/broker/trading212.rs:47 | "Deposit funds" panics |
| Trading212.NullActionPanics | src/lib/broker/trading212.rs:53 | the "Unknown" that stands for a null action panics |
| Trading212.AddColumn | src/lib/broker/trading212.rs:120-123 | the column is added at the end with its default in every row |
| Trading212.Defaulted | src/lib/broker/trading212.rs:118-125 | completing the optional columns adds no row and loses none |
| Trading212.WithOptionalColumns | src/lib/broker/trading212.rs:118-125 | the loop checked against the header read from the file gives `Defaulted` |
| Trading212.DefaultedCells | src/lib/broker/trading212.rs:106-125 | every row then holds each optional column, its own cell or the default, and every other cell is untouched |
| Trading212.OptionalColumnsDistinct | src/lib/broker/trading212.rs:108-116 | the optional column names are distinct |
| Trading212.RowOrder | src/lib/broker/trading212.rs:127-175 | a converted row's fields: Qty the share count or 1, Price the amount over the quantity, Tax the withholding plus the stamp duty, and the rest as the select says |
| Trading212.RowOrderOk | src/lib/broker/trading212.rs:127-167 | a row converts exactly when its time parses, its action is known, and its Ticker and ISIN are strings |
| Trading212.NullIsinIsUnknown | src/lib/broker/trading212.rs:163-165 | a row without any ISIN is of unknown country |
| Trading212.LoadWith | src/lib/broker/trading212.rs:92-178 | the load succeeds exactly when the export has the Time, Action and Total columns and every completed row converts, and then gives those rows sanitized: date-sorted and a permutation; an export without Total fails with "not found: Total" |
| Trading212.FirstMissing | src/lib/broker/trading212.rs:127-148 | nothing is missing exactly when every named column is in the header; otherwise the first named column the header lacks, all before it present |
| Trading212.LoadedRow | src/lib/broker/trading212.rs:92-178 | every loaded row comes from a row of the file, completed with the optional columns |
| Trading212.MissingSharesGiveZeroQty | src/lib/broker/trading212.rs:112 | from an export without a share-count column every row loads with quantity 0 |
| Trading212.MissingSharesGiveOneQty | src/lib/broker/trading212.rs:138-145 | with a default of 1 such rows load with quantity 1 and price equal to the amount |
| Trading212.DefaultAt | src/lib/broker/trading212.rs:119-123 | a column the file lacks holds its default in every row |
| Schwab.MapAction | src/broker/schwab.rs:25-42 | each action's pattern on the first four words of the description, both directions, tried in order, and a panic naming the text otherwise |
| Schwab.FirstFourWordsDecide | src/broker/schwab.rs:26 | descriptions that agree on their first four words map alike |
| Schwab.WireDividend | src/broker/schwab.rs:31-33 | "Wire Dividend" is a Deposit, its pattern coming first |
| Schwab.TaxAdjustment | src/broker/schwab.rs:35 | "NRA Tax Adj" is a Tax |
| Schwab.ThreeWordsUnmatched | src/broker/schwab.rs:27-41 | three words match only when the middle one is "Div" or "Tax" |
| Schwab.ReinvestedDividendPanics | src/broker/schwab.rs:32-40 | "Cash Dividend Reinvest" panics |
| Schwab.IndexOf | src/broker/schwab.rs:90 | the first position of a character, or none when it is absent |
| Schwab.LastIndexOf | src/broker/schwab.rs:90 | the last position of a character, or none when it is absent |
| Schwab.ParenthesisedMatches | src/broker/schwab.rs:89 | a capture exists exactly when some '(' has a ')' after it with a character between them |
| Schwab.TaxRewriteInert | src/broker/schwab.rs:121-125 | the rewrite of names containing "Tax" changes only Tax's own name |
| Schwab.FinalActionIs | src/broker/schwab.rs:109-125 | a row's action is Fee when its description mentions "FEE", its mapped action otherwise |
| Schwab.RowOrder | src/broker/schwab.rs:70-127 | a kept row converts exactly when its action maps, with Qty 1 for no number, Tax 0, Country Usa, Type Stock and the configured currency |
| Schwab.LoadCsv | src/broker/schwab.rs:54-130 | the kept rows converted and sanitized: succeeds exactly when every kept row converts, date-sorted and a permutation |
| Schwab.LoadedRow | src/broker/schwab.rs:58-63 | every loaded row comes from a row whose description mentions no transfer |
| Schwab.FeeRows | src/broker/schwab.rs:109-114 | a row whose description mentions "FEE" is loaded as a fee |
| Schwab.MappedRows | src/broker/schwab.rs:83-86 | any other row keeps its mapped action |
| GoogleSheet.ColumnNameAsWritten | src/lib/googlesheet.rs:194-205 | the code's column name: column 0 panics, up to 26 one letter, and otherwise two characters |
| GoogleSheet.ColumnNumberSnoc | src/lib/googlesheet.rs:194-205 | one more letter multiplies the column number by 26 and adds its value |
| GoogleSheet.ColumnName | src/lib/googlesheet.rs:194-205 | the spreadsheet name of a column: letters only, not empty, and its number is the column |
| GoogleSheet.ColumnNameOfNumber | src/lib/googlesheet.rs:194-205 | every non-empty name of letters is the name of its own number |
| GoogleSheet.ColumnNameInjective | src/lib/googlesheet.rs:194-205 | distinct columns have distinct names |
| GoogleSheet.ColumnNameAgrees | src/lib/googlesheet.rs:194-205 | for columns 1 to 702 the code gives the spreadsheet name |
| GoogleSheet.ColumnNameExamples | src/lib/googlesheet.rs:225-231 | columns 26, 27, 28, 53 and 79 are Z, AA, AB, BA and CA |
| GoogleSheet.ColumnNameBeyondZZ | src/lib/googlesheet.rs:198-203 | column 703 is named "[A" by the code, not "AAA" |
| GoogleSheet.ColumnNameAsWrittenChars | src/lib/googlesheet.rs:194-205 | where the code's column name succeeds, its characters are 'A' and above, so no digit and no ':' |
| GoogleSheet.ColumnNameAsWrittenInjective | src/lib/googlesheet.rs:194-205 | where the code's column name succeeds, distinct columns get distinct names, past column 702 included |
| GoogleSheet.ColumnNamePanics | src/lib/googlesheet.rs:195-203 | the code's column name panics exactly at column 0, at columns 1,436,033 to 1,489,280 (the first character a surrogate) and from column 28,965,249 (past the last scalar value) |
| GoogleSheet.NameRunOf | src/lib/googlesheet.rs:207-209 | name characters followed by a digit have that run as their leading run |
| GoogleSheet.NameThenDigits | src/lib/googlesheet.rs:207-209 | name characters then digits split only one way |
| GoogleSheet.CellName | src/lib/googlesheet.rs:207-209 | the cell name is built from the code's column name and panics exactly when that does; up to column 702 it is the spreadsheet's cell name |
| GoogleSheet.CellNameInjective | src/lib/googlesheet.rs:207-209 | where `cell_name` succeeds, distinct cells have distinct names |
| GoogleSheet.CorrectedCellNameInjective | src/lib/googlesheet.rs:207-209 | with the spreadsheet's column names, distinct cells have distinct names |
| GoogleSheet.CellRange | src/lib/googlesheet.rs:211-218 | the range succeeds exactly when both corners stay within u32 and both column names succeed; up to column 702 it is the corrected range |
| GoogleSheet.CorrectedCellRange | src/lib/googlesheet.rs:211-218 | with the spreadsheet's column names, the range panics exactly when a corner leaves u32 |
| GoogleSheet.CellRangePastZZ | src/lib/googlesheet.rs:211-218 | a frame 5 wide at column 700 is sent as "Tab!ZX1:[C1", where the spreadsheet range is "Tab!ZX1:AAC1" |
| GoogleSheet.SplitAtColon | src/lib/googlesheet.rs:211-218 | strings without ':' joined by one split back only one way |
| GoogleSheet.CellNameHasNoColon | src/lib/googlesheet.rs:207-209 | a cell name the code builds has no ':' |
| GoogleSheet.CorrectedCellNameHasNoColon | src/lib/googlesheet.rs:207-209 | a corrected cell name has no ':' |
| GoogleSheet.CellRangeParts | src/lib/googlesheet.rs:211-218 | a range `cell_range` builds is the tab, then its two corner names around a colon |
| GoogleSheet.CellRangeCorners | src/lib/googlesheet.rs:211-218 | two equal ranges that `cell_range` builds have equal corner names |
| GoogleSheet.CellRangeInjective | src/lib/googlesheet.rs:211-218 | on one tab, where `cell_range` succeeds, equal ranges have equal corners |
| GoogleSheet.CorrectedCellRangeInjective | src/lib/googlesheet.rs:211-218 | on one tab, equal corrected ranges have equal corners |
| GoogleSheet.Values | src/lib/googlesheet.rs:149-160 | one value list per column: its name, then its cells |
| GoogleSheet.ValuesFillRows | src/lib/googlesheet.rs:149-160 | in a rectangular frame every column's list is the height plus its header |
| GoogleSheet.Sheet.constructor | src/lib/googlesheet.rs:74 | the position starts at row 1, column 1, with nothing sent |
| GoogleSheet.Sheet.UpdateSheets | src/lib/googlesheet.rs:139-192 | the clear then the update are sent for the frame's range as `cell_range` builds it; the first failure, overflow or column-name panic stops, and on success the column advances past the frame and the spacing |

## Left out

- File, network and interactive I/O: CSV reading and writing, temporary files, HTTP calls to Yahoo, the Trading212 API polling loop, Google OAuth and the sheet API calls, configuration files and the command line. Files are abstract contents, and the outcome of each remote call is a parameter.
- Floating point: f64 is modelled as `real`. Rounding to 2 or 4 decimals is not modelled, and the test values are stated as exact rationals. A division by zero, which gives NaN or infinity in the program, is modelled by `Compute.Quotient` as 0.
- Polars semantics: lazy evaluation, window functions, join algorithms and the pivot internals. The model fixes the row order of a group-by or a join as the order of first appearance. Ties between latest quotes take the first.
- The clock: "today" and the current time are parameters.
- Regex and date-parsing helpers are parameters or inputs: `str_to_date` and `strptime`, Schwab's `cast_cash_to_float`, and the CUSIP test on the symbol. A Schwab row's symbol is the one after the CUSIP replacement.
- Schwab's fallback of a null Price to Amount is not modelled. The cast gives a number for every cell (0 for an empty one), so the fallback never fires.
- Trading212: the "Not available" replacement happens on the file text, before the model's rows. A text cell in a numeric column reads as null. A numeric Ticker, Action or ISIN cell is a type error.
- Trading212.RowOrder: a null Total cell (empty, or "Not available" in the file) leaves Amount null in the program and, through the fallback of Price to Amount, Price null as well. The model's rows hold numbers, so such an Amount reads as 0 and its Price as 0. A missing Total column is modelled: Trading212.LoadWith fails with "not found: Total".
- Schema.CountryFromIsin: splits the ISIN after two characters, while `split_at(2)` splits after two UTF-8 bytes. The two agree when the first two characters are ASCII, as an ISIN's country code is. When byte 2 is not on a character boundary, the program panics and the model does not.
- CurrencyNormalize.QuoteWindow: `SearchPeriod::new` (src/lib/currency.rs:41-45 calls it) is not part of this model. The model assumes that its missing ends default to today, with no other adjustment.
- QuoteCache.LatestDate: `utils::polars::latest_date` (src/lib/scraper/cache.rs:120-121 calls it) is not part of this model. The model assumes that it gives the greatest Date of the cached quotes.
- QuoteCache.UpdateStart: it rests on the same assumption about `utils::polars::latest_date` (src/lib/scraper/cache.rs:121). The update period built from it by `SearchPeriod::new` at line 139 is assumed to start on that day.
- PortfolioTests: the tests' today is a parameter, assumed to be no earlier than the mock's quote date. The tests compare rates rounded to four places, and the model states each rate only to within half a unit of that fourth place (PortfolioMock.Shows).
- Scraper.ToNaive: dates are unbounded day numbers, so the model does not fail when the date it counts back to falls before chrono's earliest `NaiveDate`, about 262,000 years back. There the program panics: `checked_sub_days` and `checked_sub_months` give None to `unwrap`, and so does the subtraction of a `Duration` (src/lib/scraper/mod.rs:83-90). The model fails only on the overflow of `y * 12`. The calls in the sources pass `Day(1)`.
- LegacyCurrencyNormalize.PairLookup: the older tree's provider interface (`with_currency`, and `load` with a `SearchBy`, called at src/currency.rs:35-37) is not part of this model. The model assumes it behaves as the newer provider does: registrations accumulate, a successful load clears them, and a failed load keeps them. LegacyCurrencyNormalize.LookupStep rests on the same assumption.
- Broker: the files of a directory are given in glob order, and glob and path errors are left to the file system.
- Broker.Sanitize: the model sorts by Date with a stable sort, so rows with the same date keep their input order. The program's sort (src/lib/broker/mod.rs:32-35) does not set `maintain_order`, so it does not promise that order. Two consequences follow:
  - Order among same-date rows matters downstream, for instance to the average-cost fold over a same-day buy and sell. There the model takes the input order.
  - The same applies to the rows of one snapshot under the date sort of src/lib/timeline.rs:93-95.
- Broker.SanitizeSorted: a date-sorted table comes back unchanged in the model's stable sort. The program does not promise this when two rows share a date.
- Broker.SanitizeIdempotent: sorting twice is sorting once in the model's stable sort. The program does not promise this when two rows share a date.
- Timeline: the per-snapshot report pipeline is a parameter of the date loop. `Dividends::from_orders` and `utils::polars::first_date`, which the loop calls, are not part of this model. The first snapshot is the first order's date. Timeline.ParseIsoDate accepts only the `YYYY-MM-DD` form of `NaiveDate` parsing. With an interval of 0 days and a first date before the target the program never stops, and the model excludes that case.
- Summary.Finished: the frame-height check stands for polars refusing frames of different heights.
- Summary.Hstack models `concat_df_horizontal` only for the duplicate-name error.
- Portfolio.Reported drops Country. The `*_right` columns are never held, so dropping them is not modelled. `Portfolio::round` is rounding and is left out.
- Portfolio: a null MarketPriceCurrency is modelled as the empty string.
- Portfolio: every working row carries every column, and a column that no step has added yet reads 0 or the empty string. The program's lazy frame has no such column, so a step that reads it fails at `collect` with a missing-column error. For example, `with_profit` reads Dividends (src/lib/utils/polars.rs:93-95) even when `with_dividends` was not called. Likewise, after the regroup of `normalize_currency` (src/lib/portfolio.rs:202-215) only the aggregated columns are left. The model does not have that error path. The PortfolioTests rows, where every other column reads 0, rest on this convention. Every call order in the sources adds a column before reading it.
- LegacyDate.ParseDate: the error messages of failed integer parses are simplified to one message per field.
- GoogleSheet: cells are pre-rendered strings, because polars `AnyValue` printing is not modelled. The range spans w + 1 columns and h + 1 rows, as the code computes it. An overflow of u32 arithmetic is a panic, as in a debug build. The loading of `GoogleSheetConfig` is not modelled.
- The stale copies of the older tree repeat the newer rules and are not modelled: src/portfolio.rs, src/summary.rs, src/liquidated.rs, src/realized.rs, src/dividends.rs, src/uninvested.rs, src/schema.rs, src/utils/mod.rs, src/broker/trading212.rs, src/broker/mod.rs, src/brokers/, src/scraper/yahoo.rs and src/scraper/mod.rs. Only src/currency.rs, src/perpetutal_inventory.rs, src/broker/schwab.rs and src/scraper/scraper.rs are modelled from that tree.
- The older tree's `filter::buy_and_sell` and `compute::negative_qty_on_sell` are not part of this model's sources. They are modelled as the newer `buy_or_sell` and `negative_qty_on_sell`.
- Yahoo: listings for EU and NA have no arm in `with_country` and panic like Unknown.

## Findings

| source | as written | input that shows it | evidently intended | confidence | as-written member | corrected member |
|---|---|---|---|---|---|---|
| src/lib/liquidated.rs:31-50 | every sale is inner-joined to every trace row with the same ticker, date and action | a buy followed by two equal sales of one ticker on one day: each sale joins both trace rows, so both sales and their profits are reported twice | each sale is matched with its own trace row once | high, not executed | Liquidated.SameDaySalesCountedTwice | Liquidated.AsWrittenAgrees |
| src/lib/broker/trading212.rs:112 | a missing "No. of shares" column is filled with 0 | an export without that column: every row loads with Qty 0, and Price = Amount / Qty divides by zero | the default of 1 that a null share count gets (lines 138-141) | medium, not executed | Trading212.MissingSharesGiveZeroQty | Trading212.MissingSharesGiveOneQty |
| src/lib/googlesheet.rs:198-203 | a column past 26 is two characters, the first being 'A' + (n-1)/26 - 1 | column 703: the first character is '[', one past 'Z', so the name is "[A" | the spreadsheet name "AAA": bijective base 26; the cell names and ranges the upload sends are modelled as the code builds them, with the corrected ones beside them (GoogleSheet.CorrectedCellRange) | high, not executed | GoogleSheet.ColumnNameBeyondZZ | GoogleSheet.ColumnNameOfNumber |
