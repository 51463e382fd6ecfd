/** The quote-provider interface (`IScraper`): the frames a provider answers
    with (`ScraperData`), the `Interval` strings used in requests, the
    period a load asks for, and a provider that records its registrations
    and answers through a function of them. */
module Scraper {
  import opened Wrappers
  import opened Calendar
  import opened Text
  import opened Schema

  /** One row of a quotes, splits or dividends frame: the day, the ticker,
      the number (a price, a split factor or a dividend) and its currency. */
  datatype Record = Record(date: Date, ticker: string, value: real, currency: string)

  /** The three frames of one answer, as values. */
  datatype Tables = Tables(quotes: seq<Record>, splits: seq<Record>, dividends: seq<Record>)

  /** `ScraperData`: the three frames, appended to in place. */
  class ScraperData {
    var quotes: seq<Record>
    var splits: seq<Record>
    var dividends: seq<Record>

    /** `ScraperData::new` stores the frames as given. */
    constructor (quotes: seq<Record>, splits: seq<Record>, dividends: seq<Record>)
      ensures this.quotes == quotes && this.splits == splits && this.dividends == dividends
    {
      this.quotes := quotes;
      this.splits := splits;
      this.dividends := dividends;
    }

    /** `ScraperData::default()`: three empty frames. */
    constructor Default()
      ensures quotes == [] && splits == [] && dividends == []
    {
      quotes, splits, dividends := [], [], [];
    }

    function Frames(): Tables
      reads this
    {
      Tables(quotes, splits, dividends)
    }

    /** The old quotes followed by the new ones; the other frames are untouched. */
    method ConcatQuotes(rows: seq<Record>)
      modifies this
      ensures quotes == old(quotes) + rows
      ensures splits == old(splits) && dividends == old(dividends)
    {
      quotes := quotes + rows;
    }

    method ConcatSplits(rows: seq<Record>)
      modifies this
      ensures splits == old(splits) + rows
      ensures quotes == old(quotes) && dividends == old(dividends)
    {
      splits := splits + rows;
    }

    method ConcatDividends(rows: seq<Record>)
      modifies this
      ensures dividends == old(dividends) + rows
      ensures quotes == old(quotes) && splits == old(splits)
    {
      dividends := dividends + rows;
    }
  }

  // ------------------------------------------------------------ intervals

  /** The largest `u32`. */
  const MaxU32: nat := 0xFFFF_FFFF

  /** `Interval`; each count is a `u32`. */
  datatype Interval = Day(n: nat) | Week(n: nat) | Month(n: nat) | Year(n: nat)

  function Unit(i: Interval): (r: string)
    ensures |r| > 0 && !IsDigit(r[0])
  {
    match i
    case Day(_) => "d"
    case Week(_) => "w"
    case Month(_) => "mo"
    case Year(_) => "y"
  }

  /** The `Display` form: the count in decimal, then the unit. */
  function IntervalText(i: Interval): string {
    NatToString(i.n) + Unit(i)
  }

  /** The length of the run of digits `s` starts with. */
  function DigitRun(s: string): (r: nat)
    ensures r <= |s|
  {
    if |s| > 0 && IsDigit(s[0]) then 1 + DigitRun(s[1..]) else 0
  }

  /** Digits followed by a non-digit: the run is exactly the digits. */
  lemma {:induction false} DigitRunOf(p: string, q: string)
    requires AllDigits(p) && |q| > 0 && !IsDigit(q[0])
    ensures DigitRun(p + q) == |p|
    decreases |p|
  {
    if |p| > 0 {
      assert (p + q)[1..] == p[1..] + q;
      assert IsDigit(p[0]);
      DigitRunOf(p[1..], q);
    }
  }

  /** Distinct intervals print differently, so the request strings are
      unambiguous. */
  lemma IntervalTextInjective(a: Interval, b: Interval)
    requires IntervalText(a) == IntervalText(b)
    ensures a == b
  {
    var pa, pb := NatToString(a.n), NatToString(b.n);
    var s := IntervalText(a);
    DigitRunOf(pa, Unit(a));
    DigitRunOf(pb, Unit(b));
    assert pa == s[..|pa|] && pb == s[..|pb|];
    assert Unit(a) == s[|pa|..] && Unit(b) == s[|pb|..];
  }

  /** `Interval::to_naive`: the day the interval reaches back to from
      `today`. `Year(y)` computes `y * 12` in `u32`, which overflows and
      panics for large `y`. */
  function ToNaive(i: Interval, today: Date): (r: Result<Date>)
    requires i.n <= MaxU32
    ensures r.Fail? <==> i.Year? && i.n * 12 > MaxU32
    ensures i.Day? ==> r == Ok(today - i.n)
    ensures i.Week? ==> r == Ok(today - 7 * i.n)
  {
    match i
    case Day(d) => Ok(today - d)
    case Week(w) => Ok(today - 7 * w)
    case Month(m) => Ok(SubMonths(today, m))
    case Year(y) =>
      if y * 12 > MaxU32 then Fail(Panic("attempt to multiply with overflow"))
      else Ok(SubMonths(today, y * 12))
  }

  /** A year back is twelve months back. */
  lemma YearIsTwelveMonths(y: nat, today: Date)
    requires y * 12 <= MaxU32
    ensures ToNaive(Year(y), today) == ToNaive(Month(y * 12), today)
  {
  }

  /** A week back is seven days back. */
  lemma WeekIsSevenDays(w: nat, today: Date)
    requires w * 7 <= MaxU32
    ensures ToNaive(Week(w), today) == ToNaive(Day(w * 7), today)
  {
  }

  // ------------------------------------------------------------ providers

  /** The days a load asks for, both ends included. */
  datatype SearchPeriod = SearchPeriod(start: Date, end: Date)

  /** The ticker a currency pair is registered under: `"{from}/{to}"`. */
  function PairName(from: Currency, to: Currency): (r: string)
    ensures '/' in r
  {
    var r := CurrencyName(from) + "/" + CurrencyName(to);
    assert r[|CurrencyName(from)|] == '/';
    r
  }

  /** How a provider answers a load: from the registered tickers, their
      countries and the period. */
  type Respond = (seq<string>, seq<Country>, SearchPeriod) -> Result<Tables>

  /** A quote provider that keeps its registrations as the test mock does:
      tickers with one country each, cleared by `reset` and after a
      successful load. `requests` records the periods of the loads it
      answered, so that a caller's fetches can be counted. */
  class Provider {
    var tickers: seq<string>
    var countries: seq<Country>
    var requests: seq<SearchPeriod>
    const respond: Respond

    constructor (respond: Respond)
      ensures tickers == [] && countries == [] && requests == []
      ensures this.respond == respond
    {
      tickers, countries, requests := [], [], [];
      this.respond := respond;
    }

    /** `with_ticker`: the tickers are appended, with the given countries or,
        when none are given, `Usa` for each. */
    method WithTicker(ts: seq<string>, cs: Option<seq<Country>>)
      modifies this
      ensures tickers == old(tickers) + ts
      ensures countries == old(countries) + DefaultCountries(ts, cs)
      ensures requests == old(requests)
    {
      tickers := tickers + ts;
      countries := countries + DefaultCountries(ts, cs);
    }

    /** `with_currency`: the pair is appended with country `NA`. */
    method WithCurrency(from: Currency, to: Currency)
      modifies this
      ensures tickers == old(tickers) + [PairName(from, to)]
      ensures countries == old(countries) + [Country.NA]
      ensures requests == old(requests)
    {
      tickers := tickers + [PairName(from, to)];
      countries := countries + [Country.NA];
    }

    method Reset()
      modifies this
      ensures tickers == [] && countries == [] && requests == old(requests)
    {
      tickers, countries := [], [];
    }

    /** `load`: the answer to the registrations, then `reset`; a failed
        answer leaves the registrations in place. */
    method Load(period: SearchPeriod) returns (r: Result<ScraperData>)
      modifies this
      ensures requests == old(requests) + [period]
      ensures var answer := respond(old(tickers), old(countries), period);
        && (r.Ok? <==> answer.Ok?)
        && (r.Ok? ==> fresh(r.value) && r.value.Frames() == answer.value)
        && (r.Ok? ==> tickers == [] && countries == [])
        && (r.Fail? ==> r.failure == answer.failure && tickers == old(tickers) && countries == old(countries))
    {
      requests := requests + [period];
      var answer := respond(tickers, countries, period);
      if answer.Fail? {
        return Fail(answer.failure);
      }
      var data := new ScraperData(answer.value.quotes, answer.value.splits, answer.value.dividends);
      Reset();
      r := Ok(data);
    }
  }

  /** The countries `with_ticker` records: the given ones, or `Usa` for
      each ticker. */
  function DefaultCountries(ts: seq<string>, cs: Option<seq<Country>>): (r: seq<Country>)
    ensures cs.Some? ==> r == cs.value
    ensures cs.None? ==> |r| == |ts| && forall i :: 0 <= i < |r| ==> r[i] == Usa
  {
    if cs.Some? then cs.value else seq(|ts|, _ => Usa)
  }
}
