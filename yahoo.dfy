/** The Yahoo Finance provider's ticker conventions and the mapping of its
    responses to (date, number) elements. */
module Yahoo {
  import opened Wrappers
  import opened Calendar
  import opened Schema
  import opened Series
  import opened Compute

  /** Where a country's securities are listed on Yahoo: the ticker suffix,
      and the factor that brings quoted prices to the currency's main unit
      (London prices come in pence). */
  datatype Listing = Listing(suffix: string, multiplier: real)

  /** The table `with_country` uses. Only Usa, Uk, Brazil and Ireland have
      an entry; any other country panics. */
  function ListingOf(c: Country): (r: Result<Listing>)
    ensures r.Fail? <==> c !in {Usa, Uk, Brazil, Ireland}
    ensures r.Ok? ==> (r.value.multiplier == 0.01 <==> c == Uk)
    ensures r.Ok? ==> (r.value.multiplier == 1.0 <==> c != Uk)
    ensures r.Ok? ==> (r.value.suffix == ".L" <==> c in {Uk, Ireland})
    ensures r.Ok? ==> (r.value.suffix == ".SA" <==> c == Brazil)
    ensures r.Ok? ==> (r.value.suffix == "" <==> c == Usa)
  {
    match c
    case Usa => Ok(Listing("", 1.0))
    case Uk => Ok(Listing(".L", 0.01))
    case Brazil => Ok(Listing(".SA", 1.0))
    case Ireland => Ok(Listing(".L", 1.0))
    case _ => Fail(Panic("Country must be known"))
  }

  /** The ticker of an exchange rate: `"{FROM}{TO}=x"`. */
  function RateTicker(from: Currency, to: Currency): string {
    CurrencyName(from) + CurrencyName(to) + "=x"
  }

  /** Every currency name has three letters except `NA`, the only one
      starting with 'N'. */
  lemma CurrencyNameShape(c: Currency)
    ensures |CurrencyName(c)| == if c == Currency.NA then 2 else 3
    ensures CurrencyName(c)[0] == 'N' <==> c == Currency.NA
  {
    match c
    case BRL => case EUR => case GBP => case GBX => case USD => case NA =>
  }

  /** Two currency names in front of the same text: the first letter tells
      whether either is `NA`, hence their lengths, hence the names. */
  lemma SameLeadingName(a: Currency, c: Currency, x: string, y: string)
    requires CurrencyName(a) + x == CurrencyName(c) + y
    ensures a == c && x == y
  {
    CurrencyNameShape(a);
    CurrencyNameShape(c);
    var s := CurrencyName(a) + x;
    assert s[0] == CurrencyName(a)[0] && s[0] == CurrencyName(c)[0];
    var n := |CurrencyName(a)|;
    assert CurrencyName(a) == s[..n] == CurrencyName(c);
    assert x == s[n..] == y;
    CurrencyNameInjective(a, c);
  }

  /** Distinct currency pairs have distinct rate tickers. */
  lemma RateTickerInjective(a: Currency, b: Currency, c: Currency, d: Currency)
    requires RateTicker(a, b) == RateTicker(c, d)
    ensures a == c && b == d
  {
    assert RateTicker(a, b) == CurrencyName(a) + (CurrencyName(b) + "=x");
    assert RateTicker(c, d) == CurrencyName(c) + (CurrencyName(d) + "=x");
    SameLeadingName(a, c, CurrencyName(b) + "=x", CurrencyName(d) + "=x");
    SameLeadingName(b, d, "=x", "=x");
  }

  class YahooScraper {
    var ticker: string
    var multiplier: real

    /** `Yahoo::new`: no ticker, prices taken as quoted. */
    constructor ()
      ensures ticker == "" && multiplier == 1.0
    {
      ticker, multiplier := "", 1.0;
    }

    method WithTicker(t: string)
      modifies this
      ensures ticker == t && multiplier == old(multiplier)
    {
      ticker := t;
    }

    /** `with_currency`: the ticker becomes the pair's rate ticker. */
    method WithCurrency(from: Currency, to: Currency)
      modifies this
      ensures ticker == RateTicker(from, to) && multiplier == old(multiplier)
    {
      ticker := RateTicker(from, to);
    }

    /** `with_country`: the listing's suffix is appended to the ticker and
        its multiplier replaces the old one; a country without a listing
        panics and changes nothing. */
    method WithCountry(c: Country) returns (failure: Option<Failure>)
      modifies this
      ensures ListingOf(c).Fail? ==> failure == Some(ListingOf(c).failure)
      ensures ListingOf(c).Fail? ==> ticker == old(ticker) && multiplier == old(multiplier)
      ensures ListingOf(c).Ok? ==> failure.None?
      ensures ListingOf(c).Ok? ==> ticker == old(ticker) + ListingOf(c).value.suffix
      ensures ListingOf(c).Ok? ==> multiplier == ListingOf(c).value.multiplier
    {
      var listing := ListingOf(c);
      if listing.Fail? {
        return Some(listing.failure);
      }
      ticker := ticker + listing.value.suffix;
      multiplier := listing.value.multiplier;
      failure := None;
    }
  }

  // ------------------------------------------------------------ responses

  /** One quote, split or dividend of a response; times are Unix seconds. */
  datatype YQuote = YQuote(timestamp: int, close: real)
  datatype YSplit = YSplit(date: int, numerator: real, denominator: real)
  datatype YDividend = YDividend(date: int, amount: real)

  /** An `Element` of an `ElementSet`: a day and a number. */
  datatype Element = Element(date: Date, number: real)

  const SecondsPerDay: int := 86400

  /** The UTC day a Unix time falls on. */
  function DayOf(t: int): (d: Date)
    ensures d * SecondsPerDay <= t < (d + 1) * SecondsPerDay
  {
    t / SecondsPerDay
  }

  function QuoteElement(q: YQuote, multiplier: real): Element {
    Element(DayOf(q.timestamp), q.close * multiplier)
  }

  function SplitElement(s: YSplit): Element {
    Element(DayOf(s.date), Quotient(s.numerator, s.denominator))
  }

  function DividendElement(v: YDividend): Element {
    Element(DayOf(v.date), v.amount)
  }

  /** `quotes()`: each quote's day and its close times the multiplier. */
  function Quotes(qs: seq<YQuote>, multiplier: real): (r: seq<Element>)
    ensures |r| == |qs|
    ensures forall i :: 0 <= i < |qs| ==> r[i].date * SecondsPerDay <= qs[i].timestamp < (r[i].date + 1) * SecondsPerDay
    ensures forall i :: 0 <= i < |qs| ==> r[i].number == qs[i].close * multiplier
  {
    MapSeq(qs, (q: YQuote) => QuoteElement(q, multiplier))
  }

  /** `splits()`: each split's day and its ratio, which multiplied back by
      the denominator gives the numerator. */
  function Splits(ss: seq<YSplit>): (r: seq<Element>)
    ensures |r| == |ss|
    ensures forall i :: 0 <= i < |ss| ==> r[i].date == DayOf(ss[i].date)
    ensures forall i :: 0 <= i < |ss| && ss[i].denominator != 0.0 ==>
      r[i].number * ss[i].denominator == ss[i].numerator
  {
    var r := MapSeq(ss, SplitElement);
    forall i | 0 <= i < |ss| && ss[i].denominator != 0.0
      ensures r[i].number * ss[i].denominator == ss[i].numerator
    {
      QuotientMul(ss[i].numerator, ss[i].denominator);
    }
    r
  }

  /** `dividends()`: each dividend's day and amount, not scaled by the
      multiplier. */
  function Dividends(vs: seq<YDividend>): (r: seq<Element>)
    ensures |r| == |vs|
    ensures forall i :: 0 <= i < |vs| ==> r[i] == Element(DayOf(vs[i].date), vs[i].amount)
  {
    MapSeq(vs, DividendElement)
  }

  /** A London listing quotes in pence: its prices are a hundredth of the
      quoted closes, while the same response read with multiplier 1 gives
      the closes themselves. */
  lemma PenceToPounds(qs: seq<YQuote>, i: nat)
    requires i < |qs|
    ensures Quotes(qs, ListingOf(Uk).value.multiplier)[i].number * 100.0 == Quotes(qs, 1.0)[i].number
  {
  }
}
