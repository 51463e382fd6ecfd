/** The test doubles: a quote provider with a fixed price list, and the
    line-ending-blind file comparison. */
module Mock {
  import opened Wrappers
  import opened Calendar
  import opened Schema
  import opened Series
  import opened Scraper

  /** The mock's price list. */
  const MockPrices: map<string, real> := map[
    "GOOGL" := 33.87, "APPL" := 103.95,
    "USD/GBP" := 0.87, "GBP/USD" := 1.23, "BRL/USD" := 0.21, "BRL/GBP" := 0.18]

  /** Every mock quote is dated 2022-10-01. */
  const MockQuoteDate: Date := DaysFromCivil(Civil(2022, 10, 1))

  /** The mock's `load`: one quote per registered ticker, in registration
      order, priced from the list and in the currency of the ticker's
      country; no splits and no dividends. An unlisted ticker panics, and
      so does a country list whose length differs from the ticker list's. */
  function MockRespond(tickers: seq<string>, countries: seq<Country>, period: SearchPeriod): (r: Result<Tables>)
    ensures r.Ok? <==> (forall t :: t in tickers ==> t in MockPrices) && |countries| == |tickers|
    ensures r.Ok? ==> r.value.splits == [] && r.value.dividends == []
    ensures r.Ok? ==> |r.value.quotes| == |tickers|
    ensures r.Ok? ==> forall i :: 0 <= i < |tickers| ==>
      r.value.quotes[i] == Record(MockQuoteDate, tickers[i], MockPrices[tickers[i]],
                                  CurrencyName(CurrencyOfCountry(countries[i])))
  {
    if exists t :: t in tickers && t !in MockPrices then Fail(Panic("ticker not found in the price list"))
    else if |countries| != |tickers| then Fail(Panic("columns of different lengths"))
    else
      Ok(Tables(
        seq(|tickers|, i requires 0 <= i < |tickers| =>
          Record(MockQuoteDate, tickers[i], MockPrices[tickers[i]], CurrencyName(CurrencyOfCountry(countries[i])))),
        [], []))
  }

  /** A fresh mock provider, as `Scraper::new()` makes it. */
  method NewMock() returns (p: Provider)
    ensures fresh(p)
    ensures p.tickers == [] && p.countries == [] && p.requests == []
    ensures p.respond == MockRespond
  {
    p := new Provider(MockRespond);
  }

  /** Registering one currency pair with the mock and loading gives that
      pair's listed rate, and the mock is empty again afterwards. */
  method MockCurrencyLoad(period: SearchPeriod) returns (rate: real)
    ensures rate == 0.87
  {
    var p := NewMock();
    p.WithCurrency(USD, GBP);
    assert PairName(USD, GBP) == "USD/GBP";
    assert p.tickers == ["USD/GBP"];
    var r := p.Load(period);
    assert r.Ok? && |r.value.quotes| == 1;
    assert p.tickers == [];
    rate := r.value.quotes[0].value;
  }

  // ------------------------------------------------------------ files

  /** A byte other than CR (13) and LF (10). */
  predicate IsContent(b: bv8) { b != 13 && b != 10 }

  function DropLineBreaks(bytes: seq<bv8>): (r: seq<bv8>)
    ensures forall b :: b in r <==> b in bytes && IsContent(b)
  {
    Keep(bytes, IsContent)
  }

  /** `compare_files`: equal contents once every CR and LF byte is removed;
      a file that cannot be read (`None`) panics. */
  function CompareFiles(a: Option<seq<bv8>>, b: Option<seq<bv8>>): (r: Result<bool>)
    ensures r.Fail? <==> a.None? || b.None?
  {
    if a.None? || b.None? then Fail(Panic("Can't read file"))
    else Ok(DropLineBreaks(a.value) == DropLineBreaks(b.value))
  }

  /** A file compares equal to itself. */
  lemma CompareReflexive(a: seq<bv8>)
    ensures CompareFiles(Some(a), Some(a)) == Ok(true)
  {
  }

  /** Line breaks do not matter: inserting a CR or LF byte anywhere leaves
      the comparison's answer unchanged. */
  lemma InsertedLineBreak(a: seq<bv8>, k: nat, br: bv8, b: seq<bv8>)
    requires k <= |a| && (br == 13 || br == 10)
    ensures CompareFiles(Some(a[..k] + [br] + a[k..]), Some(b)) == CompareFiles(Some(a), Some(b))
  {
    var p := IsContent;
    KeepAppend(a[..k] + [br], a[k..], p);
    KeepAppend(a[..k], [br], p);
    KeepAppend(a[..k], a[k..], p);
    assert Keep([br], p) == [] by {
      assert [br][..0] == [];
    }
    assert a[..k] + a[k..] == a;
  }

  /** Any other byte is kept, so the comparison sees it. */
  lemma DifferentByte(a: seq<bv8>, x: bv8, y: bv8)
    requires x != y && x != 13 && x != 10 && y != 13 && y != 10
    ensures CompareFiles(Some(a + [x]), Some(a + [y])) == Ok(false)
  {
    var p := IsContent;
    KeepAddLast(a, x, p);
    KeepAddLast(a, y, p);
    var ka := Keep(a + [x], p);
    assert ka[|ka| - 1] == x;
  }
}
