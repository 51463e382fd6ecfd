/** `currency::normalize`: every row's money columns converted to one
    target currency, with the rates fetched from a quote provider. */
module CurrencyNormalize {
  import opened Wrappers
  import opened Calendar
  import opened Text
  import opened Series
  import opened Schema
  import opened Scraper

  /** How `normalize` reads and rewrites the rows of a table: the currency
      column (`by_col`), the multiplication of the listed columns by a
      rate, and the write of the currency column. */
  datatype Columns<!R> = Columns(currencyOf: R -> string, scale: (R, real) -> R, relabel: (R, string) -> R)

  /** A row converted at `rate` and marked with the target currency. */
  function Rescaled<R>(row: R, cols: Columns<R>, rate: real, target: Currency): R {
    cols.relabel(cols.scale(row, rate), CurrencyName(target))
  }

  // ------------------------------------------------------------ strings

  /** `s.split_once(c).0`: the part before the first `c`, if there is one. */
  function Before(s: string, c: char): (r: Option<string>)
    ensures r.Some? <==> c in s
    ensures r.Some? ==> c !in r.value
    decreases |s|
  {
    if |s| == 0 then None
    else if s[0] == c then Some("")
    else
      var t := Before(s[1..], c);
      assert c in s <==> c in s[1..] by { assert s == [s[0]] + s[1..]; }
      if t.None? then None else Some([s[0]] + t.value)
  }

  lemma {:induction false} BeforeJoin(p: string, c: char, q: string)
    requires c !in p
    ensures Before(p + [c] + q, c) == Some(p)
    decreases |p|
  {
    if |p| > 0 {
      assert (p + [c] + q)[1..] == p[1..] + [c] + q;
      BeforeJoin(p[1..], c, q);
      assert [p[0]] + p[1..] == p;
    }
  }

  lemma CurrencyNameNoSlash(c: Currency)
    ensures '/' !in CurrencyName(c)
  {
    match c
    case BRL => case EUR => case GBP => case GBX => case USD => case NA =>
  }

  /** A pair is quoted from the currency named before its '/'. */
  lemma PairPrefix(from: Currency, to: Currency)
    ensures Before(PairName(from, to), '/') == Some(CurrencyName(from))
  {
    CurrencyNameNoSlash(from);
    assert PairName(from, to) == CurrencyName(from) + ['/'] + CurrencyName(to);
    BeforeJoin(CurrencyName(from), '/', CurrencyName(to));
  }

  // ------------------------------------------------------------ registration

  /** The currency names of the table, sorted, each once. */
  function Currencies<R>(table: seq<R>, cols: Columns<R>): (r: seq<string>)
    ensures StrictlySorted(r)
    ensures forall c :: c in r <==> exists i :: 0 <= i < |table| && cols.currencyOf(table[i]) == c
  {
    var names := MapSeq(table, cols.currencyOf);
    assert forall c :: c in names <==> exists i :: 0 <= i < |table| && cols.currencyOf(table[i]) == c by {
      forall c ensures c in names <==> exists i :: 0 <= i < |table| && cols.currencyOf(table[i]) == c {
        if c in names {
          var i :| 0 <= i < |names| && names[i] == c;
        }
      }
    }
    SortDedup(names)
  }

  /** The table is in the target currency only: the short cut that returns
      it untouched. */
  predicate OnlyTarget(cs: seq<string>, target: Currency) {
    |cs| == 1 && cs[0] == CurrencyName(target)
  }

  /** The short cut is taken exactly when the table is non-empty and every
      row is in the target currency. */
  lemma OnlyTargetIff<R>(table: seq<R>, cols: Columns<R>, target: Currency)
    ensures OnlyTarget(Currencies(table, cols), target) <==>
      |table| > 0 && forall i :: 0 <= i < |table| ==> cols.currencyOf(table[i]) == CurrencyName(target)
  {
    var cs := Currencies(table, cols);
    if |table| > 0 && forall i :: 0 <= i < |table| ==> cols.currencyOf(table[i]) == CurrencyName(target) {
      assert cols.currencyOf(table[0]) in cs;
      assert |cs| > 0;
      assert cs[0] == CurrencyName(target) by { assert cs[0] in cs; }
      if |cs| > 1 {
        assert cs[1] in cs;
        SortedDistinct(cs, 0, 1);
      }
    }
    if OnlyTarget(cs, target) {
      assert cs[0] in cs;
      forall i | 0 <= i < |table| ensures cols.currencyOf(table[i]) == CurrencyName(target) {
        assert cols.currencyOf(table[i]) in cs;
      }
    }
  }

  /** The pairs the loop registers for the names `cs`: one per name that
      parses to a currency other than the target, in order. */
  function Registered(cs: seq<string>, target: Currency): (r: seq<string>)
    ensures |r| <= |cs|
    decreases |cs|
  {
    if |cs| == 0 then []
    else
      var init := Registered(cs[..|cs| - 1], target);
      var parsed := ParseCurrency(cs[|cs| - 1]);
      if parsed.Some? && parsed.value != target then init + [PairName(parsed.value, target)] else init
  }

  /** Every currency name parses back to its currency. */
  lemma NamesParse()
    ensures forall c: Currency :: ParseCurrency(CurrencyName(c)) == Some(c)
  {
    forall c: Currency ensures ParseCurrency(CurrencyName(c)) == Some(c) {
      ParseCurrencyName(c);
    }
  }

  /** A pair is registered exactly when its currency's name is among `cs`
      and is not the target. */
  lemma {:induction false} RegisteredMembers(cs: seq<string>, target: Currency)
    ensures forall t :: t in Registered(cs, target) <==>
      exists c: Currency :: CurrencyName(c) in cs && c != target && t == PairName(c, target)
    decreases |cs|
  {
    if |cs| > 0 {
      var last := cs[|cs| - 1];
      RegisteredMembers(cs[..|cs| - 1], target);
      assert forall s :: s in cs <==> s in cs[..|cs| - 1] || s == last by {
        assert cs == cs[..|cs| - 1] + [last];
      }
      NamesParse();
    }
  }

  /** The number of leading names that parse; the loop stops at the first
      that does not. */
  function Parsed(cs: seq<string>): (n: nat)
    ensures n <= |cs|
    decreases |cs|
  {
    if |cs| == 0 || ParseCurrency(cs[0]).None? then 0 else 1 + Parsed(cs[1..])
  }

  /** Past `k` names that parse, the next one either parses too or is
      where parsing stops. */
  lemma {:induction false} ParsedNext(cs: seq<string>, k: nat)
    requires k < |cs| && k <= Parsed(cs)
    ensures ParseCurrency(cs[k]).Some? ==> k + 1 <= Parsed(cs)
    ensures ParseCurrency(cs[k]).None? ==> Parsed(cs) == k
    decreases k
  {
    if k > 0 {
      assert cs[1..][k - 1] == cs[k];
      ParsedNext(cs[1..], k - 1);
    }
  }

  function NAs(n: nat): (r: seq<Country>)
    ensures |r| == n && forall i :: 0 <= i < n ==> r[i] == Country.NA
  {
    seq(n, _ => Country.NA)
  }

  lemma Concat3<T>(a: seq<T>, b: seq<T>, c: seq<T>)
    ensures a + b + c == a + (b + c)
  {
  }

  lemma NAsGrow(front: seq<Country>, n: nat, m: nat)
    ensures front + NAs(n) + NAs(m) == front + NAs(n + m)
  {
    assert NAs(n) + NAs(m) == NAs(n + m);
  }

  /** Pairing with one target is one-to-one. */
  lemma PairNameInjective(a: Currency, b: Currency, target: Currency)
    requires a != b
    ensures PairName(a, target) != PairName(b, target)
  {
    PairPrefix(a, target);
    PairPrefix(b, target);
    NamesParse();
  }

  /** No element twice. */
  predicate Distinct(s: seq<string>) {
    forall i, j :: 0 <= i < j < |s| ==> s[i] != s[j]
  }

  /** Each distinct currency other than the target is registered exactly
      once: no pair appears twice. */
  lemma {:induction false} RegisteredOnce(cs: seq<string>, target: Currency)
    requires StrictlySorted(cs)
    ensures Distinct(Registered(cs, target))
    decreases |cs|
  {
    if |cs| > 0 {
      var init := cs[..|cs| - 1];
      var last := cs[|cs| - 1];
      assert StrictlySorted(init);
      RegisteredOnce(init, target);
      var parsed := ParseCurrency(last);
      if parsed.Some? && parsed.value != target {
        LastPairFresh(cs, target);
        DistinctAppend(Registered(init, target), PairName(parsed.value, target));
      } else {
        assert Registered(cs, target) == Registered(init, target);
      }
    }
  }

  /** The pair of the last name of a sorted list is not among the pairs of
      the names before it. */
  lemma LastPairFresh(cs: seq<string>, target: Currency)
    requires StrictlySorted(cs) && |cs| > 0
    requires ParseCurrency(cs[|cs| - 1]).Some? && ParseCurrency(cs[|cs| - 1]).value != target
    ensures PairName(ParseCurrency(cs[|cs| - 1]).value, target) !in Registered(cs[..|cs| - 1], target)
  {
    var init := cs[..|cs| - 1];
    var last := cs[|cs| - 1];
    var parsed := ParseCurrency(last);
    var p := PairName(parsed.value, target);
    var r0 := Registered(init, target);
    RegisteredMembers(init, target);
    forall t | t in r0 ensures t != p {
      var c: Currency :| CurrencyName(c) in init && c != target && t == PairName(c, target);
      EarlierPairDiffers(cs, c, parsed.value, target);
    }
  }

  /** A currency named before the last name of a sorted list is not the
      currency the last name parses to, so their pairs differ. */
  lemma EarlierPairDiffers(cs: seq<string>, c: Currency, d: Currency, target: Currency)
    requires StrictlySorted(cs) && |cs| > 0
    requires CurrencyName(c) in cs[..|cs| - 1] && ParseCurrency(cs[|cs| - 1]) == Some(d)
    ensures PairName(c, target) != PairName(d, target)
  {
    var init := cs[..|cs| - 1];
    var k :| 0 <= k < |init| && init[k] == CurrencyName(c);
    SortedDistinct(cs, k, |cs| - 1);
    ParseCurrencyName(c);
    assert c != d;
    PairNameInjective(c, d, target);
  }

  /** A new element appended keeps the elements distinct. */
  lemma DistinctAppend(r0: seq<string>, p: string)
    requires Distinct(r0) && p !in r0
    ensures Distinct(r0 + [p])
  {
    var r := r0 + [p];
    forall i, j | 0 <= i < j < |r| ensures r[i] != r[j] {
      if j < |r0| {
        assert r[i] == r0[i] && r[j] == r0[j];
      } else {
        assert r[j] == p && r[i] == r0[i] && r0[i] in r0;
      }
    }
  }

  /** One more name registers at most its own pair. */
  lemma RegisteredStep(cs: seq<string>, k: nat, target: Currency)
    requires k < |cs|
    ensures Registered(cs[..k + 1], target) == Registered(cs[..k], target) + PairOf(cs[k], target)
  {
    assert cs[..k + 1][..k] == cs[..k];
  }

  // ------------------------------------------------------------ rates

  /** One row of the rate table: a currency name and its rate. */
  datatype Rate = Rate(currency: string, rate: real)

  function RecordTicker(x: Record): string { x.ticker }

  /** `Price.last()` of a ticker's group: its last price in row order. */
  function LastPrice(quotes: seq<Record>, ticker: string): (r: Option<real>)
    ensures r.Some? <==> exists i :: 0 <= i < |quotes| && quotes[i].ticker == ticker
    ensures r.Some? ==> exists i :: 0 <= i < |quotes| && quotes[i].ticker == ticker && quotes[i].value == r.value
    decreases |quotes|
  {
    if |quotes| == 0 then None
    else
      var last := quotes[|quotes| - 1];
      if last.ticker == ticker then Some(last.value)
      else
        var r := LastPrice(quotes[..|quotes| - 1], ticker);
        assert forall i :: 0 <= i < |quotes| - 1 ==> quotes[..|quotes| - 1][i] == quotes[i];
        r
  }

  /** The rate of one quoted ticker: the currency before its '/', and its
      last price. */
  function TickerRate(quotes: seq<Record>, ticker: string): Rate {
    Rate(Before(ticker, '/').GetOr(""), LastPrice(quotes, ticker).GetOr(0.0))
  }

  /** The quoted tickers, each once, in order of first appearance. */
  function QuotedTickers(quotes: seq<Record>): (r: seq<string>)
    ensures forall i, j :: 0 <= i < j < |r| ==> r[i] != r[j]
    ensures forall t :: t in r <==> exists i :: 0 <= i < |quotes| && quotes[i].ticker == t
  {
    var names := MapSeq(quotes, RecordTicker);
    assert forall t :: t in names <==> exists i :: 0 <= i < |quotes| && quotes[i].ticker == t by {
      forall t ensures t in names <==> exists i :: 0 <= i < |quotes| && quotes[i].ticker == t {
        if t in names {
          var i :| 0 <= i < |names| && names[i] == t;
        }
      }
    }
    UniqueStable(names)
  }

  /** The exchange-rate table: for each quoted ticker, the currency before
      its '/' at the last price quoted for it, then the target at rate 1.
      A quoted ticker without '/' panics. */
  function RateTable(quotes: seq<Record>, target: Currency): (r: Result<seq<Rate>>)
    ensures r.Fail? <==> exists i :: 0 <= i < |quotes| && '/' !in quotes[i].ticker
    ensures r.Ok? ==> var ts := QuotedTickers(quotes);
      && |r.value| == |ts| + 1
      && r.value[|ts|] == Rate(CurrencyName(target), 1.0)
      && forall i :: 0 <= i < |ts| ==>
           Before(ts[i], '/').Some? && LastPrice(quotes, ts[i]).Some? &&
           r.value[i] == Rate(Before(ts[i], '/').value, LastPrice(quotes, ts[i]).value)
  {
    var ts := QuotedTickers(quotes);
    if exists i :: 0 <= i < |quotes| && '/' !in quotes[i].ticker then
      Fail(Panic("Failed to split"))
    else
      var rates := MapSeq(ts, (t: string) => TickerRate(quotes, t));
      assert forall i :: 0 <= i < |ts| ==>
        Before(ts[i], '/').Some? && LastPrice(quotes, ts[i]).Some? &&
        rates[i] == Rate(Before(ts[i], '/').value, LastPrice(quotes, ts[i]).value) by {
        forall i | 0 <= i < |ts|
          ensures Before(ts[i], '/').Some? && LastPrice(quotes, ts[i]).Some?
          ensures rates[i] == Rate(Before(ts[i], '/').value, LastPrice(quotes, ts[i]).value)
        {
          assert ts[i] in ts;
          var j :| 0 <= j < |quotes| && quotes[j].ticker == ts[i];
          assert '/' in quotes[j].ticker;
        }
      }
      Ok(rates + [Rate(CurrencyName(target), 1.0)])
  }

  /** No two entries for one currency. */
  predicate DistinctKeys(rates: seq<Rate>) {
    forall i, j :: 0 <= i < j < |rates| ==> rates[i].currency != rates[j].currency
  }

  /** The rates a left join gives a row of currency `c`: the matching
      entries in table order. */
  function Matching(rates: seq<Rate>, c: string): seq<real>
    decreases |rates|
  {
    if |rates| == 0 then []
    else (if rates[0].currency == c then [rates[0].rate] else []) + Matching(rates[1..], c)
  }

  /** After `fill_null(1)`: the matching rates, or 1 when none match. */
  function JoinedRates(rates: seq<Rate>, c: string): (r: seq<real>)
    ensures |r| > 0
  {
    var m := Matching(rates, c);
    if |m| == 0 then [1.0] else m
  }

  /** The rate of currency `c`: its first entry's, or 1 without one. */
  function RateOf(rates: seq<Rate>, c: string): (r: real)
    ensures (forall i :: 0 <= i < |rates| ==> rates[i].currency != c) ==> r == 1.0
    decreases |rates|
  {
    if |rates| == 0 then 1.0
    else if rates[0].currency == c then rates[0].rate
    else RateOf(rates[1..], c)
  }

  lemma {:induction false} NoMatching(rates: seq<Rate>, c: string)
    requires forall i :: 0 <= i < |rates| ==> rates[i].currency != c
    ensures Matching(rates, c) == []
    decreases |rates|
  {
    if |rates| > 0 {
      NoMatching(rates[1..], c);
    }
  }

  /** With one entry per currency the join neither drops nor repeats a
      row: each row gets exactly one rate. */
  lemma {:induction false} JoinedRatesDistinct(rates: seq<Rate>, c: string)
    requires DistinctKeys(rates)
    ensures JoinedRates(rates, c) == [RateOf(rates, c)]
    decreases |rates|
  {
    if |rates| == 0 {
    } else if rates[0].currency == c {
      NoMatching(rates[1..], c);
    } else {
      JoinedRatesDistinct(rates[1..], c);
      assert Matching(rates, c) == Matching(rates[1..], c);
    }
  }

  /** The entry for `c` gives its rate. */
  lemma {:induction false} RateOfEntry(rates: seq<Rate>, k: nat)
    requires DistinctKeys(rates) && k < |rates|
    ensures RateOf(rates, rates[k].currency) == rates[k].rate
    decreases k
  {
    if k > 0 {
      assert rates[0].currency != rates[k].currency;
      assert rates[1..][k - 1] == rates[k];
      RateOfEntry(rates[1..], k - 1);
    }
  }

  /** The joined and converted table: each row once per rate the join
      gives it. */
  function Convert<R>(table: seq<R>, cols: Columns<R>, rates: seq<Rate>, target: Currency): seq<R>
    decreases |table|
  {
    if |table| == 0 then []
    else
      var last := table[|table| - 1];
      Convert(table[..|table| - 1], cols, rates, target) +
        MapSeq(JoinedRates(rates, cols.currencyOf(last)), (rate: real) => Rescaled(last, cols, rate, target))
  }

  /** With one entry per currency, the output has the input's rows in
      order, each converted at its currency's rate. */
  lemma {:induction false} ConvertRowwise<R>(table: seq<R>, cols: Columns<R>, rates: seq<Rate>, target: Currency)
    requires DistinctKeys(rates)
    ensures var out := Convert(table, cols, rates, target);
      |out| == |table| &&
      forall i :: 0 <= i < |table| ==>
        out[i] == Rescaled(table[i], cols, RateOf(rates, cols.currencyOf(table[i])), target)
    decreases |table|
  {
    if |table| > 0 {
      var init := table[..|table| - 1];
      var last := table[|table| - 1];
      ConvertRowwise(init, cols, rates, target);
      ConvertLast(table, cols, rates, target);
      var out := Convert(table, cols, rates, target);
      forall i | 0 <= i < |table| - 1
        ensures out[i] == Rescaled(table[i], cols, RateOf(rates, cols.currencyOf(table[i])), target)
      {
        assert table[i] == init[i];
      }
    }
  }

  /** The last row, converted once at its currency's rate, ends the output. */
  lemma ConvertLast<R>(table: seq<R>, cols: Columns<R>, rates: seq<Rate>, target: Currency)
    requires DistinctKeys(rates) && |table| > 0
    ensures var last := table[|table| - 1];
      Convert(table, cols, rates, target) ==
        Convert(table[..|table| - 1], cols, rates, target) + [Rescaled(last, cols, RateOf(rates, cols.currencyOf(last)), target)]
  {
    JoinedRatesDistinct(rates, cols.currencyOf(table[|table| - 1]));
  }

  /** The converted table for the quotes the provider answered. */
  function Converted<R>(table: seq<R>, cols: Columns<R>, quotes: seq<Record>, target: Currency): Result<seq<R>> {
    var rates := RateTable(quotes, target);
    if rates.Fail? then Fail(rates.failure) else Ok(Convert(table, cols, rates.value, target))
  }

  /** Every quoted ticker is a pair from some other currency into the
      target, as the registration loop asks for. */
  predicate PairsInto(quotes: seq<Record>, target: Currency) {
    forall i :: 0 <= i < |quotes| ==> exists c: Currency :: c != target && quotes[i].ticker == PairName(c, target)
  }

  lemma PairsIntoSplit(quotes: seq<Record>, target: Currency)
    requires PairsInto(quotes, target)
    ensures RateTable(quotes, target).Ok?
  {
    forall i | 0 <= i < |quotes| ensures '/' in quotes[i].ticker {
      var c: Currency :| c != target && quotes[i].ticker == PairName(c, target);
    }
  }

  /** Entry `i` of the rate table is the source currency of a pair into
      the target. */
  lemma EntryCurrency(quotes: seq<Record>, target: Currency, i: nat) returns (c: Currency)
    requires PairsInto(quotes, target) && i < |QuotedTickers(quotes)|
    ensures RateTable(quotes, target).Ok?
    ensures c != target && QuotedTickers(quotes)[i] == PairName(c, target)
    ensures RateTable(quotes, target).value[i].currency == CurrencyName(c)
  {
    PairsIntoSplit(quotes, target);
    var ts := QuotedTickers(quotes);
    assert ts[i] in ts;
    var j :| 0 <= j < |quotes| && quotes[j].ticker == ts[i];
    c :| c != target && quotes[j].ticker == PairName(c, target);
    PairPrefix(c, target);
  }

  /** Two entries of the rate table are for different currencies. */
  lemma EntriesDiffer(quotes: seq<Record>, target: Currency, i: nat, j: nat)
    requires PairsInto(quotes, target)
    requires RateTable(quotes, target).Ok? && i < j < |RateTable(quotes, target).value|
    ensures RateTable(quotes, target).value[i].currency != RateTable(quotes, target).value[j].currency
  {
    var rates := RateTable(quotes, target).value;
    var ts := QuotedTickers(quotes);
    var a := EntryCurrency(quotes, target, i);
    if j < |ts| {
      var b := EntryCurrency(quotes, target, j);
      assert ts[i] != ts[j];
      assert a != b;
      NamesDiffer(a, b);
      assert rates[i].currency == CurrencyName(a) && rates[j].currency == CurrencyName(b);
    } else {
      assert j == |ts|;
      assert rates[|ts|] == Rate(CurrencyName(target), 1.0);
      NamesDiffer(a, target);
    }
  }

  lemma NamesDiffer(a: Currency, b: Currency)
    requires a != b
    ensures CurrencyName(a) != CurrencyName(b)
  {
    ParseCurrencyName(a);
    ParseCurrencyName(b);
  }

  /** With pairs into the target, the rate table has one entry per
      currency, and none but the last is for the target itself. */
  lemma RateTableKeys(quotes: seq<Record>, target: Currency)
    requires PairsInto(quotes, target)
    ensures RateTable(quotes, target).Ok?
    ensures var rates := RateTable(quotes, target).value;
      DistinctKeys(rates) &&
      forall i :: 0 <= i < |rates| - 1 ==> rates[i].currency != CurrencyName(target)
  {
    PairsIntoSplit(quotes, target);
    var rates := RateTable(quotes, target).value;
    forall i, j | 0 <= i < j < |rates| ensures rates[i].currency != rates[j].currency {
      EntriesDiffer(quotes, target, i, j);
    }
    forall i | 0 <= i < |rates| - 1 ensures rates[i].currency != CurrencyName(target) {
      EntriesDiffer(quotes, target, i, |rates| - 1);
    }
  }

  /** Conversion of a table whose provider answered with pairs into the
      target: the rows in order, each at its currency's rate, and the rows
      already in the target currency at rate 1. */
  lemma ConvertedRowwise<R>(table: seq<R>, cols: Columns<R>, quotes: seq<Record>, target: Currency)
    requires PairsInto(quotes, target)
    ensures var r := Converted(table, cols, quotes, target);
      && r.Ok? && |r.value| == |table|
      && forall i :: 0 <= i < |table| ==>
           r.value[i] == Rescaled(table[i], cols, RateOf(RateTable(quotes, target).value, cols.currencyOf(table[i])), target)
    ensures forall i :: 0 <= i < |table| && cols.currencyOf(table[i]) == CurrencyName(target) ==>
      Converted(table, cols, quotes, target).value[i] == Rescaled(table[i], cols, 1.0, target)
  {
    RateTableKeys(quotes, target);
    var rates := RateTable(quotes, target).value;
    ConvertRowwise(table, cols, rates, target);
    RateOfLast(rates, CurrencyName(target));
  }

  /** Every converted row carries the target currency, when reading the
      currency column back gives what relabelling wrote. */
  lemma {:induction false} ConvertRelabels<R(!new)>(table: seq<R>, cols: Columns<R>, rates: seq<Rate>, target: Currency)
    requires forall x: R, c: string :: cols.currencyOf(cols.relabel(x, c)) == c
    ensures forall x :: x in Convert(table, cols, rates, target) ==> cols.currencyOf(x) == CurrencyName(target)
    decreases |table|
  {
    if |table| > 0 {
      var last := table[|table| - 1];
      ConvertRelabels(table[..|table| - 1], cols, rates, target);
      var tail := MapSeq(JoinedRates(rates, cols.currencyOf(last)), (rate: real) => Rescaled(last, cols, rate, target));
      forall x | x in tail ensures cols.currencyOf(x) == CurrencyName(target) {
        var i :| 0 <= i < |tail| && tail[i] == x;
        var rate := JoinedRates(rates, cols.currencyOf(last))[i];
        assert x == cols.relabel(cols.scale(last, rate), CurrencyName(target));
      }
      assert Convert(table, cols, rates, target) == Convert(table[..|table| - 1], cols, rates, target) + tail;
    }
  }

  /** Every converted row is a row of the table rescaled at some rate. */
  lemma {:induction false} ConvertFrom<R(!new)>(table: seq<R>, cols: Columns<R>, rates: seq<Rate>, target: Currency)
    ensures forall y :: y in Convert(table, cols, rates, target) ==>
      exists x, rate :: x in table && y == Rescaled(x, cols, rate, target)
    decreases |table|
  {
    if |table| > 0 {
      var init, last := table[..|table| - 1], table[|table| - 1];
      ConvertFrom(init, cols, rates, target);
      var tail := MapSeq(JoinedRates(rates, cols.currencyOf(last)), (rate: real) => Rescaled(last, cols, rate, target));
      assert Convert(table, cols, rates, target) == Convert(init, cols, rates, target) + tail;
      forall y | y in Convert(table, cols, rates, target)
        ensures exists x, rate :: x in table && y == Rescaled(x, cols, rate, target)
      {
        if y in tail {
          var i :| 0 <= i < |tail| && tail[i] == y;
          assert y == Rescaled(last, cols, JoinedRates(rates, cols.currencyOf(last))[i], target);
        } else {
          var x, rate :| x in init && y == Rescaled(x, cols, rate, target);
          assert x in table;
        }
      }
    }
  }

  /** Every row `normalize` returns is a row of the table, as it was or
      rescaled at some rate. */
  lemma NormalizedFrom<R(!new)>(table: seq<R>, cols: Columns<R>, target: Currency, tickers: seq<string>,
                                countries: seq<Country>, respond: Respond, period: SearchPeriod, y: R)
    requires NormalizeResult(table, cols, target, tickers, countries, respond, period).Ok?
    requires y in NormalizeResult(table, cols, target, tickers, countries, respond, period).value
    ensures exists x :: x in table && (y == x || exists rate :: y == Rescaled(x, cols, rate, target))
  {
    var cs := Currencies(table, cols);
    if !OnlyTarget(cs, target) {
      var registered := Registered(cs, target);
      var answer := respond(tickers + registered, countries + NAs(|registered|), period);
      ConvertFrom(table, cols, RateTable(answer.value.quotes, target).value, target);
    }
  }

  /** A table `normalize` returns is in the target currency. */
  lemma NormalizedInTarget<R(!new)>(table: seq<R>, cols: Columns<R>, target: Currency, tickers: seq<string>,
                              countries: seq<Country>, respond: Respond, period: SearchPeriod)
    requires forall x: R, c: string :: cols.currencyOf(cols.relabel(x, c)) == c
    ensures var r := NormalizeResult(table, cols, target, tickers, countries, respond, period);
      r.Ok? ==> forall x :: x in r.value ==> cols.currencyOf(x) == CurrencyName(target)
  {
    var r := NormalizeResult(table, cols, target, tickers, countries, respond, period);
    if r.Ok? {
      var cs := Currencies(table, cols);
      if OnlyTarget(cs, target) {
        OnlyTargetIff(table, cols, target);
        forall x | x in table ensures cols.currencyOf(x) == CurrencyName(target) {
          var i :| 0 <= i < |table| && table[i] == x;
        }
      } else {
        var registered := Registered(cs, target);
        var answer := respond(tickers + registered, countries + NAs(|registered|), period);
        ConvertRelabels(table, cols, RateTable(answer.value.quotes, target).value, target);
      }
    }
  }

  /** When only the last entry is for `c`, its rate is `c`'s. */
  lemma {:induction false} RateOfLast(rates: seq<Rate>, c: string)
    requires |rates| > 0 && rates[|rates| - 1].currency == c
    requires forall i :: 0 <= i < |rates| - 1 ==> rates[i].currency != c
    ensures RateOf(rates, c) == rates[|rates| - 1].rate
    decreases |rates|
  {
    if |rates| > 1 {
      RateOfLast(rates[1..], c);
    }
  }

  /** The quotes are requested from three days before `present` to
      `present`; without a date both ends take the default, today. */
  function QuoteWindow(present: Option<Date>, today: Date): (p: SearchPeriod)
    ensures present.Some? ==> p.start == present.value - 3 && p.end == present.value
    ensures present.None? ==> p.start == today && p.end == today
  {
    if present.Some? then SearchPeriod(present.value - 3, present.value) else SearchPeriod(today, today)
  }

  /** The pair at most one name registers. */
  function PairOf(name: string, target: Currency): seq<string> {
    var parsed := ParseCurrency(name);
    if parsed.Some? && parsed.value != target then [PairName(parsed.value, target)] else []
  }

  /** The loop body for one name: parse it, and register it with the target
      unless it is the target. */
  method RegisterOne(name: string, target: Currency, scraper: Provider) returns (ok: bool)
    modifies scraper
    ensures ok <==> ParseCurrency(name).Some?
    ensures ok ==> scraper.tickers == old(scraper.tickers) + PairOf(name, target)
    ensures ok ==> scraper.countries == old(scraper.countries) + NAs(|PairOf(name, target)|)
    ensures !ok ==> scraper.tickers == old(scraper.tickers) && scraper.countries == old(scraper.countries)
    ensures scraper.requests == old(scraper.requests)
  {
    var parsed := ParseCurrency(name);
    if parsed.None? {
      return false;
    }
    if parsed.value != target {
      scraper.WithCurrency(parsed.value, target);
      assert NAs(1) == [Country.NA];
    } else {
      assert scraper.countries == old(scraper.countries) + NAs(0);
    }
    ok := true;
  }

  /** One pass of the registration loop: `cs[k]` after the names before it. */
  method RegisterNext(cs: seq<string>, k: nat, target: Currency, scraper: Provider,
                      ghost tickers0: seq<string>, ghost countries0: seq<Country>)
    returns (ok: bool)
    requires k < |cs| && k <= Parsed(cs)
    requires scraper.tickers == tickers0 + Registered(cs[..k], target)
    requires scraper.countries == countries0 + NAs(|Registered(cs[..k], target)|)
    modifies scraper
    ensures ok <==> k + 1 <= Parsed(cs)
    ensures !ok ==> Parsed(cs) == k
    ensures ok ==> scraper.tickers == tickers0 + Registered(cs[..k + 1], target)
    ensures ok ==> scraper.countries == countries0 + NAs(|Registered(cs[..k + 1], target)|)
    ensures !ok ==> scraper.tickers == old(scraper.tickers) && scraper.countries == old(scraper.countries)
    ensures scraper.requests == old(scraper.requests)
  {
    RegisteredStep(cs, k, target);
    ParsedNext(cs, k);
    ok := RegisterOne(cs[k], target, scraper);
    if ok {
      Concat3(tickers0, Registered(cs[..k], target), PairOf(cs[k], target));
      NAsGrow(countries0, |Registered(cs[..k], target)|, |PairOf(cs[k], target)|);
    }
  }

  /** The registration loop of `normalize`: each name in turn is parsed,
      an unparseable one stops the loop, and every currency other than the
      target is registered as a pair with it. */
  method RegisterPairs(cs: seq<string>, target: Currency, scraper: Provider) returns (ok: bool)
    modifies scraper
    ensures ok <==> Parsed(cs) == |cs|
    ensures scraper.tickers == old(scraper.tickers) + Registered(cs[..Parsed(cs)], target)
    ensures scraper.countries == old(scraper.countries) + NAs(|Registered(cs[..Parsed(cs)], target)|)
    ensures scraper.requests == old(scraper.requests)
  {
    ghost var tickers0, countries0, requests0 := scraper.tickers, scraper.countries, scraper.requests;
    var k := 0;
    while k < |cs|
      invariant 0 <= k <= |cs|
      invariant k <= Parsed(cs)
      invariant scraper.tickers == tickers0 + Registered(cs[..k], target)
      invariant scraper.countries == countries0 + NAs(|Registered(cs[..k], target)|)
      invariant scraper.requests == requests0
    {
      var parsed := RegisterNext(cs, k, target, scraper, tickers0, countries0);
      if !parsed {
        return false;
      }
      k := k + 1;
    }
    assert cs[..|cs|] == cs;
    ok := true;
  }

  /** What `normalize` returns, given the provider's registrations before
      the call, its answer function and the period asked for. */
  function NormalizeResult<R>(table: seq<R>, cols: Columns<R>, target: Currency, tickers: seq<string>,
                              countries: seq<Country>, respond: Respond, period: SearchPeriod): (r: Result<seq<R>>)
    ensures |table| == 0 ==> r == Fail(Error("Argument table must not be empty!"))
    ensures |table| > 0 && OnlyTarget(Currencies(table, cols), target) ==> r == Ok(table)
    ensures var cs := Currencies(table, cols);
      |table| > 0 && !OnlyTarget(cs, target) && Parsed(cs) < |cs| ==> r.Fail? && r.failure.Error?
  {
    if |table| == 0 then Fail(Error("Argument table must not be empty!"))
    else
      var cs := Currencies(table, cols);
      if OnlyTarget(cs, target) then Ok(table)
      else if Parsed(cs) < |cs| then Fail(Error("Can't parse " + cs[Parsed(cs)]))
      else
        var registered := Registered(cs, target);
        var answer := respond(tickers + registered, countries + NAs(|registered|), period);
        if answer.Fail? then Fail(answer.failure) else Converted(table, cols, answer.value.quotes, target)
  }

  /** The provider's registrations and request log, as a value. */
  datatype ProviderState = ProviderState(tickers: seq<string>, countries: seq<Country>, requests: seq<SearchPeriod>)

  /** The provider's state after `normalize`: untouched for an empty table or
      one already in the target currency alone; the pairs registered before
      an unparseable currency; otherwise one request more, with the
      registrations cleared when the load succeeds and kept when it fails. */
  function StateAfter<R>(table: seq<R>, cols: Columns<R>, target: Currency, s: ProviderState,
                         respond: Respond, period: SearchPeriod): ProviderState
  {
    if |table| == 0 then s
    else
      var cs := Currencies(table, cols);
      if OnlyTarget(cs, target) then s
      else if Parsed(cs) < |cs| then
        var registered := Registered(cs[..Parsed(cs)], target);
        ProviderState(s.tickers + registered, s.countries + NAs(|registered|), s.requests)
      else
        var registered := Registered(cs, target);
        var tickers, countries := s.tickers + registered, s.countries + NAs(|registered|);
        if respond(tickers, countries, period).Ok? then ProviderState([], [], s.requests + [period])
        else ProviderState(tickers, countries, s.requests + [period])
  }

  /** `normalize`: rejects an empty table; returns a table in the target
      currency only as it is, without asking the provider; otherwise
      registers one pair per other currency, loads the quotes and converts
      every row. An unparseable currency stops the registration with an
      error before anything is loaded. */
  method Normalize<R>(table: seq<R>, cols: Columns<R>, target: Currency, scraper: Provider,
                      present: Option<Date>, today: Date) returns (r: Result<seq<R>>)
    modifies scraper
    ensures r == NormalizeResult(table, cols, target, old(scraper.tickers), old(scraper.countries),
                                 scraper.respond, QuoteWindow(present, today))
    ensures ProviderState(scraper.tickers, scraper.countries, scraper.requests) ==
      StateAfter(table, cols, target, old(ProviderState(scraper.tickers, scraper.countries, scraper.requests)),
                 scraper.respond, QuoteWindow(present, today))
    ensures |table| == 0 || OnlyTarget(Currencies(table, cols), target) ==> unchanged(scraper)
    ensures var cs := Currencies(table, cols);
      |table| > 0 && !OnlyTarget(cs, target) && Parsed(cs) < |cs| ==>
        && scraper.tickers == old(scraper.tickers) + Registered(cs[..Parsed(cs)], target)
        && scraper.countries == old(scraper.countries) + NAs(|Registered(cs[..Parsed(cs)], target)|)
        && scraper.requests == old(scraper.requests)
    ensures var cs := Currencies(table, cols);
      var tickers := old(scraper.tickers) + Registered(cs, target);
      var countries := old(scraper.countries) + NAs(|Registered(cs, target)|);
      var period := QuoteWindow(present, today);
      var answer := scraper.respond(tickers, countries, period);
      |table| > 0 && !OnlyTarget(cs, target) && Parsed(cs) == |cs| ==>
        && scraper.requests == old(scraper.requests) + [period]
        && (answer.Ok? ==> scraper.tickers == [] && scraper.countries == [])
        && (answer.Fail? ==> scraper.tickers == tickers && scraper.countries == countries)
  {
    if |table| == 0 {
      return Fail(Error("Argument table must not be empty!"));
    }
    var cs := Currencies(table, cols);
    if OnlyTarget(cs, target) {
      return Ok(table);
    }
    var ok := RegisterPairs(cs, target, scraper);
    if !ok {
      return Fail(Error("Can't parse " + cs[Parsed(cs)]));
    }
    assert cs[..Parsed(cs)] == cs;
    var data := scraper.Load(QuoteWindow(present, today));
    if data.Fail? {
      return Fail(data.failure);
    }
    r := Converted(table, cols, data.value.quotes, target);
  }
}

/** The normaliser run against the mock provider. */
module NormalizeExamples {
  import opened Wrappers
  import opened Calendar
  import opened Text
  import opened Series
  import opened Schema
  import opened Scraper
  import opened Mock
  import opened CurrencyNormalize
  import opened LegacyCurrencyNormalize

  /** An order row reduced to what conversion touches. */
  datatype CashRow = CashRow(ticker: string, amount: real, currency: string)

  function CashColumns(): Columns<CashRow> {
    Columns((x: CashRow) => x.currency,
            (x: CashRow, rate: real) => x.(amount := x.amount * rate),
            (x: CashRow, c: string) => x.(currency := c))
  }

  const CashTable: seq<CashRow> := [CashRow("CASH", 150.0, "USD"), CashRow("CASH", 1.56, "GBP")]

  const UsdGbp: Record := Record(MockQuoteDate, "USD/GBP", 0.87, "NA")

  lemma CashCurrencies()
    ensures Currencies(CashTable, CashColumns()) == ["GBP", "USD"]
  {
    var cs := Currencies(CashTable, CashColumns());
    assert CashColumns().currencyOf(CashTable[0]) == "USD";
    assert CashColumns().currencyOf(CashTable[1]) == "GBP";
    assert forall c :: c in cs <==> c in ["GBP", "USD"];
    assert Less("GBP", "USD");
    SortedUnique(cs, ["GBP", "USD"]);
  }

  lemma CashRegistered()
    ensures Parsed(["GBP", "USD"]) == 2
    ensures Registered(["GBP", "USD"], GBP) == ["USD/GBP"]
  {
    assert ["GBP", "USD"][1..] == ["USD"];
    assert ["USD"][1..] == [];
    assert ["GBP", "USD"][..1] == ["GBP"];
    assert ["GBP"][..0] == [];
    assert PairName(USD, GBP) == "USD/GBP";
  }

  lemma CashAnswer(period: SearchPeriod)
    ensures MockRespond(["USD/GBP"], NAs(1), period) == Ok(Tables([UsdGbp], [], []))
  {
    assert NAs(1) == [Country.NA];
    assert "USD/GBP" in MockPrices;
    var q := MockRespond(["USD/GBP"], NAs(1), period);
    assert q.Ok?;
    assert q.value.quotes[0] == UsdGbp;
    assert q.value.quotes == [UsdGbp];
  }

  /** One quoted pair gives its own rate and the target's. */
  lemma OnePairRates(q: Record, from: Currency, to: Currency)
    requires q.ticker == PairName(from, to)
    ensures RateTable([q], to) == Ok([Rate(CurrencyName(from), q.value), Rate(CurrencyName(to), 1.0)])
  {
    var quotes := [q];
    var ts := QuotedTickers(quotes);
    assert MapSeq(quotes, RecordTicker) == [q.ticker];
    assert [q.ticker][..0] == [];
    assert UniqueStable<string>([]) == [];
    assert UniqueStable([q.ticker]) == [q.ticker];
    assert ts == [q.ticker];
    PairPrefix(from, to);
    assert LastPrice(quotes, q.ticker) == Some(q.value);
    var r := RateTable(quotes, to);
    assert r.Ok?;
    assert r.value == [r.value[0], r.value[1]];
  }

  lemma CashConverted()
    ensures Convert(CashTable, CashColumns(), [Rate("USD", 0.87), Rate("GBP", 1.0)], GBP) ==
      [CashRow("CASH", 130.5, "GBP"), CashRow("CASH", 1.56, "GBP")]
  {
    var rates := [Rate("USD", 0.87), Rate("GBP", 1.0)];
    assert DistinctKeys(rates);
    ConvertRowwise(CashTable, CashColumns(), rates, GBP);
    assert rates[1..] == [Rate("GBP", 1.0)];
    assert RateOf(rates, "USD") == 0.87;
    assert RateOf(rates, "GBP") == 1.0;
  }

  lemma CashConversion()
    ensures Converted(CashTable, CashColumns(), [UsdGbp], GBP) ==
      Ok([CashRow("CASH", 130.5, "GBP"), CashRow("CASH", 1.56, "GBP")])
  {
    assert PairName(USD, GBP) == "USD/GBP";
    OnePairRates(UsdGbp, USD, GBP);
    CashConverted();
  }

  lemma CashRequest(period: SearchPeriod)
    ensures var cs := Currencies(CashTable, CashColumns());
      && !OnlyTarget(cs, GBP) && Parsed(cs) == |cs|
      && MockRespond([] + Registered(cs, GBP), [] + NAs(|Registered(cs, GBP)|), period) == Ok(Tables([UsdGbp], [], []))
  {
    CashCurrencies();
    CashRegistered();
    CashAnswer(period);
    assert [] + ["USD/GBP"] == ["USD/GBP"];
    assert [] + NAs(1) == NAs(1);
  }

  /** A withdrawal of 150 USD and a fee of 1.56 GBP, in pounds: the dollars
      at the mock's USD/GBP rate of 0.87, the pounds as they are. */
  method CashToPounds(today: Date) returns (r: Result<seq<CashRow>>)
    ensures r == Ok([CashRow("CASH", 130.5, "GBP"), CashRow("CASH", 1.56, "GBP")])
  {
    var p := NewMock();
    CashRequest(QuoteWindow(None, today));
    CashConversion();
    r := Normalize(CashTable, CashColumns(), GBP, p, None, today);
  }

  /** Two rows in dollars have the one currency name "USD". */
  lemma UsdCurrencies<R>(rows: seq<R>, cols: Columns<R>)
    requires |rows| == 2 && cols.currencyOf(rows[0]) == "USD" && cols.currencyOf(rows[1]) == "USD"
    ensures Currencies(rows, cols) == ["USD"]
  {
    var cs := Currencies(rows, cols);
    assert forall c :: c in cs <==> c in ["USD"];
    SortedUnique(cs, ["USD"]);
  }

  /** For "USD" alone the loop registers USD/GBP, and the mock answers
      with its USD/GBP quote. */
  lemma UsdRequest(period: SearchPeriod)
    ensures !OnlyTarget(["USD"], GBP) && Parsed(["USD"]) == 1 && Registered(["USD"], GBP) == ["USD/GBP"]
    ensures MockRespond([] + ["USD/GBP"], [] + NAs(1), period) == Ok(Tables([UsdGbp], [], []))
  {
    assert ["USD"][1..] == [] && ["USD"][..0] == [];
    assert PairName(USD, GBP) == "USD/GBP";
    CashAnswer(period);
    assert [] + ["USD/GBP"] == ["USD/GBP"] && [] + NAs(1) == NAs(1);
  }

  /** The USD/GBP quote alone gives dollars at 0.87 and pounds at 1. */
  lemma UsdRates()
    ensures RateTable([UsdGbp], GBP) == Ok([Rate("USD", 0.87), Rate("GBP", 1.0)])
  {
    assert PairName(USD, GBP) == "USD/GBP";
    OnePairRates(UsdGbp, USD, GBP);
    assert CurrencyName(USD) == "USD" && CurrencyName(GBP) == "GBP";
  }

  /** Two dollar rows at those rates are rescaled by 0.87. */
  lemma UsdConvert<R>(rows: seq<R>, cols: Columns<R>)
    requires |rows| == 2 && cols.currencyOf(rows[0]) == "USD" && cols.currencyOf(rows[1]) == "USD"
    ensures Convert(rows, cols, [Rate("USD", 0.87), Rate("GBP", 1.0)], GBP) ==
      [Rescaled(rows[0], cols, 0.87, GBP), Rescaled(rows[1], cols, 0.87, GBP)]
  {
    var rates := [Rate("USD", 0.87), Rate("GBP", 1.0)];
    assert DistinctKeys(rates);
    assert RateOf(rates, "USD") == 0.87;
    ConvertRowwise(rows, cols, rates, GBP);
  }

  /** Two dollar rows, converted with the USD/GBP quote, at 0.87. */
  lemma UsdConverted<R>(rows: seq<R>, cols: Columns<R>)
    requires |rows| == 2 && cols.currencyOf(rows[0]) == "USD" && cols.currencyOf(rows[1]) == "USD"
    ensures Converted(rows, cols, [UsdGbp], GBP) ==
      Ok([Rescaled(rows[0], cols, 0.87, GBP), Rescaled(rows[1], cols, 0.87, GBP)])
  {
    UsdRates();
    UsdConvert(rows, cols);
  }

  /** A pass over two dollar rows, against the mock with nothing
      registered: USD/GBP is registered and loaded, both rows are converted
      at its rate of 0.87, and the load clears the registrations. */
  lemma UsdPass<R>(rows: seq<R>, cols: Columns<R>, s: ProviderState, period: SearchPeriod)
    requires |rows| == 2 && cols.currencyOf(rows[0]) == "USD" && cols.currencyOf(rows[1]) == "USD"
    requires s.tickers == [] && s.countries == []
    ensures NormalizeResult(rows, cols, GBP, s.tickers, s.countries, MockRespond, period) ==
      Ok([Rescaled(rows[0], cols, 0.87, GBP), Rescaled(rows[1], cols, 0.87, GBP)])
    ensures StateAfter(rows, cols, GBP, s, MockRespond, period) == ProviderState([], [], s.requests + [period])
  {
    UsdCurrencies(rows, cols);
    UsdRequest(period);
    UsdConverted(rows, cols);
  }

  /** Two different keys are kept, in order. */
  lemma UniqueTwo<K(!new)>(x: K, y: K)
    requires x != y
    ensures UniqueStable([x, y]) == [x, y]
  {
    assert [x, y][..1] == [x] && [x][..0] == [];
    assert UniqueStable<K>([]) == [];
    assert UniqueStable([x]) == [x];
  }

  lemma CashNames()
    ensures UniqueStable(MapSeq(CashTable, CashColumns().currencyOf)) == ["USD", "GBP"]
  {
    var keys := MapSeq(CashTable, CashColumns().currencyOf);
    assert keys == ["USD", "GBP"];
    assert "GBP"[0] != "USD"[0];
    UniqueTwo("USD", "GBP");
  }

  /** A currency other than the target whose pair the provider answers
      with one quote maps to that quote's price, and the registrations are
      cleared. */
  lemma LookupQuoted(st: Lookup, from: Currency, target: Currency, respond: Respond, period: SearchPeriod, q: Record)
    requires from != target
    requires respond(st.tickers + [PairName(from, target)], st.countries + [Country.NA], period) == Ok(Tables([q], [], []))
    ensures LookupStep(st, CurrencyName(from), target, respond, period) ==
      Ok(Lookup(st.rates[CurrencyName(from) := q.value], [], [], st.requests + [period]))
  {
    ParseCurrencyName(from);
  }

  /** The dollar lookup registers USD/GBP, loads it and clears the mock. */
  lemma LegacyUsdStep(period: SearchPeriod)
    ensures LookupStep(Lookup(map[], [], [], []), "USD", GBP, MockRespond, period) ==
      Ok(Lookup(map["USD" := 0.87], [], [], [period]))
  {
    var st := Lookup(map[], [], [], []);
    assert PairName(USD, GBP) == "USD/GBP";
    assert st.tickers + ["USD/GBP"] == ["USD/GBP"] && st.countries + [Country.NA] == NAs(1);
    CashAnswer(period);
    LookupQuoted(st, USD, GBP, MockRespond, period, UsdGbp);
    assert [] + [period] == [period];
  }

  /** The pound lookup maps the target to 1 without a load. */
  lemma LegacyGbpStep(st: Lookup, period: SearchPeriod)
    ensures LookupStep(st, "GBP", GBP, MockRespond, period) == Ok(st.(rates := st.rates["GBP" := 1.0]))
  {
    ParseCurrencyName(GBP);
  }

  lemma LegacyCashLookup(today: Date)
    ensures LookupAll(["USD", "GBP"], GBP, Lookup(map[], [], [], []), MockRespond, DayBack(today)) ==
      Ok(Lookup(map["USD" := 0.87, "GBP" := 1.0], [], [], [DayBack(today)]))
  {
    var names := ["USD", "GBP"];
    var st0 := Lookup(map[], [], [], []);
    var period := DayBack(today);
    LookupAllNext(names, 0, GBP, st0, MockRespond, period);
    LookupAllNext(names, 1, GBP, st0, MockRespond, period);
    assert names[..0] == [] && names[..2] == names;
    LegacyUsdStep(period);
    LegacyGbpStep(Lookup(map["USD" := 0.87], [], [], [period]), period);
  }

  /** The two cash rows, each scaled at its currency's looked-up rate. */
  lemma LegacyCashRows(rs: seq<CashRow>, rates: map<string, real>)
    requires rates == map["USD" := 0.87, "GBP" := 1.0]
    requires |rs| == |CashTable|
    requires forall i :: 0 <= i < |CashTable| ==>
      CashColumns().currencyOf(CashTable[i]) in rates &&
      rs[i] == Rescaled(CashTable[i], CashColumns(), rates[CashColumns().currencyOf(CashTable[i])], GBP)
    ensures rs == [CashRow("CASH", 130.5, "GBP"), CashRow("CASH", 1.56, "GBP")]
  {
    assert CashColumns().currencyOf(CashTable[0]) == "USD";
    assert CashColumns().currencyOf(CashTable[1]) == "GBP";
    assert rs[0] == CashRow("CASH", 130.5, "GBP");
    assert rs[1] == CashRow("CASH", 1.56, "GBP");
  }

  /** The older normaliser on the same rows gives the same pounds. */
  method LegacyCashToPounds(today: Date) returns (r: Result<seq<CashRow>>)
    ensures r == Ok([CashRow("CASH", 130.5, "GBP"), CashRow("CASH", 1.56, "GBP")])
  {
    var p := NewMock();
    CashNames();
    LegacyCashLookup(today);
    r := LegacyNormalize(CashTable, CashColumns(), GBP, p, today);
    LegacyCashRows(r.value, map["USD" := 0.87, "GBP" := 1.0]);
  }
}

/** The older `currency::normalize`: one rate per distinct currency, looked
    up pair by pair, then every row scaled through a currency-to-rate map. A
    failed lookup falls back to rate 1; there is no short cut for a table
    already in the target currency. */
module LegacyCurrencyNormalize {
  import opened Wrappers
  import opened Calendar
  import opened Series
  import opened Schema
  import opened Scraper
  import opened ColumnMap
  import opened CurrencyNormalize

  /** What the lookups have produced so far, and the provider's state. */
  datatype Lookup = Lookup(rates: map<string, real>, tickers: seq<string>, countries: seq<Country>,
                           requests: seq<SearchPeriod>)

  /** `PeriodFromNow(Day(1))`: from yesterday to today. */
  function DayBack(today: Date): SearchPeriod {
    SearchPeriod(today - 1, today)
  }

  /** The period starts where the interval `Day(1)` reaches back to and
      ends today. */
  lemma DayBackIsOneDay(today: Date)
    ensures ToNaive(Day(1), today) == Ok(DayBack(today).start) && DayBack(today).end == today
  {
  }

  /** One currency of the map closure: the target maps to 1; another
      currency is registered and loaded, and maps to the first quote's
      price, or to 1 when the load fails. A name that does not parse, and a
      successful load without quotes, panic. */
  function LookupStep(st: Lookup, name: string, target: Currency, respond: Respond, period: SearchPeriod): Result<Lookup> {
    var parsed := ParseCurrency(name);
    if parsed.None? then Fail(Panic("Can't parse " + name))
    else if parsed.value == target then Ok(st.(rates := st.rates[CurrencyName(target) := 1.0]))
    else PairLookup(st, parsed.value, target, respond, period)
  }

  /** The lookup of a currency other than the target: its pair is
      registered and loaded. */
  function PairLookup(st: Lookup, c: Currency, target: Currency, respond: Respond, period: SearchPeriod): Result<Lookup> {
    var key := CurrencyName(c);
    var tickers := st.tickers + [PairName(c, target)];
    var countries := st.countries + [Country.NA];
    var answer := respond(tickers, countries, period);
    var requests := st.requests + [period];
    if answer.Fail? then Ok(Lookup(st.rates[key := 1.0], tickers, countries, requests))
    else if |answer.value.quotes| == 0 then Fail(Panic("called `Option::unwrap()` on a `None` value"))
    else Ok(Lookup(st.rates[key := answer.value.quotes[0].value], [], [], requests))
  }

  /** A lookup panics exactly on a name that does not parse and on a
      successful load without quotes; otherwise it adds `name` to the map,
      at rate 1 for the target without touching the provider. */
  lemma LookupStepSpec(st: Lookup, name: string, target: Currency, respond: Respond, period: SearchPeriod)
    ensures var r := LookupStep(st, name, target, respond, period);
      && (r.Fail? <==> (ParseCurrency(name).None? ||
           (ParseCurrency(name).value != target &&
            var answer := respond(st.tickers + [PairName(ParseCurrency(name).value, target)], st.countries + [Country.NA], period);
            answer.Ok? && |answer.value.quotes| == 0)))
      && (r.Ok? ==> r.value.rates.Keys == st.rates.Keys + {name})
      && (r.Ok? && ParseCurrency(name) == Some(target) ==> r.value == st.(rates := st.rates[name := 1.0]))
  {
  }

  /** One more name: the lookups so far, then that name's. */
  lemma LookupAllNext(names: seq<string>, k: nat, target: Currency, st: Lookup, respond: Respond, period: SearchPeriod)
    requires k < |names|
    ensures var prev := LookupAll(names[..k], target, st, respond, period);
      LookupAll(names[..k + 1], target, st, respond, period) ==
        if prev.Fail? then prev else LookupStep(prev.value, names[k], target, respond, period)
  {
    assert names[..k + 1][..k] == names[..k];
  }

  /** The lookups of `names` in order, stopping at the first panic. */
  function LookupAll(names: seq<string>, target: Currency, st: Lookup, respond: Respond, period: SearchPeriod): Result<Lookup>
    decreases |names|
  {
    if |names| == 0 then Ok(st)
    else
      var prev := LookupAll(names[..|names| - 1], target, st, respond, period);
      if prev.Fail? then prev else LookupStep(prev.value, names[|names| - 1], target, respond, period)
  }

  /** The rate map has one key per looked-up name. */
  lemma {:induction false} LookupAllKeys(names: seq<string>, target: Currency, st: Lookup, respond: Respond, period: SearchPeriod)
    ensures var r := LookupAll(names, target, st, respond, period);
      r.Ok? ==> forall n :: n in r.value.rates <==> n in st.rates || n in names
    decreases |names|
  {
    if |names| > 0 {
      var init := names[..|names| - 1];
      LookupAllKeys(init, target, st, respond, period);
      assert names == init + [names[|names| - 1]];
      var prev := LookupAll(init, target, st, respond, period);
      if prev.Ok? {
        LookupStepSpec(prev.value, names[|names| - 1], target, respond, period);
      }
    }
  }

  /** No lookup panics when every name parses and the provider answers
      every successful load with at least one quote. */
  lemma {:induction false} LookupAllSucceeds(names: seq<string>, target: Currency, st: Lookup, respond: Respond, period: SearchPeriod)
    requires forall i :: 0 <= i < |names| ==> ParseCurrency(names[i]).Some?
    requires forall ts, cs, p :: respond(ts, cs, p).Ok? ==> |respond(ts, cs, p).value.quotes| > 0
    ensures LookupAll(names, target, st, respond, period).Ok?
    decreases |names|
  {
    if |names| > 0 {
      LookupAllSucceeds(names[..|names| - 1], target, st, respond, period);
      var prev := LookupAll(names[..|names| - 1], target, st, respond, period);
      LookupStepSpec(prev.value, names[|names| - 1], target, respond, period);
    }
  }

  /** The target maps to 1, wherever it occurs among the names. */
  lemma {:induction false} LookupAllTarget(names: seq<string>, target: Currency, st: Lookup, respond: Respond, period: SearchPeriod)
    requires CurrencyName(target) in names
    ensures var r := LookupAll(names, target, st, respond, period);
      r.Ok? ==> CurrencyName(target) in r.value.rates && r.value.rates[CurrencyName(target)] == 1.0
    decreases |names|
  {
    LookupAllKeys(names, target, st, respond, period);
    var r := LookupAll(names, target, st, respond, period);
    var init := names[..|names| - 1];
    var last := names[|names| - 1];
    assert names == init + [last];
    ParseCurrencyName(target);
    var prev := LookupAll(init, target, st, respond, period);
    if prev.Ok? {
      LookupStepSpec(prev.value, last, target, respond, period);
    }
    if r.Ok? && last != CurrencyName(target) {
      LookupAllTarget(init, target, st, respond, period);
      var parsed := ParseCurrency(last);
      assert CurrencyName(parsed.value) == last;
    }
  }

  /** A table in the target currency only is looked up without a load: each
      name maps to 1 and the provider is left as it was. */
  lemma {:induction false} LookupAllSameCurrency(names: seq<string>, target: Currency, st: Lookup, respond: Respond, period: SearchPeriod)
    requires forall i :: 0 <= i < |names| ==> names[i] == CurrencyName(target)
    ensures var r := LookupAll(names, target, st, respond, period);
      && r.Ok?
      && r.value.tickers == st.tickers && r.value.countries == st.countries && r.value.requests == st.requests
      && forall n :: n in r.value.rates ==> n in st.rates || r.value.rates[n] == 1.0
    decreases |names|
  {
    if |names| > 0 {
      LookupAllSameCurrency(names[..|names| - 1], target, st, respond, period);
      ParseCurrencyName(target);
      var prev := LookupAll(names[..|names| - 1], target, st, respond, period);
      LookupStepSpec(prev.value, names[|names| - 1], target, respond, period);
    }
  }

  /** Once a prefix panics, so does the whole sequence, with the same
      message. */
  lemma {:induction false} LookupAllStops(names: seq<string>, k: nat, target: Currency, st: Lookup, respond: Respond, period: SearchPeriod)
    requires k <= |names| && LookupAll(names[..k], target, st, respond, period).Fail?
    ensures LookupAll(names, target, st, respond, period) == LookupAll(names[..k], target, st, respond, period)
    decreases |names| - k
  {
    if k < |names| {
      var init := names[..|names| - 1];
      assert init[..k] == names[..k];
      LookupAllStops(init, k, target, st, respond, period);
    } else {
      assert names[..k] == names;
    }
  }

  function LookupStart(rates: map<string, real>, p: Provider): Lookup
    reads p
  {
    Lookup(rates, p.tickers, p.countries, p.requests)
  }

  /** The closure's body for one currency name. */
  method LookupOne(rates: map<string, real>, name: string, target: Currency, scraper: Provider, period: SearchPeriod)
    returns (r: Result<map<string, real>>)
    modifies scraper
    ensures var step := LookupStep(old(LookupStart(rates, scraper)), name, target, scraper.respond, period);
      && (r.Ok? <==> step.Ok?)
      && (r.Fail? ==> r.failure == step.failure)
      && (r.Ok? ==> LookupStart(r.value, scraper) == step.value)
  {
    var parsed := ParseCurrency(name);
    if parsed.None? {
      return Fail(Panic("Can't parse " + name));
    }
    if parsed.value == target {
      return Ok(rates[CurrencyName(target) := 1.0]);
    }
    r := LookupPair(rates, parsed.value, target, scraper, period);
  }

  /** Registering and loading one pair. */
  method LookupPair(rates: map<string, real>, c: Currency, target: Currency, scraper: Provider, period: SearchPeriod)
    returns (r: Result<map<string, real>>)
    modifies scraper
    ensures var step := PairLookup(old(LookupStart(rates, scraper)), c, target, scraper.respond, period);
      && (r.Ok? <==> step.Ok?)
      && (r.Fail? ==> r.failure == step.failure)
      && (r.Ok? ==> LookupStart(r.value, scraper) == step.value)
  {
    scraper.WithCurrency(c, target);
    var data := scraper.Load(period);
    if data.Fail? {
      r := Ok(rates[CurrencyName(c) := 1.0]);
    } else if |data.value.quotes| == 0 {
      r := Fail(Panic("called `Option::unwrap()` on a `None` value"));
    } else {
      r := Ok(rates[CurrencyName(c) := data.value.quotes[0].value]);
    }
  }

  /** One pass of the map closure: the lookup of `names[k]` after those
      before it; a panic is the panic of the whole sequence. */
  method LookupNext(names: seq<string>, k: nat, rates: map<string, real>, target: Currency, scraper: Provider,
                    period: SearchPeriod, ghost st0: Lookup)
    returns (r: Result<map<string, real>>)
    requires k < |names|
    requires LookupAll(names[..k], target, st0, scraper.respond, period) == Ok(LookupStart(rates, scraper))
    modifies scraper
    ensures r.Ok? ==> LookupAll(names[..k + 1], target, st0, scraper.respond, period) == Ok(LookupStart(r.value, scraper))
    ensures r.Fail? ==> LookupAll(names, target, st0, scraper.respond, period) == Fail(r.failure)
  {
    LookupAllNext(names, k, target, st0, scraper.respond, period);
    r := LookupOne(rates, names[k], target, scraper, period);
    if r.Fail? {
      LookupAllStops(names, k + 1, target, st0, scraper.respond, period);
    }
  }

  /** The map closure of `normalize`, over the distinct currencies. */
  method LookupRates(names: seq<string>, target: Currency, scraper: Provider, today: Date) returns (r: Result<map<string, real>>)
    modifies scraper
    ensures var f := LookupAll(names, target, old(LookupStart(map[], scraper)), scraper.respond, DayBack(today));
      && (r.Ok? <==> f.Ok?)
      && (r.Fail? ==> r.failure == f.failure)
      && (r.Ok? ==> r.value == f.value.rates && LookupStart(r.value, scraper) == f.value)
  {
    ghost var st0 := LookupStart(map[], scraper);
    var period := DayBack(today);
    var rates: map<string, real> := map[];
    var k := 0;
    while k < |names|
      invariant 0 <= k <= |names|
      invariant LookupAll(names[..k], target, st0, scraper.respond, period) == Ok(LookupStart(rates, scraper))
    {
      var next := LookupNext(names, k, rates, target, scraper, period, st0);
      if next.Fail? {
        return Fail(next.failure);
      }
      rates := next.value;
      k := k + 1;
    }
    assert names[..|names|] == names;
    r := Ok(rates);
  }

  /** `normalize` (older form): every row scaled by its currency's rate and
      marked with the target currency. */
  method LegacyNormalize<R>(table: seq<R>, cols: Columns<R>, target: Currency, scraper: Provider, today: Date)
    returns (r: Result<seq<R>>)
    modifies scraper
    ensures var names := UniqueStable(MapSeq(table, cols.currencyOf));
      var f := LookupAll(names, target, old(LookupStart(map[], scraper)), scraper.respond, DayBack(today));
      && (r.Ok? <==> f.Ok?)
      && (r.Ok? ==> |r.value| == |table| && LookupStart(map[], scraper) == f.value.(rates := map[]))
      && (r.Ok? ==> forall i :: 0 <= i < |table| ==>
            cols.currencyOf(table[i]) in f.value.rates &&
            r.value[i] == Rescaled(table[i], cols, f.value.rates[cols.currencyOf(table[i])], target))
  {
    var keys := MapSeq(table, cols.currencyOf);
    var names := UniqueStable(keys);
    ghost var st0 := LookupStart(map[], scraper);
    var rates := LookupRates(names, target, scraper, today);
    if rates.Fail? {
      return Fail(rates.failure);
    }
    LookupAllKeys(names, target, st0, scraper.respond, DayBack(today));
    assert forall i :: 0 <= i < |keys| ==> keys[i] in rates.value by {
      forall i | 0 <= i < |keys| ensures keys[i] in rates.value {
        assert keys[i] in names;
      }
    }
    var factors := MapColumnStrToF64(keys, rates.value);
    r := Ok(seq(|table|, i requires 0 <= i < |table| => Rescaled(table[i], cols, factors.value[i], target)));
  }

  /** Columns whose scaling by 1 and whose relabelling with a row's own
      currency change nothing. */
  ghost predicate Lawful<R(!new)>(cols: Columns<R>) {
    (forall x :: cols.scale(x, 1.0) == x) && (forall x :: cols.relabel(x, cols.currencyOf(x)) == x)
  }

  /** Without the short cut, a table in the target currency still comes
      back as it was: each row is scaled by 1 and relabelled with its own
      currency. */
  lemma SameCurrencyUnchanged<R(!new)>(table: seq<R>, cols: Columns<R>, target: Currency, st: Lookup, respond: Respond, period: SearchPeriod)
    requires Lawful(cols)
    requires forall i :: 0 <= i < |table| ==> cols.currencyOf(table[i]) == CurrencyName(target)
    ensures var names := UniqueStable(MapSeq(table, cols.currencyOf));
      var f := LookupAll(names, target, st.(rates := map[]), respond, period);
      && f.Ok?
      && f.value.tickers == st.tickers && f.value.countries == st.countries && f.value.requests == st.requests
      && forall i :: 0 <= i < |table| ==>
           cols.currencyOf(table[i]) in f.value.rates &&
           Rescaled(table[i], cols, f.value.rates[cols.currencyOf(table[i])], target) == table[i]
  {
    var keys := MapSeq(table, cols.currencyOf);
    var names := UniqueStable(keys);
    var st0 := st.(rates := map[]);
    forall i | 0 <= i < |names| ensures names[i] == CurrencyName(target) {
      assert names[i] in keys;
    }
    LookupAllSameCurrency(names, target, st0, respond, period);
    LookupAllKeys(names, target, st0, respond, period);
    var f := LookupAll(names, target, st0, respond, period);
    forall i | 0 <= i < |table|
      ensures Rescaled(table[i], cols, f.value.rates[cols.currencyOf(table[i])], target) == table[i]
    {
      assert keys[i] in names;
      assert f.value.rates[cols.currencyOf(table[i])] == 1.0;
    }
  }
}
