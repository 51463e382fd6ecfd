/** The quote cache (`Cache<T>`): a provider wrapped with three CSV files
    (quotes, splits, dividends) and two ticker lists, the tickers registered
    since the last load (`tickers`) and every ticker loaded before
    (`cached_tickers`). A load fetches from the provider only when some
    registered ticker has never been loaded. */
module QuoteCache {
  import opened Wrappers
  import opened Calendar
  import opened Text
  import opened Series
  import opened Schema
  import opened Scraper

  /** A cache file: absent, present but not a readable table, or holding
      a table. */
  datatype FileState = Missing | Unreadable | Stored(rows: seq<Record>)

  /** `load_csv(..).unwrap_or_default()`: the stored rows, or an empty frame
      when the file is missing or cannot be read. */
  function ReadRows(f: FileState): seq<Record> {
    if f.Stored? then f.rows else []
  }

  /** `dump_csv`: a non-empty frame is written so that reading the file
      gives it back; an empty frame leaves the file as it was. */
  function Dump(f: FileState, rows: seq<Record>): (r: FileState)
    ensures |rows| > 0 ==> ReadRows(r) == rows
    ensures |rows| == 0 ==> r == f
  {
    if |rows| > 0 then Stored(rows) else f
  }

  datatype CacheFiles = CacheFiles(quotes: FileState, splits: FileState, dividends: FileState)

  /** Each frame dumped to its own file. */
  function DumpAll(files: CacheFiles, data: Tables): CacheFiles {
    CacheFiles(Dump(files.quotes, data.quotes), Dump(files.splits, data.splits),
               Dump(files.dividends, data.dividends))
  }

  /** The frames a load starts from: the cached quotes and, only when there
      are any, the cached splits and dividends. */
  function ReadCache(files: CacheFiles): Tables {
    var quotes := ReadRows(files.quotes);
    if |quotes| > 0 then Tables(quotes, ReadRows(files.splits), ReadRows(files.dividends))
    else Tables([], [], [])
  }

  /** The day of the latest row (the latest cached quote). */
  function LatestDate(rows: seq<Record>): (r: Date)
    requires |rows| > 0
    ensures exists i :: 0 <= i < |rows| && rows[i].date == r
    ensures forall i :: 0 <= i < |rows| ==> rows[i].date <= r
  {
    if |rows| == 1 then rows[0].date
    else
      var m := LatestDate(rows[..|rows| - 1]);
      if rows[|rows| - 1].date > m then rows[|rows| - 1].date else m
  }

  /** The first day the update fetch asks for: the day before the latest
      cached quote, or the start of the requested period when nothing is
      cached. */
  function UpdateStart(cached: seq<Record>, period: SearchPeriod): (r: Date)
    ensures |cached| > 0 ==> exists i :: 0 <= i < |cached| && cached[i].date == r + 1
    ensures |cached| > 0 ==> forall i :: 0 <= i < |cached| ==> cached[i].date <= r + 1
    ensures |cached| == 0 ==> r == period.start
  {
    if |cached| > 0 then LatestDate(cached) - 1 else period.start
  }

  /** A row of a registered ticker, dated within the period. */
  predicate InScope(x: Record, tickers: seq<string>, period: SearchPeriod) {
    x.ticker in tickers && period.start <= x.date <= period.end
  }

  function Restrict(rows: seq<Record>, tickers: seq<string>, period: SearchPeriod): (r: seq<Record>)
    ensures forall x :: x in r <==> x in rows && InScope(x, tickers, period)
  {
    Keep(rows, (x: Record) => InScope(x, tickers, period))
  }

  /** The frames `load` returns: quotes, and dividends when there are any,
      restricted to the registered tickers and the period; splits as they
      are. Since restricting an empty frame leaves it empty, dividends are
      in effect always restricted. */
  function Answer(data: Tables, tickers: seq<string>, period: SearchPeriod): (r: Tables)
    ensures forall x :: x in r.quotes <==> x in data.quotes && InScope(x, tickers, period)
    ensures forall x :: x in r.dividends <==> x in data.dividends && InScope(x, tickers, period)
    ensures r.splits == data.splits
  {
    Tables(Restrict(data.quotes, tickers, period), data.splits,
           if |data.dividends| > 0 then Restrict(data.dividends, tickers, period) else data.dividends)
  }

  /** `concat_*` of a second answer after the first, frame by frame. */
  function Append(a: Tables, b: Tables): Tables {
    Tables(a.quotes + b.quotes, a.splits + b.splits, a.dividends + b.dividends)
  }

  /** `cache_valid`: every registered ticker has been loaded before. Only
      membership is checked, not the dates loaded, and nothing registered
      means valid. */
  predicate Covered(pending: seq<string>, cached: seq<string>) {
    forall t :: t in pending ==> t in cached
  }

  /** The loaded-ticker list after `reset`: the old list and the registered
      tickers, sorted, each once. */
  function Merged(cached: seq<string>, pending: seq<string>): (r: seq<string>)
    ensures StrictlySorted(r)
    ensures forall t :: t in r <==> t in cached || t in pending
  {
    SortDedup(cached + pending)
  }

  /** What a load does: the data it returns (or its failure), the files
      after it, and whether the inner provider was asked. `answer` is the
      inner provider's answer, which matters only when it is asked. */
  datatype Outcome = Outcome(data: Result<Tables>, files: CacheFiles, fetched: bool)

  function PlanLoad(files: CacheFiles, pending: seq<string>, cached: seq<string>,
                    answer: Result<Tables>, period: SearchPeriod): Outcome
  {
    var disk := ReadCache(files);
    if Covered(pending, cached) then Outcome(Ok(Answer(disk, pending, period)), files, false)
    else if answer.Fail? then Outcome(Fail(answer.failure), files, true)
    else
      var merged := Append(disk, answer.value);
      Outcome(Ok(Answer(merged, pending, period)), DumpAll(files, merged), true)
  }

  /** When every registered ticker was loaded before, the provider is not
      asked, no file is written, and its answer does not matter. */
  lemma ValidCacheSkipsFetch(files: CacheFiles, pending: seq<string>, cached: seq<string>,
                             answer: Result<Tables>, other: Result<Tables>, period: SearchPeriod)
    requires Covered(pending, cached)
    ensures var o := PlanLoad(files, pending, cached, answer, period);
      !o.fetched && o.files == files && o.data.Ok? &&
      o == PlanLoad(files, pending, cached, other, period)
  {
  }

  /** A failed fetch is passed on and leaves the files as they were. */
  lemma FetchErrorPropagates(files: CacheFiles, pending: seq<string>, cached: seq<string>,
                             answer: Result<Tables>, period: SearchPeriod)
    requires !Covered(pending, cached) && answer.Fail?
    ensures var o := PlanLoad(files, pending, cached, answer, period);
      o.fetched && o.data == Fail(answer.failure) && o.files == files
  {
  }

  /** After a fetch the quotes file holds the cached quotes followed by the
      fetched ones, with nothing removed: rows fetched again appear twice. */
  lemma FetchAppendsQuotes(files: CacheFiles, pending: seq<string>, cached: seq<string>,
                           answer: Result<Tables>, period: SearchPeriod)
    requires !Covered(pending, cached) && answer.Ok?
    requires |ReadRows(files.quotes) + answer.value.quotes| > 0
    ensures var o := PlanLoad(files, pending, cached, answer, period);
      ReadRows(o.files.quotes) == ReadRows(files.quotes) + answer.value.quotes
  {
  }

  /** The quotes file only grows: what could be read from it before a load
      is a prefix of what can be read after. */
  lemma QuotesFileGrows(files: CacheFiles, pending: seq<string>, cached: seq<string>,
                        answer: Result<Tables>, period: SearchPeriod)
    ensures var o := PlanLoad(files, pending, cached, answer, period);
      ReadRows(files.quotes) <= ReadRows(o.files.quotes)
  {
    var o := PlanLoad(files, pending, cached, answer, period);
    if !Covered(pending, cached) && answer.Ok? {
      var merged := ReadRows(files.quotes) + answer.value.quotes;
      if |merged| == 0 {
        assert ReadRows(files.quotes) == [];
      } else {
        assert ReadRows(files.quotes) <= merged;
      }
    }
  }

  /** Every returned quote is of a registered ticker and within the period,
      whether it came from the files or from the provider. */
  lemma ReturnedQuotesInScope(files: CacheFiles, pending: seq<string>, cached: seq<string>,
                              answer: Result<Tables>, period: SearchPeriod, x: Record)
    requires var o := PlanLoad(files, pending, cached, answer, period);
      o.data.Ok? && x in o.data.value.quotes
    ensures x.ticker in pending && period.start <= x.date <= period.end
  {
  }

  /** After a load, registering the same tickers again finds them all
      loaded, so the next load does not fetch; tickers loaded earlier stay
      loaded. */
  lemma ReloadIsCovered(cached: seq<string>, pending: seq<string>)
    ensures Covered(pending, Merged(cached, pending))
    ensures Covered(cached, Merged(cached, pending))
  {
  }

  class Cache {
    const inner: Provider
    var tickers: seq<string>
    var cachedTickers: seq<string>
    var files: CacheFiles

    /** `Cache::new` over the files already in the cache directory. */
    constructor (inner: Provider, files: CacheFiles)
      ensures this.inner == inner && this.files == files
      ensures tickers == [] && cachedTickers == []
    {
      this.inner := inner;
      this.files := files;
      tickers, cachedTickers := [], [];
    }

    predicate CacheValid()
      reads this
    {
      Covered(tickers, cachedTickers)
    }

    /** `with_ticker`: appended without removing repeats, and forwarded. */
    method WithTicker(ts: seq<string>, cs: Option<seq<Country>>)
      modifies this, inner
      ensures TickerAdded(this, ts, cs)
    {
      tickers := tickers + ts;
      inner.WithTicker(ts, cs);
    }

    /** `with_currency`: the pair is registered, and forwarded, only when it
        is not registered already. */
    method WithCurrency(from: Currency, to: Currency)
      modifies this, inner
      ensures CurrencyAdded(this, from, to)
    {
      var value := PairName(from, to);
      if value !in tickers {
        tickers := tickers + [value];
        inner.WithCurrency(from, to);
      }
    }

    method Reset()
      modifies this, inner
      ensures WasReset(this)
    {
      inner.Reset();
      cachedTickers := Merged(cachedTickers, tickers);
      tickers := [];
    }

    /** The first part of `load`: the cached frames and the day an update
        fetch would start from. */
    method ReadFiles(period: SearchPeriod) returns (data: ScraperData, start: Date)
      ensures fresh(data)
      ensures data.Frames() == ReadCache(files)
      ensures start == UpdateStart(ReadCache(files).quotes, period)
    {
      data := new ScraperData.Default();
      var quotes := ReadRows(files.quotes);
      if |quotes| > 0 {
        var date := LatestDate(quotes);
        data.ConcatQuotes(quotes);
        data.ConcatSplits(ReadRows(files.splits));
        data.ConcatDividends(ReadRows(files.dividends));
        start := date - 1;
      } else {
        start := period.start;
      }
    }

    /** The last part of `load`: quotes, and dividends when there are any,
        restricted to the registered tickers and the period. */
    method RestrictToRegistered(data: ScraperData, period: SearchPeriod)
      modifies data
      ensures data.Frames() == Answer(old(data.Frames()), tickers, period)
    {
      data.quotes := Restrict(data.quotes, tickers, period);
      if |data.dividends| > 0 {
        data.dividends := Restrict(data.dividends, tickers, period);
      }
    }

    /** `load`: read the files, fetch from the update day to `today` unless
        the cache is valid, append and dump, restrict, and reset. */
    method Load(period: SearchPeriod, today: Date) returns (r: Result<ScraperData>)
      modifies this, inner
      ensures Loaded(this, period, today, r)
    {
      var data, start := ReadFiles(period);
      if !CacheValid() {
        var fetched := inner.Load(SearchPeriod(start, today));
        if fetched.Fail? {
          return Fail(fetched.failure);
        }
        data.ConcatQuotes(fetched.value.quotes);
        data.ConcatDividends(fetched.value.dividends);
        data.ConcatSplits(fetched.value.splits);
        files := DumpAll(files, data.Frames());
      }
      RestrictToRegistered(data, period);
      Reset();
      r := Ok(data);
    }
  }

  twostate predicate TickerAdded(c: Cache, ts: seq<string>, cs: Option<seq<Country>>)
    reads c, c.inner
  {
    && c.tickers == old(c.tickers) + ts
    && c.cachedTickers == old(c.cachedTickers) && c.files == old(c.files)
    && c.inner.tickers == old(c.inner.tickers) + ts
    && c.inner.countries == old(c.inner.countries) + DefaultCountries(ts, cs)
    && c.inner.requests == old(c.inner.requests)
  }

  twostate predicate CurrencyAdded(c: Cache, from: Currency, to: Currency)
    reads c, c.inner
  {
    var value := PairName(from, to);
    && c.tickers == (if value in old(c.tickers) then old(c.tickers) else old(c.tickers) + [value])
    && c.cachedTickers == old(c.cachedTickers) && c.files == old(c.files)
    && c.inner.tickers == (if value in old(c.tickers) then old(c.inner.tickers) else old(c.inner.tickers) + [value])
    && c.inner.countries == (if value in old(c.tickers) then old(c.inner.countries) else old(c.inner.countries) + [Country.NA])
    && c.inner.requests == old(c.inner.requests)
  }

  twostate predicate WasReset(c: Cache)
    reads c, c.inner
  {
    && c.tickers == []
    && c.cachedTickers == Merged(old(c.cachedTickers), old(c.tickers))
    && c.files == old(c.files)
    && c.inner.tickers == [] && c.inner.countries == []
    && c.inner.requests == old(c.inner.requests)
  }

  /** The state after `Cache::load` returned `r`, as `PlanLoad` describes
      it; the inner provider is asked for the days from `UpdateStart` to
      `today`. On success both ticker lists are reset; on failure nothing
      but the provider's request log changes. */
  twostate predicate Loaded(c: Cache, period: SearchPeriod, today: Date, new r: Result<ScraperData>)
    reads c, c.inner, if r.Ok? then {r.value} else {}
  {
    var update := SearchPeriod(UpdateStart(ReadCache(old(c.files)).quotes, period), today);
    var answer := c.inner.respond(old(c.inner.tickers), old(c.inner.countries), update);
    var plan := PlanLoad(old(c.files), old(c.tickers), old(c.cachedTickers), answer, period);
    && c.files == plan.files
    && c.inner.requests == old(c.inner.requests) + (if plan.fetched then [update] else [])
    && (r.Ok? <==> plan.data.Ok?)
    && (r.Ok? ==> fresh(r.value) && r.value.Frames() == plan.data.value)
    && (r.Ok? ==> c.tickers == [] && c.cachedTickers == Merged(old(c.cachedTickers), old(c.tickers)))
    && (r.Ok? ==> c.inner.tickers == [] && c.inner.countries == [])
    && (r.Fail? ==> r.failure == plan.data.failure)
    && (r.Fail? ==> c.tickers == old(c.tickers) && c.cachedTickers == old(c.cachedTickers))
    && (r.Fail? ==> c.inner.tickers == old(c.inner.tickers) && c.inner.countries == old(c.inner.countries))
  }

  /** `Either<L, R>`: a cached or a direct provider; every call goes to the
      active side unchanged. */
  datatype Either = Left(cache: Cache) | Right(provider: Provider) {
    function Footprint(): set<object> {
      if Left? then {cache, cache.inner} else {provider}
    }

    method WithTicker(ts: seq<string>, cs: Option<seq<Country>>)
      modifies Footprint()
      ensures Left? ==> TickerAdded(cache, ts, cs)
      ensures Right? ==> provider.tickers == old(provider.tickers) + ts
      ensures Right? ==> provider.countries == old(provider.countries) + DefaultCountries(ts, cs)
      ensures Right? ==> provider.requests == old(provider.requests)
    {
      if Left? { cache.WithTicker(ts, cs); } else { provider.WithTicker(ts, cs); }
    }

    method WithCurrency(from: Currency, to: Currency)
      modifies Footprint()
      ensures Left? ==> CurrencyAdded(cache, from, to)
      ensures Right? ==> provider.tickers == old(provider.tickers) + [PairName(from, to)]
      ensures Right? ==> provider.countries == old(provider.countries) + [Country.NA]
      ensures Right? ==> provider.requests == old(provider.requests)
    {
      if Left? { cache.WithCurrency(from, to); } else { provider.WithCurrency(from, to); }
    }

    method Reset()
      modifies Footprint()
      ensures Left? ==> WasReset(cache)
      ensures Right? ==> provider.tickers == [] && provider.countries == []
      ensures Right? ==> provider.requests == old(provider.requests)
    {
      if Left? { cache.Reset(); } else { provider.Reset(); }
    }

    /** `today` is used only by the cached side, for its update fetch. */
    method Load(period: SearchPeriod, today: Date) returns (r: Result<ScraperData>)
      modifies Footprint()
      ensures Left? ==> Loaded(cache, period, today, r)
      ensures Right? ==> provider.requests == old(provider.requests) + [period]
      ensures Right? ==> var answer := provider.respond(old(provider.tickers), old(provider.countries), period);
        && (r.Ok? <==> answer.Ok?)
        && (r.Ok? ==> fresh(r.value) && r.value.Frames() == answer.value)
        && (r.Ok? ==> provider.tickers == [] && provider.countries == [])
        && (r.Fail? ==> r.failure == answer.failure)
        && (r.Fail? ==> provider.tickers == old(provider.tickers) && provider.countries == old(provider.countries))
    {
      if Left? { r := cache.Load(period, today); } else { r := provider.Load(period); }
    }
  }
}
