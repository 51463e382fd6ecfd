/** What every broker loader shares (`IBroker`): the ledger projection
    sorted by date (`sanitize`), and the load of a whole directory as the
    concatenation of its files' loads (`load_from_dir`). */
module Broker {
  import opened Wrappers
  import opened Calendar
  import opened Orders

  /** The ledger columns `sanitize` keeps, in its order; an `Order` holds
      exactly these fields in this order. */
  const LedgerColumns: seq<string> :=
    ["Date", "Action", "Ticker", "Qty", "Price", "Amount", "Tax", "Commission", "Country", "Currency", "Type"]

  predicate DateSorted(s: seq<Order>) {
    forall i :: 0 < i < |s| ==> s[i - 1].date <= s[i].date
  }

  function InsertOrder(o: Order, s: seq<Order>): (r: seq<Order>)
    requires DateSorted(s)
    ensures DateSorted(r) && multiset(r) == multiset(s) + multiset{o}
    ensures |r| == |s| + 1 && (r[0] == o || (|s| > 0 && r[0] == s[0]))
    decreases |s|
  {
    if |s| == 0 || o.date <= s[0].date then [o] + s
    else
      assert s == [s[0]] + s[1..];
      [s[0]] + InsertOrder(o, s[1..])
  }

  /** `sanitize`: the rows sorted ascending by date; the same rows, each as
      often as before. */
  function Sanitize(rows: seq<Order>): (r: seq<Order>)
    ensures DateSorted(r) && multiset(r) == multiset(rows)
  {
    if |rows| == 0 then []
    else
      assert rows == [rows[0]] + rows[1..];
      InsertOrder(rows[0], Sanitize(rows[1..]))
  }

  /** Rows already in date order are left as they are. */
  lemma {:induction false} SanitizeSorted(rows: seq<Order>)
    requires DateSorted(rows)
    ensures Sanitize(rows) == rows
  {
    if |rows| > 0 {
      SanitizeSorted(rows[1..]);
    }
  }

  /** Sorting twice is sorting once. */
  lemma SanitizeIdempotent(rows: seq<Order>)
    ensures Sanitize(Sanitize(rows)) == Sanitize(rows)
  {
    SanitizeSorted(Sanitize(rows));
  }

  /** The ledger rows of a loader's rows, in order, or the first row's
      failure (a panic inside a column mapping, a failed cast). */
  function MapRows<R>(rows: seq<R>, f: R -> Result<Order>): (r: Result<seq<Order>>)
    ensures r.Ok? <==> forall i :: 0 <= i < |rows| ==> f(rows[i]).Ok?
    ensures r.Ok? ==> |r.value| == |rows| && forall i :: 0 <= i < |rows| ==> f(rows[i]) == Ok(r.value[i])
    ensures r.Fail? ==> exists i :: 0 <= i < |rows| && f(rows[i]) == Fail(r.failure)
  {
    if |rows| == 0 then Ok([])
    else
      var first := f(rows[0]);
      if first.Fail? then Fail(first.failure)
      else
        var rest := MapRows(rows[1..], f);
        if rest.Fail? then
          assert exists i :: 0 <= i < |rows[1..]| && f(rows[1..][i]) == Fail(rest.failure);
          Fail(rest.failure)
        else
          assert forall i :: 1 <= i < |rows| ==> rows[i] == rows[1..][i - 1];
          Ok([first.value] + rest.value)
  }

  /** Every sanitized row of a successful conversion is the conversion of
      one of the loader's rows. */
  lemma SanitizedFrom<R>(rows: seq<R>, f: R -> Result<Order>)
    requires MapRows(rows, f).Ok?
    ensures forall o :: o in Sanitize(MapRows(rows, f).value) ==>
      exists k :: 0 <= k < |rows| && f(rows[k]) == Ok(o)
  {
    var converted := MapRows(rows, f).value;
    forall o | o in Sanitize(converted)
      ensures exists k :: 0 <= k < |rows| && f(rows[k]) == Ok(o)
    {
      assert o in multiset(Sanitize(converted));
      assert o in converted;
      var k :| 0 <= k < |converted| && converted[k] == o;
      assert f(rows[k]) == Ok(o);
    }
  }

  // ------------------------------------------------------------ load_from_dir

  /** The loads of `files` in order, concatenated; the first failing load's
      error ends it. */
  function LoadAll<F>(files: seq<F>, load: F -> Result<seq<Order>>): (r: Result<seq<Order>>)
    ensures |files| == 0 ==> r == Ok([])
  {
    if |files| == 0 then Ok([])
    else
      var before := LoadAll(files[..|files| - 1], load);
      if before.Fail? then before
      else
        var last := load(files[|files| - 1]);
        if last.Fail? then Fail(last.failure) else Ok(before.value + last.value)
  }

  function Flatten(frames: seq<seq<Order>>): seq<Order> {
    if |frames| == 0 then [] else Flatten(frames[..|frames| - 1]) + frames[|frames| - 1]
  }

  function LoadValue<F>(load: F -> Result<seq<Order>>, f: F): seq<Order>
    requires load(f).Ok?
  {
    load(f).value
  }

  /** The directory loads when every file loads, and then it is the files'
      rows in file order. */
  lemma {:induction false} LoadAllOk<F>(files: seq<F>, load: F -> Result<seq<Order>>)
    ensures LoadAll(files, load).Ok? <==> forall i :: 0 <= i < |files| ==> load(files[i]).Ok?
    ensures LoadAll(files, load).Ok? ==>
      LoadAll(files, load).value == Flatten(seq(|files|, i requires 0 <= i < |files| && load(files[i]).Ok? => LoadValue(load, files[i])))
    decreases |files|
  {
    if |files| > 0 {
      var init := files[..|files| - 1];
      LoadAllOk(init, load);
      assert forall i :: 0 <= i < |init| ==> init[i] == files[i];
      if LoadAll(files, load).Ok? {
        var whole := seq(|files|, i requires 0 <= i < |files| && load(files[i]).Ok? => LoadValue(load, files[i]));
        var part := seq(|init|, i requires 0 <= i < |init| && load(init[i]).Ok? => LoadValue(load, init[i]));
        assert whole[..|whole| - 1] == part;
      }
    }
  }

  /** A failing directory load reports the error of the first file that
      fails to load. */
  lemma {:induction false} LoadAllFail<F>(files: seq<F>, load: F -> Result<seq<Order>>)
    requires LoadAll(files, load).Fail?
    ensures exists i :: 0 <= i < |files| && load(files[i]) == Fail(LoadAll(files, load).failure)
                        && forall j :: 0 <= j < i ==> load(files[j]).Ok?
    decreases |files|
  {
    var init := files[..|files| - 1];
    assert forall i :: 0 <= i < |init| ==> init[i] == files[i];
    if LoadAll(init, load).Fail? {
      LoadAllFail(init, load);
      var i :| 0 <= i < |init| && load(init[i]) == Fail(LoadAll(init, load).failure)
               && forall j :: 0 <= j < i ==> load(init[j]).Ok?;
      assert load(files[i]) == Fail(LoadAll(files, load).failure);
    } else {
      LoadAllOk(init, load);
      assert load(files[|files| - 1]) == Fail(LoadAll(files, load).failure);
    }
  }

  /** `load_from_dir`: each file's load appended to the frame in turn,
      returning at the first error. */
  method LoadFromDir<F>(files: seq<F>, load: F -> Result<seq<Order>>) returns (r: Result<seq<Order>>)
    ensures r == LoadAll(files, load)
  {
    var frame: seq<Order> := [];
    var i := 0;
    while i < |files|
      invariant 0 <= i <= |files|
      invariant LoadAll(files[..i], load) == Ok(frame)
    {
      assert files[..i + 1][..i] == files[..i];
      var loaded := load(files[i]);
      if loaded.Fail? {
        LoadPrefixFails(files, i + 1, load);
        return Fail(loaded.failure);
      }
      frame := frame + loaded.value;
      i := i + 1;
    }
    assert files[..i] == files;
    r := Ok(frame);
  }

  /** Once a prefix of the files fails to load, so does the whole list,
      with the same error. */
  lemma {:induction false} LoadPrefixFails<F>(files: seq<F>, n: nat, load: F -> Result<seq<Order>>)
    requires n <= |files| && LoadAll(files[..n], load).Fail?
    ensures LoadAll(files, load) == LoadAll(files[..n], load)
    decreases |files| - n
  {
    if n < |files| {
      assert files[..n + 1][..n] == files[..n];
      LoadPrefixFails(files, n + 1, load);
    } else {
      assert files[..n] == files;
    }
  }
}
