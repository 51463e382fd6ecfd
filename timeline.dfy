/** The summary over time (`Timeline::summary`): one summary per snapshot
    date, from the first order's date to the target date in steps of a
    fixed number of days, each computed from the orders up to that date
    (and every split), the whole sorted by date. */
module Timeline {
  import opened Wrappers
  import opened Calendar
  import opened Text
  import opened Series
  import opened Schema
  import opened Orders
  import opened Summary

  // ------------------------------------------------------------ the target date

  /** The fields of the `YYYY-MM-DD` form: four digits, two and two. */
  predicate IsoFields(f: seq<string>) {
    |f| == 3 && |f[0]| == 4 && |f[1]| == 2 && |f[2]| == 2
    && AllDigits(f[0]) && AllDigits(f[1]) && AllDigits(f[2])
  }

  /** The year, month and day the fields spell. */
  function FieldsCivil(f: seq<string>): Civil
    requires IsoFields(f)
  {
    Civil(DecimalValue(f[0]), DecimalValue(f[1]), DecimalValue(f[2]))
  }

  /** `date.parse::<NaiveDate>()` for the `YYYY-MM-DD` form: it succeeds
      exactly on a four-digit year, two-digit month and two-digit day, split
      by dashes, that name a day of the calendar, and then gives the date
      whose year, month and day those are. */
  function ParseIsoDate(s: string): (r: Result<Date>)
    ensures r.Ok? <==> IsoFields(SplitOn(s, '-')) && ValidCivil(FieldsCivil(SplitOn(s, '-')))
    ensures r.Ok? ==> CivilFromDays(r.value) == FieldsCivil(SplitOn(s, '-'))
  {
    var f := SplitOn(s, '-');
    if !IsoFields(f) then
      Fail(Error("input contains invalid characters"))
    else
      var c := FieldsCivil(f);
      if ValidCivil(c) then
        CivilRoundTrip(c);
        Ok(DaysFromCivil(c))
      else Fail(Error("input is out of range"))
  }

  /** The date of the program's example, 2024-09-27, is day 19993. */
  lemma ParseExampleDate()
    ensures ParseIsoDate("2024-09-27") == Ok(19993)
  {
    var f := SplitOn("2024-09-27", '-');
    ExampleDateFields();
    ExampleDateValues();
    assert FieldsCivil(f) == Civil(2024, 9, 27);
    ExampleDateDays();
  }

  lemma ExampleDateValues()
    ensures IsoFields(["2024", "09", "27"])
    ensures DecimalValue("2024") == 2024 && DecimalValue("09") == 9 && DecimalValue("27") == 27
  {
    assert "2024"[..3] == "202" && "202"[..2] == "20" && "20"[..1] == "2";
    assert "09"[..1] == "0" && "27"[..1] == "2";
  }

  lemma ExampleDateDays()
    ensures ValidCivil(Civil(2024, 9, 27)) && DaysFromCivil(Civil(2024, 9, 27)) == 19993
  {
  }

  lemma ExampleDateFields()
    ensures SplitOn("2024-09-27", '-') == ["2024", "09", "27"]
  {
    ExampleDateSpelled();
    SplitJoin(["2024", "09", "27"], '-');
  }

  lemma ExampleDateSpelled()
    ensures JoinWith(["2024", "09", "27"], '-') == "2024-09-27"
  {
  }

  /** The last snapshot date: the given date, or today. */
  function TargetDate(date: Option<string>, today: Date): (r: Result<Date>)
    ensures date.None? ==> r == Ok(today)
  {
    if date.Some? then ParseIsoDate(date.value) else Ok(today)
  }

  // ------------------------------------------------------------ the orders of a snapshot

  /** The snapshot filter: a split of any date, or any order up to `current`. */
  predicate InSnapshot(o: Order, current: Date) {
    o.action == ActionName(Action.Split) || o.date <= current
  }

  function SnapshotOrders(orders: seq<Order>, current: Date): (r: seq<Order>)
    ensures forall o :: o in r <==> o in orders && InSnapshot(o, current)
  {
    Keep(orders, (o: Order) => InSnapshot(o, current))
  }

  /** A later snapshot sees every order an earlier one sees. */
  lemma SnapshotsGrow(orders: seq<Order>, d1: Date, d2: Date)
    requires d1 <= d2
    ensures forall o :: o in SnapshotOrders(orders, d1) ==> o in SnapshotOrders(orders, d2)
  {
  }

  // ------------------------------------------------------------ the snapshot dates

  /** `current_date += interval_days; current_date = current_date.min(date)`. */
  function Next(current: Date, target: Date, k: nat): Date {
    if current + k < target then current + k else target
  }

  /** What the stepping loop counts down: the days left, or 1 when the first
      date is already past the target. */
  function Remaining(current: Date, target: Date): nat {
    if current < target then target - current + 1 else if current > target then 1 else 0
  }

  /** The snapshot dates from `current` on: `current`, and unless it is the
      target, the dates from the next step on. The stepping stops only at
      the target, so a zero step from before it is excluded. */
  function Steps(current: Date, target: Date, k: nat): (r: seq<Date>)
    requires k > 0 || current >= target
    ensures |r| >= 1 && r[0] == current && r[|r| - 1] == target
    ensures forall i :: 0 <= i < |r| - 1 ==> r[i] != target && r[i + 1] == Next(r[i], target, k)
    decreases Remaining(current, target)
  {
    if current == target then [current]
    else
      var rest := Steps(Next(current, target, k), target, k);
      [current] + rest
  }

  /** Dates between `first` and `target`, rising strictly, by `k` each step
      but the last. */
  predicate RisingBy(r: seq<Date>, first: Date, target: Date, k: nat) {
    && (forall i :: 0 <= i < |r| ==> first <= r[i] <= target)
    && (forall i :: 0 < i < |r| ==> r[i - 1] < r[i])
    && (forall i :: 0 < i < |r| - 1 ==> r[i] == r[i - 1] + k)
  }

  /** From a date not past the target the dates rise strictly, by `k` each
      step but the last, and stay between the first date and the target. */
  lemma {:induction false} StepsRise(current: Date, target: Date, k: nat)
    requires k > 0 && current <= target
    ensures RisingBy(Steps(current, target, k), current, target, k)
    decreases Remaining(current, target)
  {
    if current < target {
      var next := Next(current, target, k);
      StepsRise(next, target, k);
      var rest := Steps(next, target, k);
      var r := Steps(current, target, k);
      assert r == [current] + rest;
      assert forall i :: 0 < i < |r| ==> r[i] == rest[i - 1];
    }
  }

  /** From a date past the target there are two snapshots: that date, then
      the target. */
  lemma StepsPastTarget(current: Date, target: Date, k: nat)
    requires current > target
    ensures Steps(current, target, k) == [current, target]
  {
  }

  /** The number of snapshots: with `n` of them, `n - 1` steps of `k` days
      reach the target and `n - 2` do not. */
  lemma {:induction false} StepsCount(current: Date, target: Date, k: nat)
    requires k > 0 && current < target
    ensures var n := |Steps(current, target, k)|;
      (n - 2) * k < target - current <= (n - 1) * k
    decreases Remaining(current, target)
  {
    var next := Next(current, target, k);
    var n := |Steps(current, target, k)|;
    if next < target {
      StepsCount(next, target, k);
      var m := |Steps(next, target, k)|;
      assert n == m + 1;
      assert (n - 2) * k == (m - 2) * k + k && (n - 1) * k == (m - 1) * k + k;
    }
  }

  // ------------------------------------------------------------ the snapshots

  /** A row of the result: one summary and its date. */
  datatype Snapshot = Snapshot(date: Date, totals: Totals)

  /** The summary of each snapshot's orders at its date (the pipeline from
      the orders to `Summary::finish`), or its error. */
  type Pipeline = (seq<Order>, Date) -> Result<Totals>

  /** The snapshots at `dates`, in order, stopping at the first error. */
  function Run(orders: seq<Order>, dates: seq<Date>, pipeline: Pipeline): (r: Result<seq<Snapshot>>)
    ensures r.Ok? ==> |r.value| == |dates|
  {
    if |dates| == 0 then Ok([])
    else
      var s := pipeline(SnapshotOrders(orders, dates[0]), dates[0]);
      if s.Fail? then Fail(s.failure)
      else
        var rest := Run(orders, dates[1..], pipeline);
        if rest.Fail? then rest else Ok([Snapshot(dates[0], s.value)] + rest.value)
  }

  /** Every snapshot of a successful run is the summary, at its own date,
      of the orders that date sees. */
  lemma {:induction false} RunSnapshots(orders: seq<Order>, dates: seq<Date>, pipeline: Pipeline)
    requires Run(orders, dates, pipeline).Ok?
    ensures var r := Run(orders, dates, pipeline).value;
      forall i :: 0 <= i < |dates| ==>
        && r[i].date == dates[i]
        && pipeline(SnapshotOrders(orders, dates[i]), dates[i]) == Ok(r[i].totals)
    decreases |dates|
  {
    if |dates| > 0 {
      RunSnapshots(orders, dates[1..], pipeline);
    }
  }

  /** The results gathered so far followed by those still to come. */
  function Prepend(done: seq<Snapshot>, rest: Result<seq<Snapshot>>): Result<seq<Snapshot>> {
    if rest.Fail? then rest else Ok(done + rest.value)
  }

  // ------------------------------------------------------------ sorting by date

  predicate SortedByDate(s: seq<Snapshot>) {
    forall i :: 0 < i < |s| ==> s[i - 1].date <= s[i].date
  }

  function InsertByDate(x: Snapshot, s: seq<Snapshot>): (r: seq<Snapshot>)
    requires SortedByDate(s)
    ensures SortedByDate(r) && multiset(r) == multiset(s) + multiset{x}
    ensures |r| == |s| + 1 && (r[0] == x || (|s| > 0 && r[0] == s[0]))
    decreases |s|
  {
    if |s| == 0 || x.date <= s[0].date then [x] + s
    else
      assert s == [s[0]] + s[1..];
      [s[0]] + InsertByDate(x, s[1..])
  }

  /** `sort([Date])`: the snapshots ordered by date. */
  function SortByDate(s: seq<Snapshot>): (r: seq<Snapshot>)
    ensures SortedByDate(r) && multiset(r) == multiset(s)
  {
    if |s| == 0 then []
    else
      assert s == [s[0]] + s[1..];
      InsertByDate(s[0], SortByDate(s[1..]))
  }

  /** Snapshots already in date order are left as they are. */
  lemma {:induction false} SortSorted(s: seq<Snapshot>)
    requires SortedByDate(s)
    ensures SortByDate(s) == s
  {
    if |s| > 0 {
      SortSorted(s[1..]);
    }
  }

  // ------------------------------------------------------------ the timeline

  /** The result of `summary`: the target date's error, the missing first
      date of an empty ledger, the first failing snapshot's error, or the
      snapshots sorted by date. */
  function TimelineResult(orders: seq<Order>, k: nat, date: Option<string>, today: Date, pipeline: Pipeline)
    : Result<seq<Snapshot>>
    requires Terminates(orders, k, date, today)
  {
    var target := TargetDate(date, today);
    if target.Fail? then Fail(target.failure)
    else if |orders| == 0 then Fail(Panic("no first date in an empty ledger"))
    else
      var r := Run(orders, Steps(orders[0].date, target.value, k), pipeline);
      if r.Fail? then r else Ok(SortByDate(r.value))
  }

  /** The loop ends: it steps forward, or it starts at or after the target
      (or stops before the loop). A zero step from before the target would
      repeat the same snapshot forever. */
  predicate Terminates(orders: seq<Order>, k: nat, date: Option<string>, today: Date) {
    k > 0 || TargetDate(date, today).Fail? || |orders| == 0 || orders[0].date >= TargetDate(date, today).value
  }

  /** The run from `current` on: the first snapshot's error, or its snapshot
      followed by the run from the next date (none after the target). */
  lemma RunFirst(orders: seq<Order>, current: Date, last: Date, k: nat, pipeline: Pipeline)
    requires k > 0 || current >= last
    ensures var s := pipeline(SnapshotOrders(orders, current), current);
      var run := Run(orders, Steps(current, last, k), pipeline);
      && (s.Fail? ==> run == Fail(s.failure))
      && (s.Ok? && current == last ==> run == Ok([Snapshot(current, s.value)]))
      && (s.Ok? && current != last ==>
            run == Prepend([Snapshot(current, s.value)], Run(orders, Steps(Next(current, last, k), last, k), pipeline)))
  {
    var dates := Steps(current, last, k);
    if current != last {
      assert dates[1..] == Steps(Next(current, last, k), last, k);
    } else {
      assert dates[1..] == [];
      var s := pipeline(SnapshotOrders(orders, current), current);
      if s.Ok? {
        assert [Snapshot(current, s.value)] + [] == [Snapshot(current, s.value)];
      }
    }
  }

  lemma PrependPrepend(a: seq<Snapshot>, b: seq<Snapshot>, rest: Result<seq<Snapshot>>)
    ensures Prepend(a, Prepend(b, rest)) == Prepend(a + b, rest)
  {
    if rest.Ok? {
      assert a + (b + rest.value) == (a + b) + rest.value;
    }
  }

  /** The stepping loop of `summary`: a snapshot at `first`, then at each
      next date up to and including `last`, returning the first error. */
  method RunSteps(orders: seq<Order>, first: Date, last: Date, k: nat, pipeline: Pipeline)
    returns (r: Result<seq<Snapshot>>)
    requires k > 0 || first >= last
    ensures r == Run(orders, Steps(first, last, k), pipeline)
  {
    var current := first;
    ghost var all := Run(orders, Steps(current, last, k), pipeline);
    var result: seq<Snapshot> := [];
    assert Prepend(result, all) == all by {
      if all.Ok? {
        assert result + all.value == all.value;
      }
    }
    while true
      invariant k > 0 || current >= last
      invariant Prepend(result, Run(orders, Steps(current, last, k), pipeline)) == all
      decreases Remaining(current, last)
    {
      var s := pipeline(SnapshotOrders(orders, current), current);
      RunFirst(orders, current, last, k, pipeline);
      if s.Fail? {
        return Fail(s.failure);
      }
      PrependPrepend(result, [Snapshot(current, s.value)], Run(orders, Steps(Next(current, last, k), last, k), pipeline));
      result := result + [Snapshot(current, s.value)];
      if current == last {
        break;
      }
      current := Next(current, last, k);
    }
    r := Ok(result);
  }

  /** `Timeline::summary`. */
  method SummaryOverTime(orders: seq<Order>, intervalDays: nat, date: Option<string>, today: Date,
                         pipeline: Pipeline) returns (r: Result<seq<Snapshot>>)
    requires Terminates(orders, intervalDays, date, today)
    ensures r == TimelineResult(orders, intervalDays, date, today, pipeline)
  {
    var target := TargetDate(date, today);
    if target.Fail? {
      return Fail(target.failure);
    }
    if |orders| == 0 {
      return Fail(Panic("no first date in an empty ledger"));
    }
    var snapshots := RunSteps(orders, orders[0].date, target.value, intervalDays, pipeline);
    if snapshots.Fail? {
      return snapshots;
    }
    r := Ok(SortByDate(snapshots.value));
  }

  /** The sorted snapshots of a successful run: from a first date not past
      the target, the snapshot dates in their own (rising) order; from one
      past it, the target and then that date. */
  lemma SortedSnapshots(orders: seq<Order>, first: Date, last: Date, k: nat, pipeline: Pipeline)
    requires k > 0 || first >= last
    requires Run(orders, Steps(first, last, k), pipeline).Ok?
    ensures var r := SortByDate(Run(orders, Steps(first, last, k), pipeline).value);
      && (first <= last ==> |r| == |Steps(first, last, k)| &&
                            forall i :: 0 <= i < |r| ==> r[i].date == Steps(first, last, k)[i])
      && (first > last ==> |r| == 2 && r[0].date == last && r[1].date == first)
  {
    var dates := Steps(first, last, k);
    var run := Run(orders, dates, pipeline).value;
    RunSnapshots(orders, dates, pipeline);
    if first <= last {
      if k > 0 {
        StepsRise(first, last, k);
      }
      assert SortedByDate(run);
      SortSorted(run);
    } else {
      StepsPastTarget(first, last, k);
      assert run == [run[0], run[1]];
      assert SortByDate([run[1]]) == [run[1]];
      assert SortByDate(run) == InsertByDate(run[0], [run[1]]);
    }
  }

  /** The dates of a successful timeline, by the first order's date and the
      target date. */
  lemma TimelineDates(orders: seq<Order>, k: nat, date: Option<string>, today: Date, pipeline: Pipeline)
    requires Terminates(orders, k, date, today)
    requires TimelineResult(orders, k, date, today, pipeline).Ok?
    ensures var r := TimelineResult(orders, k, date, today, pipeline).value;
      var first, last := orders[0].date, TargetDate(date, today).value;
      && (first <= last ==> |r| == |Steps(first, last, k)| &&
                            forall i :: 0 <= i < |r| ==> r[i].date == Steps(first, last, k)[i])
      && (first > last ==> |r| == 2 && r[0].date == last && r[1].date == first)
  {
    SortedSnapshots(orders, orders[0].date, TargetDate(date, today).value, k, pipeline);
  }
}
