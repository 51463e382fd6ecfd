/** The date and period types of the first scraper interface: a `Date`
    of three unsigned fields parsed from "Y-M-D" with no calendar check,
    printed as a timestamp, and a `Time` span printed as count and unit. */
module LegacyDate {
  import opened Wrappers
  import opened Text
  import opened Scraper

  const MaxU8: nat := 0xFF

  /** `Date { day: u8, month: u8, year: u32 }`. */
  datatype Date = Date(day: nat, month: nat, year: nat)

  predicate Fits(d: Date) {
    d.day <= MaxU8 && d.month <= MaxU8 && d.year <= MaxU32
  }

  /** `Date::from_str`: exactly three '-'-separated fields, each an unsigned
      integer of its width; any value in range is accepted, whether or not
      it names a day of the calendar. */
  function ParseDate(s: string): (r: Result<Date>)
    ensures r.Ok? ==> Fits(r.value)
    ensures |SplitOn(s, '-')| != 3 ==> r == Fail(Error("Wrong format"))
    ensures |SplitOn(s, '-')| == 3 ==>
      var f := SplitOn(s, '-');
      (r.Ok? <==> ParseUnsigned(f[2], MaxU8).Some? && ParseUnsigned(f[1], MaxU8).Some?
                  && ParseUnsigned(f[0], MaxU32).Some?)
  {
    var fields := SplitOn(s, '-');
    if |fields| != 3 then Fail(Error("Wrong format"))
    else
      var day := ParseUnsigned(fields[2], MaxU8);
      var month := ParseUnsigned(fields[1], MaxU8);
      var year := ParseUnsigned(fields[0], MaxU32);
      if day.None? then Fail(Error("invalid day: " + fields[2]))
      else if month.None? then Fail(Error("invalid month: " + fields[1]))
      else if year.None? then Fail(Error("invalid year: " + fields[0]))
      else Ok(Date(day.value, month.value, year.value))
  }

  /** The date part of `Display`: `{:04}-{:02}-{:02}`. */
  function DatePart(d: Date): string {
    PadNat(d.year, 4) + "-" + PadNat(d.month, 2) + "-" + PadNat(d.day, 2)
  }

  /** `Display`: the date part, then a zero time and offset. */
  function DateText(d: Date): (r: string)
    ensures r == DatePart(d) + " 00:00:00 +00:00:00"
  {
    DatePart(d) + " 00:00:00 +00:00:00"
  }

  lemma DigitsHaveNoDash(s: string)
    requires AllDigits(s)
    ensures '-' !in s
  {
  }

  /** Parsing the printed date part gives the date back, whatever the
      year's width. */
  lemma ParseDatePart(d: Date)
    requires Fits(d)
    ensures ParseDate(DatePart(d)) == Ok(d)
  {
    var y, m, dd := PadNat(d.year, 4), PadNat(d.month, 2), PadNat(d.day, 2);
    DigitsHaveNoDash(y);
    DigitsHaveNoDash(m);
    DigitsHaveNoDash(dd);
    assert JoinWith([y, m, dd], '-') == DatePart(d) by {
      assert JoinWith([m, dd], '-') == m + "-" + dd by {
        assert [m, dd][1..] == [dd];
      }
      assert [y, m, dd][1..] == [m, dd];
    }
    SplitJoin([y, m, dd], '-');
    ParsePadded(d.year, 4, MaxU32);
    ParsePadded(d.month, 2, MaxU8);
    ParsePadded(d.day, 2, MaxU8);
  }

  /** The number of decimal digits of small numbers. */
  lemma {:induction false} NatLength(n: nat)
    ensures n < 10 ==> |NatToString(n)| == 1
    ensures n < 100 ==> |NatToString(n)| <= 2
    ensures n < 10000 ==> |NatToString(n)| <= 4
  {
    if n >= 10 {
      NatLength(n / 10);
    }
  }

  /** For a four-digit year and two-digit month and day the first ten
      characters of `Display` are the date part, and they parse back to the
      same date. */
  lemma DisplayRoundTrip(d: Date)
    requires Fits(d) && d.year < 10000 && d.month < 100 && d.day < 100
    ensures |DateText(d)| >= 10 && ParseDate(DateText(d)[..10]) == Ok(d)
  {
    NatLength(d.year);
    NatLength(d.month);
    NatLength(d.day);
    assert |DatePart(d)| == 10;
    assert DateText(d)[..10] == DatePart(d);
    ParseDatePart(d);
  }

  /** The whole `Display` string is not itself accepted: its last field
      carries the time and offset. */
  lemma DisplayIsNotParsed(d: Date)
    requires Fits(d)
    ensures ParseDate(DateText(d)).Fail?
  {
    var y, m, dd := PadNat(d.year, 4), PadNat(d.month, 2), PadNat(d.day, 2);
    var last := dd + " 00:00:00 +00:00:00";
    DigitsHaveNoDash(y);
    DigitsHaveNoDash(m);
    assert '-' !in last by {
      DigitsHaveNoDash(dd);
    }
    assert JoinWith([y, m, last], '-') == DateText(d) by {
      assert JoinWith([m, last], '-') == m + "-" + last by {
        assert [m, last][1..] == [last];
      }
      assert [y, m, last][1..] == [m, last];
    }
    SplitJoin([y, m, last], '-');
    assert last[|dd|] == ' ' && !IsDigit(last[|dd|]);
    assert IsDigit(last[0]);
  }

  /** `Time`; each count is a `u32`. */
  datatype Time = Day(n: nat) | Week(n: nat) | Month(n: nat) | Year(n: nat)

  /** `Display`: "{n}d", "{n}w", "{n}mo" or "{n}y". */
  function TimeText(t: Time): string {
    match t
    case Day(n) => NatToString(n) + "d"
    case Week(n) => NatToString(n) + "w"
    case Month(n) => NatToString(n) + "mo"
    case Year(n) => NatToString(n) + "y"
  }

  function AsInterval(t: Time): Interval {
    match t
    case Day(n) => Interval.Day(n)
    case Week(n) => Interval.Week(n)
    case Month(n) => Interval.Month(n)
    case Year(n) => Interval.Year(n)
  }

  /** `Time` prints as the newer `Interval` does, so distinct spans print
      differently. */
  lemma TimeTextAgrees(t: Time, u: Time)
    ensures TimeText(t) == IntervalText(AsInterval(t))
    ensures TimeText(t) == TimeText(u) ==> t == u
  {
    if TimeText(t) == TimeText(u) {
      IntervalTextInjective(AsInterval(t), AsInterval(u));
    }
  }
}
