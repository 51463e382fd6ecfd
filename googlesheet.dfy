/** The upload of a table to a spreadsheet: column letters, A1-style cell
    names and ranges, the column-major layout of the values, and the
    position cursor that moves right after each upload. The service's
    answers to the clear and update requests are inputs. */
module GoogleSheet {
  import opened Wrappers
  import opened Text
  import opened Scraper

  // ------------------------------------------------------------ column letters

  predicate IsLetter(ch: char) { 'A' <= ch <= 'Z' }

  predicate AllLetters(s: string) {
    forall k :: 0 <= k < |s| ==> IsLetter(s[k])
  }

  /** The letter of a digit of base 26: 0 is 'A'. */
  function Letter(d: nat): (ch: char)
    requires d < 26
    ensures IsLetter(ch) && ch as int - 'A' as int == d
  {
    ('A' as int + d) as char
  }

  /** `char::from_u32`: the character of a Unicode scalar value. */
  function FromU32(k: nat): Option<char> {
    if k < 0xD800 || 0xE000 <= k < 0x11_0000 then Some(k as char) else None
  }

  /** `column_name` as written: one letter for columns 1 to 26, otherwise
      the character 'A' + (n - 1) / 26 - 1 followed by 'A' + (n - 1) % 26.
      Column 0 underflows; a first character that is no scalar value makes
      the `unwrap` panic. */
  function ColumnNameAsWritten(n: nat): (r: Result<string>)
    requires n <= MaxU32
    ensures n == 0 ==> r.Fail?
    ensures r.Ok? ==> 1 <= |r.value| <= 2 && IsLetter(r.value[|r.value| - 1])
  {
    if n == 0 then Fail(Panic("attempt to subtract with overflow"))
    else
      var c := n - 1;
      if c < 26 then Ok([Letter(c)])
      else
        var first := FromU32('A' as int + c / 26 - 1);
        if first.None? then Fail(Panic("called `Option::unwrap()` on a `None` value"))
        else Ok([first.value, Letter(c % 26)])
  }

  /** The number a column name stands for, read as bijective base 26:
      "A" is 1, "Z" 26, "AA" 27. */
  function ColumnNumber(s: string): nat
    requires AllLetters(s)
    decreases |s|
  {
    if |s| == 0 then 0
    else ColumnNumber(s[..|s| - 1]) * 26 + (s[|s| - 1] as int - 'A' as int + 1)
  }

  lemma ColumnNumberSnoc(s: string, d: nat)
    requires AllLetters(s) && d < 26
    ensures AllLetters(s + [Letter(d)])
    ensures ColumnNumber(s + [Letter(d)]) == ColumnNumber(s) * 26 + d + 1
  {
    assert (s + [Letter(d)])[..|s|] == s;
  }

  /** The column name meant: bijective base 26 in capital letters, so
      columns past "ZZ" continue with "AAA". */
  function ColumnName(n: nat): (r: string)
    requires n >= 1
    ensures |r| >= 1 && AllLetters(r)
    ensures ColumnNumber(r) == n
    decreases n
  {
    if n <= 26 then
      ColumnNumberSnoc([], n - 1);
      [Letter(n - 1)]
    else
      var prefix := ColumnName((n - 1) / 26);
      ColumnNumberSnoc(prefix, (n - 1) % 26);
      prefix + [Letter((n - 1) % 26)]
  }

  /** Every name of capital letters is the name of its number: the names
      are exactly the non-empty words of capitals. */
  lemma {:induction false} ColumnNameOfNumber(s: string)
    requires |s| >= 1 && AllLetters(s)
    ensures ColumnNumber(s) >= 1 && ColumnName(ColumnNumber(s)) == s
    decreases |s|
  {
    var init, d := s[..|s| - 1], s[|s| - 1] as int - 'A' as int;
    assert s == init + [Letter(d)];
    ColumnNumberSnoc(init, d);
    var n := ColumnNumber(s);
    if |init| == 0 {
      assert n == d + 1;
    } else {
      ColumnNameOfNumber(init);
      var m := ColumnNumber(init);
      assert n - 1 == m * 26 + d;
      assert (n - 1) / 26 == m && (n - 1) % 26 == d;
    }
  }

  /** Distinct columns get distinct names. */
  lemma ColumnNameInjective(a: nat, b: nat)
    requires a >= 1 && b >= 1 && ColumnName(a) == ColumnName(b)
    ensures a == b
  {
    assert ColumnNumber(ColumnName(a)) == ColumnNumber(ColumnName(b));
  }

  /** Up to column 702 ("ZZ") the code computes the intended name. */
  lemma ColumnNameAgrees(n: nat)
    requires 1 <= n <= 702
    ensures ColumnNameAsWritten(n) == Ok(ColumnName(n))
  {
    if n > 26 {
      var c := n - 1;
      var m := c / 26;
      assert 1 <= m <= 26;
      assert ColumnName(m) == [Letter(m - 1)];
      assert ColumnName(n) == [Letter(m - 1), Letter(c % 26)];
      assert FromU32('A' as int + m - 1) == Some(Letter(m - 1));
    }
  }

  /** The names the unit test expects of the code. */
  lemma ColumnNameExamples()
    ensures ColumnNameAsWritten(26) == Ok("Z")
    ensures ColumnNameAsWritten(27) == Ok("AA")
    ensures ColumnNameAsWritten(28) == Ok("AB")
    ensures ColumnNameAsWritten(53) == Ok("BA")
    ensures ColumnNameAsWritten(79) == Ok("CA")
  {
    ColumnNameAgrees(26);
    ColumnNameAgrees(27);
    ColumnNameAgrees(28);
    ColumnNameAgrees(53);
    ColumnNameAgrees(79);
  }

  /** Column 703 is named "[A" by the code, not "AAA": the first character
      runs past 'Z'. */
  lemma ColumnNameBeyondZZ()
    ensures ColumnNameAsWritten(703) == Ok("[A")
    ensures !AllLetters(ColumnNameAsWritten(703).value)
    ensures ColumnName(703) == "AAA"
  {
    assert ColumnName(27) == "AA";
    assert ColumnName(703) == ColumnName(27) + [Letter(0)];
    assert ColumnNameAsWritten(703).value[0] == '[';
  }

  // ------------------------------------------------------------ cells and ranges

  /** The characters a column name is made of, as written or as meant: 'A'
      and above, so neither a digit nor ':'. */
  predicate NameChars(s: string) {
    forall k :: 0 <= k < |s| ==> 'A' <= s[k]
  }

  /** The code's name is made of such characters where it succeeds. */
  lemma ColumnNameAsWrittenChars(n: nat)
    requires n <= MaxU32 && ColumnNameAsWritten(n).Ok?
    ensures NameChars(ColumnNameAsWritten(n).value)
  {
    var c := n - 1;
    if c >= 26 {
      var k := 'A' as int + c / 26 - 1;
      assert FromU32(k) == Some(k as char);
      assert (k as char) as int == k;
    }
  }

  /** Where the code's name succeeds, distinct columns get distinct names:
      the second character is the column's remainder by 26 and the first
      its quotient. */
  lemma ColumnNameAsWrittenInjective(a: nat, b: nat)
    requires a <= MaxU32 && b <= MaxU32
    requires ColumnNameAsWritten(a).Ok? && ColumnNameAsWritten(a) == ColumnNameAsWritten(b)
    ensures a == b
  {
    var ca, cb := a - 1, b - 1;
    var x := ColumnNameAsWritten(a).value;
    if ca < 26 && cb < 26 {
      assert x[0] as int - 'A' as int == ca && x[0] as int - 'A' as int == cb;
    } else if ca >= 26 && cb >= 26 {
      var ka, kb := 'A' as int + ca / 26 - 1, 'A' as int + cb / 26 - 1;
      assert FromU32(ka) == Some(ka as char) && FromU32(kb) == Some(kb as char);
      assert (ka as char) as int == ka && (kb as char) as int == kb;
      assert ca / 26 == cb / 26;
      assert x[1] as int - 'A' as int == ca % 26 && x[1] as int - 'A' as int == cb % 26;
    }
  }

  /** The columns whose code name panics: column 0 underflows, and the
      first character lands among the surrogates (columns 1,436,033 to
      1,489,280) or past the last scalar value (from column 28,965,249). */
  lemma ColumnNamePanics(n: nat)
    requires n <= MaxU32
    ensures ColumnNameAsWritten(n).Fail? <==> n == 0 || 1436033 <= n <= 1489280 || 28965249 <= n
  {
    if n > 26 {
      var c := n - 1;
      var k := 'A' as int + c / 26 - 1;
      assert 0xD800 <= k <==> 1436033 <= n;
      assert k < 0xE000 <==> n <= 1489280;
      assert 0x11_0000 <= k <==> 28965249 <= n;
    }
  }

  /** `cell_name`: the code's column name, then the row in decimal. Up to
      column 702 it is the cell's spreadsheet name. */
  function CellName(row: nat, column: nat): (r: Result<string>)
    requires column <= MaxU32
    ensures r.Ok? <==> ColumnNameAsWritten(column).Ok?
    ensures 1 <= column <= 702 ==> r == Ok(CorrectedCellName(row, column))
  {
    assert 1 <= column <= 702 ==> ColumnNameAsWritten(column) == Ok(ColumnName(column)) by {
      if 1 <= column <= 702 {
        ColumnNameAgrees(column);
      }
    }
    var name := ColumnNameAsWritten(column);
    if name.Fail? then Fail(name.failure) else Ok(name.value + NatToString(row))
  }

  /** The cell name meant: the spreadsheet name of the column, then the
      row. */
  function CorrectedCellName(row: nat, column: nat): string
    requires column >= 1
  {
    ColumnName(column) + NatToString(row)
  }

  /** The length of the run of name characters `s` starts with. */
  function NameRun(s: string): (r: nat)
    ensures r <= |s|
  {
    if |s| > 0 && 'A' <= s[0] then 1 + NameRun(s[1..]) else 0
  }

  lemma {:induction false} NameRunOf(a: string, b: string)
    requires NameChars(a) && |b| > 0 && b[0] < 'A'
    ensures NameRun(a + b) == |a|
    decreases |a|
  {
    if |a| > 0 {
      assert (a + b)[1..] == a[1..] + b;
      assert 'A' <= a[0];
      NameRunOf(a[1..], b);
    }
  }

  /** A name then digits split in one way only. */
  lemma NameThenDigits(a: string, b: string, c: string, d: string)
    requires NameChars(a) && NameChars(c) && AllDigits(b) && AllDigits(d)
    requires |b| > 0 && |d| > 0 && a + b == c + d
    ensures a == c && b == d
  {
    assert IsDigit(b[0]) && IsDigit(d[0]);
    NameRunOf(a, b);
    NameRunOf(c, d);
    assert a == (a + b)[..|a|] && c == (c + d)[..|c|];
    assert b == (a + b)[|a|..] && d == (c + d)[|c|..];
  }

  /** Where `cell_name` succeeds, distinct cells get distinct names. */
  lemma CellNameInjective(r1: nat, c1: nat, r2: nat, c2: nat)
    requires c1 <= MaxU32 && c2 <= MaxU32
    requires CellName(r1, c1).Ok? && CellName(r1, c1) == CellName(r2, c2)
    ensures r1 == r2 && c1 == c2
  {
    var a, b := ColumnNameAsWritten(c1).value, ColumnNameAsWritten(c2).value;
    ColumnNameAsWrittenChars(c1);
    ColumnNameAsWrittenChars(c2);
    NameThenDigits(a, NatToString(r1), b, NatToString(r2));
    ColumnNameAsWrittenInjective(c1, c2);
    assert DecimalValue(NatToString(r1)) == DecimalValue(NatToString(r2));
  }

  /** Distinct cells get distinct corrected names. */
  lemma CorrectedCellNameInjective(r1: nat, c1: nat, r2: nat, c2: nat)
    requires c1 >= 1 && c2 >= 1 && CorrectedCellName(r1, c1) == CorrectedCellName(r2, c2)
    ensures r1 == r2 && c1 == c2
  {
    NameThenDigits(ColumnName(c1), NatToString(r1), ColumnName(c2), NatToString(r2));
    ColumnNameInjective(c1, c2);
    assert DecimalValue(NatToString(r1)) == DecimalValue(NatToString(r2));
  }

  /** `cell_range`: "{tab}!{first}:{last}", from the cell at `row`, `column`
      to the one `h` rows below and `w` columns right of it. The first name
      is built before the additions, which are on `u32` and panic when they
      overflow, and then the last name; either name can panic. Up to column
      702 it is the corrected range. */
  function CellRange(tab: string, row: nat, column: nat, h: nat, w: nat): (r: Result<string>)
    requires column <= MaxU32
    ensures r.Ok? <==> row + h <= MaxU32 && column + w <= MaxU32
                       && ColumnNameAsWritten(column).Ok? && ColumnNameAsWritten(column + w).Ok?
    ensures 1 <= column && column + w <= 702 ==> r == CorrectedCellRange(tab, row, column, h, w)
  {
    var first := CellName(row, column);
    if first.Fail? then Fail(first.failure)
    else if row + h > MaxU32 || column + w > MaxU32 then Fail(Panic("attempt to add with overflow"))
    else
      var last := CellName(row + h, column + w);
      if last.Fail? then Fail(last.failure)
      else Ok(tab + "!" + first.value + ":" + last.value)
  }

  /** The range meant, from the corrected cell names: it panics only when
      an addition overflows. */
  function CorrectedCellRange(tab: string, row: nat, column: nat, h: nat, w: nat): (r: Result<string>)
    requires column >= 1
    ensures r.Ok? <==> row + h <= MaxU32 && column + w <= MaxU32
  {
    if row + h > MaxU32 || column + w > MaxU32 then Fail(Panic("attempt to add with overflow"))
    else Ok(tab + "!" + CorrectedCellName(row, column) + ":" + CorrectedCellName(row + h, column + w))
  }

  /** A frame five columns wide at column 700 is sent as "ZX1:[C1", where
      the spreadsheet range is "ZX1:AAC1". */
  lemma CellRangePastZZ()
    ensures CellRange("Tab", 1, 700, 0, 5) == Ok("Tab!ZX1:[C1")
    ensures CorrectedCellRange("Tab", 1, 700, 0, 5) == Ok("Tab!ZX1:AAC1")
  {
    CellZX1();
    CellPast705();
    assert "Tab" + "!" + "ZX1" + ":" + "[C1" == "Tab!ZX1:[C1";
    assert "Tab" + "!" + "ZX1" + ":" + "AAC1" == "Tab!ZX1:AAC1";
  }

  lemma CellZX1()
    ensures CellName(1, 700) == Ok("ZX1") && CorrectedCellName(1, 700) == "ZX1"
  {
    assert NatToString(1) == "1";
    assert ColumnName(26) == "Z";
    assert ColumnName(700) == ColumnName(26) + "X" == "ZX";
    assert "ZX" + "1" == "ZX1";
  }

  lemma CellPast705()
    ensures CellName(1, 705) == Ok("[C1") && CorrectedCellName(1, 705) == "AAC1"
  {
    assert NatToString(1) == "1";
    assert ColumnNameAsWritten(705) == Ok("[C");
    assert "[C" + "1" == "[C1";
    assert ColumnName(27) == "AA";
    assert ColumnName(705) == ColumnName(27) + "C" == "AAC";
    assert "AAC" + "1" == "AAC1";
  }

  lemma NoColon(s: string)
    requires forall k :: 0 <= k < |s| ==> 'A' <= s[k] || IsDigit(s[k])
    ensures ':' !in s
  {
  }

  /** The length of the part of `s` before its first ':'. */
  function BeforeColon(s: string): (r: nat)
    ensures r <= |s|
  {
    if |s| > 0 && s[0] != ':' then 1 + BeforeColon(s[1..]) else 0
  }

  lemma {:induction false} BeforeColonOf(a: string, b: string)
    requires ':' !in a
    ensures BeforeColon(a + ":" + b) == |a|
    decreases |a|
  {
    if |a| > 0 {
      assert (a + ":" + b)[1..] == a[1..] + ":" + b;
      assert a[0] in a;
      BeforeColonOf(a[1..], b);
    }
  }

  /** Two strings without ':' joined by one split back at it. */
  lemma SplitAtColon(a: string, b: string, c: string, d: string)
    requires ':' !in a && ':' !in c && a + ":" + b == c + ":" + d
    ensures a == c && b == d
  {
    var x := a + ":" + b;
    BeforeColonOf(a, b);
    BeforeColonOf(c, d);
    assert a == x[..|a|] && c == x[..|c|];
    assert b == x[|a| + 1..] && d == x[|c| + 1..];
  }

  /** A name then digits has no ':'. */
  lemma NameDigitsNoColon(a: string, b: string)
    requires NameChars(a) && AllDigits(b)
    ensures ':' !in a + b
  {
    var s := a + b;
    assert forall k :: 0 <= k < |s| ==> s[k] == if k < |a| then a[k] else b[k - |a|];
    NoColon(s);
  }

  /** A cell name the code builds has no ':'. */
  lemma CellNameHasNoColon(row: nat, column: nat)
    requires column <= MaxU32 && CellName(row, column).Ok?
    ensures ':' !in CellName(row, column).value
  {
    ColumnNameAsWrittenChars(column);
    NameDigitsNoColon(ColumnNameAsWritten(column).value, NatToString(row));
  }

  /** Nor has a corrected one. */
  lemma CorrectedCellNameHasNoColon(row: nat, column: nat)
    requires column >= 1
    ensures ':' !in CorrectedCellName(row, column)
  {
    NameDigitsNoColon(ColumnName(column), NatToString(row));
  }

  lemma RangeTail(tab: string, a: string, b: string)
    ensures (tab + "!" + a + ":" + b)[|tab| + 1..] == a + ":" + b
  {
  }

  /** A range that `cell_range` builds is its two corner names around a
      colon, after the tab. */
  lemma CellRangeParts(tab: string, row: nat, column: nat, h: nat, w: nat)
    requires column <= MaxU32 && CellRange(tab, row, column, h, w).Ok?
    ensures column + w <= MaxU32 && CellName(row, column).Ok? && CellName(row + h, column + w).Ok?
    ensures CellRange(tab, row, column, h, w).value ==
      tab + "!" + CellName(row, column).value + ":" + CellName(row + h, column + w).value
  {
  }

  /** After the same tab, names without a colon split a range apart. */
  lemma RangeSplit(tab: string, a: string, b: string, c: string, d: string)
    requires ':' !in a && ':' !in c && tab + "!" + a + ":" + b == tab + "!" + c + ":" + d
    ensures a == c && b == d
  {
    RangeTail(tab, a, b);
    RangeTail(tab, c, d);
    SplitAtColon(a, b, c, d);
  }

  /** Two equal ranges that `cell_range` builds on one tab have equal
      corner names. */
  lemma CellRangeCorners(tab: string, r1: nat, c1: nat, h1: nat, w1: nat,
                         r2: nat, c2: nat, h2: nat, w2: nat)
    requires c1 <= MaxU32 && c2 <= MaxU32
    requires CellRange(tab, r1, c1, h1, w1).Ok? && CellRange(tab, r1, c1, h1, w1) == CellRange(tab, r2, c2, h2, w2)
    ensures c1 + w1 <= MaxU32 && c2 + w2 <= MaxU32
    ensures CellName(r1, c1).Ok? && CellName(r1, c1) == CellName(r2, c2)
    ensures CellName(r1 + h1, c1 + w1).Ok? && CellName(r1 + h1, c1 + w1) == CellName(r2 + h2, c2 + w2)
  {
    CellRangeParts(tab, r1, c1, h1, w1);
    CellRangeParts(tab, r2, c2, h2, w2);
    var a, b := CellName(r1, c1).value, CellName(r1 + h1, c1 + w1).value;
    var c, d := CellName(r2, c2).value, CellName(r2 + h2, c2 + w2).value;
    CellNameHasNoColon(r1, c1);
    CellNameHasNoColon(r2, c2);
    RangeSplit(tab, a, b, c, d);
  }

  /** On one tab, distinct rectangles get distinct ranges wherever
      `cell_range` succeeds. */
  lemma CellRangeInjective(tab: string, r1: nat, c1: nat, h1: nat, w1: nat,
                           r2: nat, c2: nat, h2: nat, w2: nat)
    requires c1 <= MaxU32 && c2 <= MaxU32
    requires CellRange(tab, r1, c1, h1, w1).Ok? && CellRange(tab, r1, c1, h1, w1) == CellRange(tab, r2, c2, h2, w2)
    ensures r1 == r2 && c1 == c2 && h1 == h2 && w1 == w2
  {
    CellRangeCorners(tab, r1, c1, h1, w1, r2, c2, h2, w2);
    CellNameInjective(r1 + h1, c1 + w1, r2 + h2, c2 + w2);
    CellNameInjective(r1, c1, r2, c2);
  }

  /** On one tab, distinct rectangles get distinct corrected ranges. */
  lemma CorrectedCellRangeInjective(tab: string, r1: nat, c1: nat, h1: nat, w1: nat,
                                    r2: nat, c2: nat, h2: nat, w2: nat)
    requires c1 >= 1 && c2 >= 1
    requires CorrectedCellRange(tab, r1, c1, h1, w1).Ok?
    requires CorrectedCellRange(tab, r1, c1, h1, w1) == CorrectedCellRange(tab, r2, c2, h2, w2)
    ensures r1 == r2 && c1 == c2 && h1 == h2 && w1 == w2
  {
    var a, b := CorrectedCellName(r1, c1), CorrectedCellName(r1 + h1, c1 + w1);
    var c, d := CorrectedCellName(r2, c2), CorrectedCellName(r2 + h2, c2 + w2);
    RangeTail(tab, a, b);
    RangeTail(tab, c, d);
    CorrectedCellNameHasNoColon(r1, c1);
    CorrectedCellNameHasNoColon(r2, c2);
    SplitAtColon(a, b, c, d);
    CorrectedCellNameInjective(r1, c1, r2, c2);
    CorrectedCellNameInjective(r1 + h1, c1 + w1, r2 + h2, c2 + w2);
  }

  // ------------------------------------------------------------ the values

  /** A column of the table: its name and its cells as the sheet shows
      them (a string cell as it is, any other value in its display form). */
  datatype Column = Column(name: string, cells: seq<string>)

  type Frame = seq<Column>

  /** The table's height as `shape` reports it. */
  function Height(frame: Frame): nat {
    if |frame| == 0 then 0 else |frame[0].cells|
  }

  /** A table's columns all have its height. */
  predicate Rectangular(frame: Frame) {
    forall i :: 0 <= i < |frame| ==> |frame[i].cells| == Height(frame)
  }

  /** The values sent: column-major, each column its name and then its
      cells. */
  function Values(frame: Frame): (v: seq<seq<string>>)
    ensures |v| == |frame|
    ensures forall i :: 0 <= i < |frame| ==> |v[i]| == |frame[i].cells| + 1
    ensures forall i :: 0 <= i < |frame| ==> v[i][0] == frame[i].name && v[i][1..] == frame[i].cells
  {
    if |frame| == 0 then []
    else [[frame[0].name] + frame[0].cells] + Values(frame[1..])
  }

  /** For a rectangular table every column of values is the header row and
      then one entry per table row: the range's `h + 1` rows, exactly. */
  lemma ValuesFillRows(frame: Frame, i: nat, j: nat)
    requires Rectangular(frame) && i < |frame| && j <= Height(frame)
    ensures |Values(frame)[i]| == Height(frame) + 1
    ensures Values(frame)[i][j] == if j == 0 then frame[i].name else frame[i].cells[j - 1]
  {
    var v := Values(frame)[i];
    if j > 0 {
      assert v[j] == v[1..][j - 1];
    }
  }

  // ------------------------------------------------------------ the cursor

  datatype Request =
    | Clear(range: string)
    | Update(range: string, values: seq<seq<string>>)

  /** The sheet writer: the tab it writes to, the spacing between tables,
      the position of the next table, and the requests sent so far. */
  class Sheet {
    const tab: string
    const spacing: nat
    var row: nat
    var column: nat
    var sent: seq<Request>

    /** The position is a pair of `u32`s whose column is at least 1. */
    predicate Valid()
      reads this
    {
      spacing <= MaxU32 && row <= MaxU32 && 1 <= column <= MaxU32
    }

    /** `GoogleSheet::new`: writing starts at the first row and column. */
    constructor (tab: string, spacing: nat)
      requires spacing <= MaxU32
      ensures Valid()
      ensures this.tab == tab && this.spacing == spacing
      ensures row == 1 && column == 1 && sent == []
    {
      this.tab := tab;
      this.spacing := spacing;
      row := 1;
      column := 1;
      sent := [];
    }

    /** `update_sheets`: clears 1000 rows of the table's width from the
        position, writes the table there, and moves the position right by
        the spacing plus the table's width. The ranges are the code's, so
        past column 702 they hold the code's column names. A failed request,
        an addition that overflows or a column name that panics leaves the
        position where it was. */
    method UpdateSheets(frame: Frame, cleared: Result<()>, updated: Result<()>) returns (r: Result<()>)
      requires Valid()
      modifies this
      ensures Valid() && row == old(row)
      ensures var range := CellRange(tab, row, old(column), Height(frame), |frame|);
              var clear := CellRange(tab, row, old(column), 1000, |frame|);
        && (r.Ok? <==> range.Ok? && clear.Ok? && cleared.Ok? && updated.Ok?
                       && old(column) + spacing + |frame| <= MaxU32)
        && (r.Ok? ==> column == old(column) + spacing + |frame|)
        && (r.Fail? ==> column == old(column))
        && sent == old(sent)
             + (if range.Ok? && clear.Ok? then [Clear(clear.value)] else [])
             + (if range.Ok? && clear.Ok? && cleared.Ok? then [Update(range.value, Values(frame))] else [])
    {
      var h, w := Height(frame), |frame|;
      var range := CellRange(tab, row, column, h, w);
      if range.Fail? {
        return Fail(range.failure);
      }
      var values := Values(frame);
      var clear := CellRange(tab, row, column, 1000, w);
      if clear.Fail? {
        return Fail(clear.failure);
      }
      sent := sent + [Clear(clear.value)];
      if cleared.Fail? {
        return Fail(cleared.failure);
      }
      sent := sent + [Update(range.value, values)];
      if updated.Fail? {
        return Fail(updated.failure);
      }
      if column + spacing + w > MaxU32 {
        return Fail(Panic("attempt to add with overflow"));
      }
      column := column + spacing + w;
      r := Ok(());
    }
  }
}
