/** String helpers for the Rust standard-library operations the program
    relies on: substring search, `split`, `split_whitespace`, decimal
    formatting and parsing of unsigned integers, and the ordering of
    `String` values used by sorting. */
module Text {
  import opened Wrappers

  /** `sub` occurs in `s` at position `i`. */
  predicate OccursAt(s: string, sub: string, i: int) {
    0 <= i && i + |sub| <= |s| && s[i..i + |sub|] == sub
  }

  /** `s.contains(sub)`, also what a regex consisting only of literal
      characters matches. */
  predicate Contains(s: string, sub: string)
    decreases |s|
  {
    (|sub| <= |s| && s[..|sub|] == sub) || (|s| > 0 && Contains(s[1..], sub))
  }

  lemma {:induction false} ContainsIff(s: string, sub: string)
    ensures Contains(s, sub) <==> exists i :: OccursAt(s, sub, i)
    decreases |s|
  {
    if |sub| <= |s| && s[..|sub|] == sub {
      assert OccursAt(s, sub, 0);
    } else if |s| > 0 {
      ContainsIff(s[1..], sub);
      if Contains(s[1..], sub) {
        var i :| OccursAt(s[1..], sub, i);
        assert s[1..][i..i + |sub|] == s[i + 1..i + 1 + |sub|];
        assert OccursAt(s, sub, i + 1);
      } else {
        forall i | OccursAt(s, sub, i)
          ensures false
        {
          if i > 0 { ShiftOccurs(s, sub, i); }
        }
      }
    } else {
      forall i | OccursAt(s, sub, i)
        ensures false
      {
      }
    }
  }

  lemma ShiftOccurs(s: string, sub: string, i: int)
    requires 0 < i && OccursAt(s, sub, i)
    ensures OccursAt(s[1..], sub, i - 1)
  {
    assert s[1..][i - 1..i - 1 + |sub|] == s[i..i + |sub|];
  }

  /** A string cannot contain a pattern whose first character it lacks. */
  lemma {:induction false} FirstCharAbsent(s: string, sub: string)
    requires |sub| > 0 && sub[0] !in s
    ensures !Contains(s, sub)
    decreases |s|
  {
    if |s| > 0 {
      assert sub[0] !in s[1..] by {
        forall k | 0 <= k < |s[1..]| ensures s[1..][k] != sub[0] { assert s[1..][k] == s[k + 1]; }
      }
      FirstCharAbsent(s[1..], sub);
      if |sub| <= |s| { assert s[..|sub|][0] == s[0]; }
    }
  }

  /** The characters an occurrence lines up. */
  lemma OccurrenceChars(s: string, sub: string, i: int)
    ensures OccursAt(s, sub, i) ==> forall k :: 0 <= k < |sub| ==> s[i + k] == sub[k]
  {
    if OccursAt(s, sub, i) {
      forall k | 0 <= k < |sub| ensures s[i + k] == sub[k] {
        assert s[i..i + |sub|][k] == s[i + k];
      }
    }
  }

  /** A string cannot contain a longer one. */
  lemma {:induction false} ShorterAbsent(s: string, sub: string)
    requires |s| < |sub|
    ensures !Contains(s, sub)
    decreases |s|
  {
    if |s| > 0 { ShorterAbsent(s[1..], sub); }
  }

  /** Every string contains itself. */
  lemma ContainsSelf(s: string)
    ensures Contains(s, s)
  {
    assert s[..|s|] == s;
  }

  // ---------------------------------------------------------------- split

  /** `s.split(c)`: the pieces between occurrences of `c`, empty pieces
      included, so the result is never empty. */
  function SplitOn(s: string, c: char): (r: seq<string>)
    ensures |r| >= 1
    ensures forall k :: 0 <= k < |r| ==> c !in r[k]
    decreases |s|
  {
    if |s| == 0 then [""]
    else
      var rest := SplitOn(s[1..], c);
      if s[0] == c then [""] + rest
      else [[s[0]] + rest[0]] + rest[1..]
  }

  /** `pieces.join(c)`. */
  function JoinWith(pieces: seq<string>, c: char): string
  {
    if |pieces| == 0 then ""
    else if |pieces| == 1 then pieces[0]
    else pieces[0] + [c] + JoinWith(pieces[1..], c)
  }

  /** Splitting then joining with the same separator gives back the input. */
  lemma {:induction false} JoinSplit(s: string, c: char)
    ensures JoinWith(SplitOn(s, c), c) == s
    decreases |s|
  {
    if |s| > 0 {
      JoinSplit(s[1..], c);
      var rest := SplitOn(s[1..], c);
      if s[0] == c {
        assert SplitOn(s, c)[1..] == rest;
      } else {
        var r := SplitOn(s, c);
        assert r[1..] == rest[1..];
        if |rest| > 1 {
          assert JoinWith(rest, c) == rest[0] + [c] + JoinWith(rest[1..], c);
          assert JoinWith(r, c) == r[0] + [c] + JoinWith(r[1..], c);
        }
      }
    }
  }

  /** Joining pieces free of the separator then splitting gives back the pieces. */
  lemma {:induction false} SplitJoin(pieces: seq<string>, c: char)
    requires |pieces| >= 1
    requires forall k :: 0 <= k < |pieces| ==> c !in pieces[k]
    ensures SplitOn(JoinWith(pieces, c), c) == pieces
    decreases |pieces|, |pieces[0]|
  {
    var p := pieces[0];
    if |pieces| == 1 {
      SplitPlain(p, c);
    } else if |p| == 0 {
      var tail := JoinWith(pieces[1..], c);
      assert JoinWith(pieces, c) == [c] + tail;
      assert ([c] + tail)[1..] == tail;
      SplitJoin(pieces[1..], c);
    } else {
      var shorter := [p[1..]] + pieces[1..];
      SplitJoin(shorter, c);
      var j := JoinWith(pieces, c);
      assert JoinWith(shorter, c) == p[1..] + [c] + JoinWith(pieces[1..], c);
      assert j[1..] == JoinWith(shorter, c);
      assert j[0] == p[0];
      assert [p[0]] + p[1..] == p;
    }
  }

  lemma {:induction false} SplitPlain(s: string, c: char)
    requires c !in s
    ensures SplitOn(s, c) == [s]
    decreases |s|
  {
    if |s| > 0 {
      assert c !in s[1..] by {
        forall k | 0 <= k < |s[1..]| ensures s[1..][k] != c { assert s[1..][k] == s[k + 1]; }
      }
      SplitPlain(s[1..], c);
      assert [s[0]] + s[1..] == s;
    }
  }

  // ---------------------------------------------------- split_whitespace

  /** The characters Unicode classifies as White_Space, which is what
      `char::is_whitespace` tests. */
  predicate IsSpace(ch: char) {
    ch == ' ' || ('\t' <= ch <= '\r') || ch == '\U{85}' || ch == '\U{A0}'
    || ch == '\U{1680}' || ('\U{2000}' <= ch <= '\U{200A}') || ch == '\U{2028}'
    || ch == '\U{2029}' || ch == '\U{202F}' || ch == '\U{205F}' || ch == '\U{3000}'
  }

  predicate IsWord(w: string) {
    |w| > 0 && forall k :: 0 <= k < |w| ==> !IsSpace(w[k])
  }

  function WordChars(ws: seq<string>): string
  {
    if |ws| == 0 then "" else ws[0] + WordChars(ws[1..])
  }

  /** `s.split_whitespace()`: the maximal runs of non-space characters. */
  function Words(s: string): (r: seq<string>)
    ensures forall k :: 0 <= k < |r| ==> IsWord(r[k])
    ensures |s| > 0 && !IsSpace(s[0]) ==> |r| > 0 && |r[0]| > 0 && r[0][0] == s[0]
    ensures WordChars(r) == Strip(s)
    decreases |s|
  {
    if |s| == 0 then []
    else if IsSpace(s[0]) then Words(s[1..])
    else
      var w := Words(s[1..]);
      if |s| > 1 && !IsSpace(s[1]) then
        GlueFirst(s[0], w);
        [[s[0]] + w[0]] + w[1..]
      else
        PrependWord(s[0], w);
        [[s[0]]] + w
  }

  /** A non-space character joined to the front of the first word. */
  lemma GlueFirst(c: char, w: seq<string>)
    requires !IsSpace(c) && |w| > 0
    requires forall k :: 0 <= k < |w| ==> IsWord(w[k])
    ensures var r := [[c] + w[0]] + w[1..];
      (forall k :: 0 <= k < |r| ==> IsWord(r[k])) && WordChars(r) == [c] + WordChars(w)
  {
    var r := [[c] + w[0]] + w[1..];
    forall k | 0 <= k < |r| ensures IsWord(r[k]) {
      if k == 0 { GlueWord(c, w[0]); } else { assert r[k] == w[k]; }
    }
    GlueChars(c, w[0], w[1..]);
    assert w == [w[0]] + w[1..];
  }

  lemma GlueChars(c: char, first: string, rest: seq<string>)
    ensures WordChars([[c] + first] + rest) == [c] + WordChars([first] + rest)
  {
    assert ([[c] + first] + rest)[1..] == rest;
    assert ([first] + rest)[1..] == rest;
  }

  /** A non-space character in front of a word makes a word. */
  lemma GlueWord(c: char, w: string)
    requires !IsSpace(c) && IsWord(w)
    ensures IsWord([c] + w)
  {
    var g := [c] + w;
    forall k | 0 < k < |g| ensures !IsSpace(g[k]) { assert g[k] == w[k - 1]; }
  }

  /** A one-character word put in front. */
  lemma PrependWord(c: char, w: seq<string>)
    requires !IsSpace(c)
    requires forall k :: 0 <= k < |w| ==> IsWord(w[k])
    ensures var r := [[c]] + w;
      (forall k :: 0 <= k < |r| ==> IsWord(r[k])) && WordChars(r) == [c] + WordChars(w)
  {
    var r := [[c]] + w;
    assert r[1..] == w;
  }

  /** A word followed by a space (or nothing) is the first word. */
  lemma {:induction false} WordThen(w: string, rest: string)
    requires IsWord(w) && (|rest| == 0 || IsSpace(rest[0]))
    ensures Words(w + rest) == [w] + Words(rest)
    decreases |w|
  {
    var s := w + rest;
    assert s[1..] == w[1..] + rest;
    if |w| > 1 {
      assert IsWord(w[1..]) by {
        forall k | 0 <= k < |w[1..]| ensures !IsSpace(w[1..][k]) { assert w[1..][k] == w[k + 1]; }
      }
      WordThen(w[1..], rest);
      assert !IsSpace(s[1]);
      assert [s[0]] + w[1..] == w;
    } else {
      assert [s[0]] == w;
    }
  }

  /** Printable ASCII other than the space is never white space. */
  lemma PrintableWord(w: string)
    requires |w| > 0 && forall k :: 0 <= k < |w| ==> '!' <= w[k] <= '~'
    ensures IsWord(w)
  {
  }

  lemma TwoWords(a: string, b: string)
    requires IsWord(a) && IsWord(b)
    ensures Words(a + " " + b) == [a, b]
  {
    assert a + " " + b == a + (" " + b);
    WordSpaceThen(a, b);
    assert b == b + "";
    WordThen(b, "");
  }

  lemma ThreeWords(a: string, b: string, c: string)
    requires IsWord(a) && IsWord(b) && IsWord(c)
    ensures Words(a + " " + b + " " + c) == [a, b, c]
  {
    SpacedAssociates(a, b + " " + c);
    TwoWords(b, c);
    WordSpaceThen(a, b + " " + c);
  }

  lemma SpacedAssociates(a: string, t: string)
    ensures forall b, c :: t == b + " " + c ==> a + " " + b + " " + c == a + (" " + t)
  {
  }

  /** A word and a space in front of `t` add that word to the words of `t`. */
  lemma WordSpaceThen(w: string, t: string)
    requires IsWord(w)
    ensures Words(w + (" " + t)) == [w] + Words(t)
  {
    WordThen(w, " " + t);
    assert (" " + t)[1..] == t;
  }

  /** The non-space characters of `s`, in order. */
  function Strip(s: string): string
    decreases |s|
  {
    if |s| == 0 then "" else if IsSpace(s[0]) then Strip(s[1..]) else [s[0]] + Strip(s[1..])
  }

  /** The first `n` elements, as `Iterator::take(n)` yields them. */
  function Take<T>(s: seq<T>, n: nat): (r: seq<T>)
    ensures |r| == if n < |s| then n else |s|
    ensures forall k :: 0 <= k < |r| ==> r[k] == s[k]
  {
    if n < |s| then s[..n] else s
  }

  // ------------------------------------------------------------- numbers

  predicate IsDigit(ch: char) { '0' <= ch <= '9' }

  function DigitValue(ch: char): nat
    requires IsDigit(ch)
  {
    ch as int - '0' as int
  }

  function DigitChar(d: nat): (ch: char)
    requires d < 10
    ensures IsDigit(ch) && DigitValue(ch) == d
  {
    ('0' as int + d) as char
  }

  predicate AllDigits(s: string) {
    forall k :: 0 <= k < |s| ==> IsDigit(s[k])
  }

  /** The value of a string of decimal digits (most significant first). */
  function DecimalValue(s: string): nat
    requires AllDigits(s)
    decreases |s|
  {
    if |s| == 0 then 0 else DecimalValue(s[..|s| - 1]) * 10 + DigitValue(s[|s| - 1])
  }

  /** The `Display` form of a natural number: decimal, no leading zeros. */
  function NatToString(n: nat): (r: string)
    ensures |r| > 0 && AllDigits(r)
    ensures DecimalValue(r) == n
    ensures |r| > 1 ==> r[0] != '0'
    decreases n
  {
    if n < 10 then [DigitChar(n)]
    else
      var p := NatToString(n / 10);
      var r := p + [DigitChar(n % 10)];
      assert r[..|r| - 1] == p;
      r
  }

  /** The `Display` form of an integer. */
  function IntToString(n: int): string {
    if n < 0 then "-" + NatToString(-n) else NatToString(n)
  }

  /** `format!("{:0w$}", n)`: left-padded with zeros to at least `w` characters. */
  function PadNat(n: nat, w: nat): (r: string)
    ensures AllDigits(r) && DecimalValue(r) == n && |r| >= w
    ensures |r| == if |NatToString(n)| < w then w else |NatToString(n)|
  {
    ZeroPad(NatToString(n), w)
  }

  function ZeroPad(s: string, w: nat): (r: string)
    requires AllDigits(s)
    ensures AllDigits(r) && DecimalValue(r) == DecimalValue(s)
    ensures |r| == if |s| < w then w else |s|
    decreases w - |s|
  {
    if |s| >= w then s
    else
      var r := ZeroPad("0" + s, w);
      LeadingZero(s);
      r
  }

  lemma {:induction false} LeadingZero(s: string)
    requires AllDigits(s)
    ensures AllDigits("0" + s) && DecimalValue("0" + s) == DecimalValue(s)
    decreases |s|
  {
    if |s| > 0 {
      var t := "0" + s;
      assert t[..|t| - 1] == "0" + s[..|s| - 1];
      LeadingZero(s[..|s| - 1]);
    }
  }

  /** Rust's `FromStr` for an unsigned integer type whose largest value is
      `max`: an optional leading `+`, then one or more ASCII digits, and a
      value that fits. */
  function ParseUnsigned(s: string, max: nat): (r: Option<nat>)
    ensures r.Some? ==> r.value <= max
  {
    var digits := if |s| > 0 && s[0] == '+' then s[1..] else s;
    if |digits| > 0 && AllDigits(digits) && DecimalValue(digits) <= max
    then Some(DecimalValue(digits)) else None
  }

  /** Parsing the padded decimal form of a number gives the number back. */
  lemma ParsePadded(n: nat, w: nat, max: nat)
    requires n <= max
    ensures ParseUnsigned(PadNat(n, w), max) == Some(n)
  {
    var s := PadNat(n, w);
    assert |s| > 0 by { assert |NatToString(n)| > 0; }
    assert IsDigit(s[0]);
  }

  // ------------------------------------------------------------ ordering

  /** The order of Rust `String`s: lexicographic by character (for UTF-8 the
      byte order and the code point order agree). */
  predicate Less(a: string, b: string)
    decreases |a|
  {
    if |a| == 0 then |b| > 0
    else if |b| == 0 then false
    else a[0] < b[0] || (a[0] == b[0] && Less(a[1..], b[1..]))
  }

  lemma {:induction false} LessIrreflexive(a: string)
    ensures !Less(a, a)
    decreases |a|
  {
    if |a| > 0 { LessIrreflexive(a[1..]); }
  }

  lemma {:induction false} LessTransitive(a: string, b: string, c: string)
    requires Less(a, b) && Less(b, c)
    ensures Less(a, c)
    decreases |a|
  {
    if |a| > 0 && a[0] == b[0] && b[0] == c[0] {
      LessTransitive(a[1..], b[1..], c[1..]);
    }
  }

  lemma {:induction false} LessTotal(a: string, b: string)
    requires a != b
    ensures Less(a, b) || Less(b, a)
    decreases |a|
  {
    if |a| > 0 && |b| > 0 && a[0] == b[0] {
      assert a == [a[0]] + a[1..] && b == [b[0]] + b[1..];
      LessTotal(a[1..], b[1..]);
    }
  }

  lemma {:induction false} LessAsymmetric(a: string, b: string)
    requires Less(a, b)
    ensures !Less(b, a)
    decreases |a|
  {
    if |a| > 0 && a[0] == b[0] { LessAsymmetric(a[1..], b[1..]); }
  }

  predicate StrictlySorted(s: seq<string>) {
    forall i, j :: 0 <= i < j < |s| ==> Less(s[i], s[j])
  }

  /** Insert `x` into a strictly sorted sequence, keeping it strictly sorted
      and dropping `x` if it is already there. */
  function InsertSorted(x: string, s: seq<string>): (r: seq<string>)
    requires StrictlySorted(s)
    ensures StrictlySorted(r)
    ensures forall y :: y in r <==> y == x || y in s
    decreases |s|
  {
    if |s| == 0 then [x]
    else if x == s[0] then s
    else if Less(x, s[0]) then
      assert forall j :: 0 <= j < |s| ==> Less(x, s[j]) by {
        forall j | 0 <= j < |s| ensures Less(x, s[j]) {
          if j > 0 { LessTransitive(x, s[0], s[j]); }
        }
      }
      [x] + s
    else
      LessTotal(x, s[0]);
      var tail := InsertSorted(x, s[1..]);
      var r := [s[0]] + tail;
      assert forall j :: 0 <= j < |tail| ==> Less(s[0], tail[j]) by {
        forall j | 0 <= j < |tail| ensures Less(s[0], tail[j]) {
          assert tail[j] in tail;
        }
      }
      r
  }

  /** `v.sort(); v.dedup()` on strings: the distinct elements of `s` in
      ascending order. */
  function SortDedup(s: seq<string>): (r: seq<string>)
    ensures StrictlySorted(r)
    ensures forall y :: y in r <==> y in s
    decreases |s|
  {
    if |s| == 0 then [] else InsertSorted(s[|s| - 1], SortDedup(s[..|s| - 1]))
  }

  /** A strictly sorted sequence has no repeated element. */
  lemma SortedDistinct(s: seq<string>, i: int, j: int)
    requires StrictlySorted(s) && 0 <= i < j < |s|
    ensures s[i] != s[j]
  {
    LessIrreflexive(s[i]);
  }

  /** Two strictly sorted sequences with the same elements are equal, so
      `SortDedup` depends only on the set of its input's elements. */
  lemma {:induction false} SortedUnique(a: seq<string>, b: seq<string>)
    requires StrictlySorted(a) && StrictlySorted(b)
    requires forall y :: y in a <==> y in b
    ensures a == b
    decreases |a|
  {
    if |a| > 0 && |b| > 0 {
      if a[0] != b[0] {
        assert a[0] in b && b[0] in a;
        var k :| 0 <= k < |b| && b[k] == a[0];
        var m :| 0 <= m < |a| && a[m] == b[0];
        LessAsymmetric(a[0], a[m]);
      } else {
        forall y ensures y in a[1..] <==> y in b[1..] {
          if y in a[1..] {
            var k :| 1 <= k < |a| && a[k] == y;
            SortedDistinct(a, 0, k);
            assert y in b;
            var m :| 0 <= m < |b| && b[m] == y;
            assert m != 0;
          }
          if y in b[1..] {
            var k :| 1 <= k < |b| && b[k] == y;
            SortedDistinct(b, 0, k);
            assert y in a;
            var m :| 0 <= m < |a| && a[m] == y;
            assert m != 0;
          }
        }
        SortedUnique(a[1..], b[1..]);
        assert a == [a[0]] + a[1..] && b == [b[0]] + b[1..];
      }
    } else {
      HeadMember(a);
      HeadMember(b);
    }
  }

  lemma HeadMember(s: seq<string>)
    ensures |s| > 0 ==> s[0] in s
  {
  }
}
