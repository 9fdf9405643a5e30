/** Identifiers, dates and descriptions as the browser checks them and as the server reads
    and prints them. */
module WireText {
  import opened Base
  import opened DecimalText

  // ---------------------------------------------------------------- identifiers

  predicate IsHex(c: char) { IsDigit(c) || 'a' <= c <= 'f' || 'A' <= c <= 'F' }

  /** The 8-4-4-4-12 pattern, in either case. */
  predicate ValidId(s: string) {
    && |s| == 36
    && forall i :: 0 <= i < 36 ==>
         if i == 8 || i == 13 || i == 18 || i == 23 then s[i] == '-' else IsHex(s[i])
  }

  function LowerChar(c: char): char {
    if 'A' <= c <= 'F' then (c as int + 32) as char else c
  }

  lemma HexDigits(c: char)
    ensures IsHex(c) <==> c in "0123456789abcdefABCDEF"
  {
  }

  predicate HexRun(s: string, from: nat, to: nat)
    requires from <= to <= |s|
  {
    forall i :: from <= i < to ==> IsHex(s[i])
  }

  /** Five groups of 8, 4, 4, 4 and 12 hexadecimal digits, joined by hyphens. */
  lemma ValidIdExactly(s: string)
    ensures ValidId(s) <==>
            && |s| == 8 + 1 + 4 + 1 + 4 + 1 + 4 + 1 + 12
            && HexRun(s, 0, 8) && s[8] == '-' && HexRun(s, 9, 13) && s[13] == '-' && HexRun(s, 14, 18) && s[18] == '-'
            && HexRun(s, 19, 23) && s[23] == '-' && HexRun(s, 24, 36)
  {
    hide IsHex;
  }

  /** The uuid a text denotes, printed the way the server prints uuids. */
  function Lower(s: string): (t: string)
    ensures |t| == |s| && forall i :: 0 <= i < |s| ==> t[i] == LowerChar(s[i])
  {
    seq(|s|, i requires 0 <= i < |s| => LowerChar(s[i]))
  }

  /** A hexadecimal digit is printed in small letters and keeps its value. */
  lemma LowerKeepsDigits(k: nat)
    requires k < 16
    ensures LowerChar("0123456789ABCDEF"[k]) == "0123456789abcdef"[k]
    ensures LowerChar("0123456789abcdef"[k]) == "0123456789abcdef"[k]
  {
  }

  // ---------------------------------------------------------------- dates

  predicate LeapYear(y: int) { y % 4 == 0 && (y % 100 != 0 || y % 400 == 0) }

  function DaysIn(y: int, m: int): int {
    if m == 2 then (if LeapYear(y) then 29 else 28)
    else if m == 4 || m == 6 || m == 9 || m == 11 then 30
    else 31
  }

  /** Leap years among 1 to y. */
  function LeapsThrough(y: nat): nat {
    if y == 0 then 0 else LeapsThrough(y - 1) + if LeapYear(y) then 1 else 0
  }

  /** A multiple of 400 is one of 100, and a multiple of 100 is one of 4. */
  lemma LeapIndicator(y: nat)
    ensures (if LeapYear(y) then 1 else 0) ==
            (if y % 4 == 0 then 1 else 0) - (if y % 100 == 0 then 1 else 0) + (if y % 400 == 0 then 1 else 0)
  {
    if y % 100 == 0 {
      assert y == 4 * (25 * (y / 100));
    }
    if y % 400 == 0 {
      assert y == 100 * (4 * (y / 400));
    }
  }

  lemma NextFourth(y: nat)
    requires y > 0
    ensures y / 4 == (y - 1) / 4 + if y % 4 == 0 then 1 else 0
  {
  }

  lemma NextHundredth(y: nat)
    requires y > 0
    ensures y / 100 == (y - 1) / 100 + if y % 100 == 0 then 1 else 0
  {
  }

  lemma NextFourHundredth(y: nat)
    requires y > 0
    ensures y / 400 == (y - 1) / 400 + if y % 400 == 0 then 1 else 0
  {
  }

  /** Every fourth year leaps but not every hundredth, and then every four-hundredth. */
  lemma {:induction false} LeapsExactly(y: nat)
    ensures LeapsThrough(y) == y / 4 - y / 100 + y / 400
  {
    hide LeapYear;
    if y > 0 {
      LeapsExactly(y - 1);
      LeapIndicator(y);
      NextFourth(y);
      NextHundredth(y);
      NextFourHundredth(y);
    }
  }

  /** Days of the year before month m of a year that starts in March, m counted from 0. */
  function DaysBeforeMarch(y: int, m: nat): int
    requires m <= 11
  {
    if m == 0 then 0 else DaysBeforeMarch(y, m - 1) + DaysIn(y, (m + 1) % 12 + 1)
  }

  /** The lengths of the months follow the usual formula, and February has its leap day. */
  lemma MonthsExactly(y: int, m: nat)
    requires m <= 11
    ensures DaysBeforeMarch(y, m) == (153 * m + 2) / 5
    ensures DaysIn(y, 2) == 28 + if LeapYear(y) then 1 else 0
  {
    assert DaysBeforeMarch(y, 0) == 0;
    if m >= 1 { assert DaysBeforeMarch(y, 1) == 31; }
    if m >= 2 { assert DaysBeforeMarch(y, 2) == 61; }
    if m >= 3 { assert DaysBeforeMarch(y, 3) == 92; }
    if m >= 4 { assert DaysBeforeMarch(y, 4) == 122; }
    if m >= 5 { assert DaysBeforeMarch(y, 5) == 153; }
    if m >= 6 { assert DaysBeforeMarch(y, 6) == 184; }
    if m >= 7 { assert DaysBeforeMarch(y, 7) == 214; }
    if m >= 8 { assert DaysBeforeMarch(y, 8) == 245; }
    if m >= 9 { assert DaysBeforeMarch(y, 9) == 275; }
    if m >= 10 { assert DaysBeforeMarch(y, 10) == 306; }
  }

  predicate DateShape(s: string) {
    && |s| == 10 && s[4] == '-' && s[7] == '-'
    && AllDigits(s[..4]) && AllDigits(s[5..7]) && AllDigits(s[8..])
  }

  /** An existing calendar day written yyyy-mm-dd. */
  predicate ValidDate(s: string) {
    && DateShape(s)
    && var y, m, d := DigitsValue(s[..4]), DigitsValue(s[5..7]), DigitsValue(s[8..]);
       1 <= m <= 12 && 1 <= d <= DaysIn(y, m)
  }

  /** The days that exist, month by month. */
  lemma DatesExactly(s: string)
    requires DateShape(s)
    ensures var y, m, d := DigitsValue(s[..4]), DigitsValue(s[5..7]), DigitsValue(s[8..]);
            ValidDate(s) <==>
            || (m in {1, 3, 5, 7, 8, 10, 12} && 1 <= d <= 31)
            || (m in {4, 6, 9, 11} && 1 <= d <= 30)
            || (m == 2 && 1 <= d <= 28)
            || (m == 2 && d == 29 && y % 4 == 0 && (y % 100 == 0 ==> y % 400 == 0))
  {
    hide DigitsValue;
  }

  function DateValue(s: string): Day
    requires DateShape(s)
  {
    DigitsValue(s[..4]) * 10000 + DigitsValue(s[5..7]) * 100 + DigitsValue(s[8..])
  }

  /** Days are ordered as the calendar orders years, months and days. */
  lemma DatesInOrder(s: string, t: string)
    requires ValidDate(s) && ValidDate(t)
    ensures var y, m, d := DigitsValue(s[..4]), DigitsValue(s[5..7]), DigitsValue(s[8..]);
            var y2, m2, d2 := DigitsValue(t[..4]), DigitsValue(t[5..7]), DigitsValue(t[8..]);
            DateValue(s) < DateValue(t) <==> y < y2 || (y == y2 && (m < m2 || (m == m2 && d < d2)))
  {
    hide DigitsValue;
  }

  /** isoformat(): four, two and two digits. */
  function DateText(d: Day): string {
    if d < 0 then ""
    else
      PadStart(NatText(d / 10000), 4) + "-" + PadStart(NatText(d / 100 % 100), 2) + "-"
      + PadStart(NatText(d % 100), 2)
  }

  lemma PaddedDigits(s: string)
    requires AllDigits(s) && 1 <= |s|
    ensures PadStart(NatText(DigitsValue(s)), |s|) == s
  {
    hide NatText, DigitsValue;
    var n := DigitsValue(s);
    DigitsValueBound(s);
    PadStartValue(NatText(n), |s|);
    NatTextWidth(n, |s|);
    EqualWidthEqualText(PadStart(NatText(n), |s|), s);
  }

  lemma DateFields(y: nat, m: nat, d: nat)
    requires m < 100 && d < 100
    ensures (y * 10000 + m * 100 + d) / 10000 == y
    ensures (y * 10000 + m * 100 + d) / 100 % 100 == m
    ensures (y * 10000 + m * 100 + d) % 100 == d
  {
    assert (y * 10000 + m * 100 + d) / 100 == y * 100 + m;
  }

  /** The server prints a date it read as the text it read. */
  lemma DateRoundTrip(s: string)
    requires DateShape(s)
    ensures DateText(DateValue(s)) == s
  {
    hide NatText, DigitsValue, PadStart;
    var y, m, d := DigitsValue(s[..4]), DigitsValue(s[5..7]), DigitsValue(s[8..]);
    assert Pow10(2) == 100 by { assert Pow10(1) == 10; }
    DigitsValueBound(s[5..7]);
    DigitsValueBound(s[8..]);
    DateFields(y, m, d);
    PaddedDigits(s[..4]);
    PaddedDigits(s[5..7]);
    PaddedDigits(s[8..]);
    assert s == s[..4] + "-" + s[5..7] + "-" + s[8..];
  }

  // ---------------------------------------------------------------- descriptions

  /** The characters String.prototype.trim removes. */
  predicate IsSpace(c: char) {
    || '\U{0009}' <= c <= '\U{000D}' || c == ' ' || c == '\U{00A0}' || c == '\U{1680}'
    || '\U{2000}' <= c <= '\U{200A}' || c == '\U{2028}' || c == '\U{2029}' || c == '\U{202F}'
    || c == '\U{205F}' || c == '\U{3000}' || c == '\U{FEFF}'
  }

  /** The characters with the White_Space property, which the server's validation strips: U+0085
      besides those above, but not U+FEFF. */
  predicate IsWhiteSpace(c: char) { c == '\U{0085}' || (IsSpace(c) && c != '\U{FEFF}') }

  /** The two sets of characters, one by one. */
  lemma SpacesExactly(c: char)
    ensures IsSpace(c) <==>
            c in {'\U{9}', '\U{A}', '\U{B}', '\U{C}', '\U{D}', '\U{20}', '\U{A0}', '\U{1680}', '\U{2000}', '\U{2001}',
                  '\U{2002}', '\U{2003}', '\U{2004}', '\U{2005}', '\U{2006}', '\U{2007}', '\U{2008}', '\U{2009}',
                  '\U{200A}', '\U{2028}', '\U{2029}', '\U{202F}', '\U{205F}', '\U{3000}', '\U{FEFF}'}
    ensures IsWhiteSpace(c) <==>
            c in {'\U{9}', '\U{A}', '\U{B}', '\U{C}', '\U{D}', '\U{20}', '\U{85}', '\U{A0}', '\U{1680}', '\U{2000}',
                  '\U{2001}', '\U{2002}', '\U{2003}', '\U{2004}', '\U{2005}', '\U{2006}', '\U{2007}', '\U{2008}',
                  '\U{2009}', '\U{200A}', '\U{2028}', '\U{2029}', '\U{202F}', '\U{205F}', '\U{3000}'}
  {
  }

  function TrimStart(space: char -> bool, s: string): string {
    if s != [] && space(s[0]) then TrimStart(space, s[1..]) else s
  }

  function TrimEnd(space: char -> bool, s: string): string {
    if s != [] && space(s[|s| - 1]) then TrimEnd(space, s[..|s| - 1]) else s
  }

  /** String.prototype.trim. */
  function Trim(s: string): string { TrimEnd(IsSpace, TrimStart(IsSpace, s)) }

  /** str_strip_whitespace. */
  function Strip(s: string): string { TrimEnd(IsWhiteSpace, TrimStart(IsWhiteSpace, s)) }

  predicate Trimmed(space: char -> bool, s: string) { s == [] || (!space(s[0]) && !space(s[|s| - 1])) }

  lemma {:induction false} TrimStartStops(space: char -> bool, s: string)
    ensures TrimStart(space, s) == [] || !space(TrimStart(space, s)[0])
  {
    if s != [] && space(s[0]) {
      TrimStartStops(space, s[1..]);
    }
  }

  lemma {:induction false} TrimEndStops(space: char -> bool, s: string)
    ensures TrimEnd(space, s) <= s
    ensures TrimEnd(space, s) == [] || !space(TrimEnd(space, s)[|TrimEnd(space, s)| - 1])
  {
    if s != [] && space(s[|s| - 1]) {
      TrimEndStops(space, s[..|s| - 1]);
    }
  }

  predicate AllSpace(space: char -> bool, s: string) { forall i :: 0 <= i < |s| ==> space(s[i]) }

  lemma {:induction false} TrimStartDrops(space: char -> bool, s: string)
    ensures |TrimStart(space, s)| <= |s|
    ensures var n := |s| - |TrimStart(space, s)|; TrimStart(space, s) == s[n..] && AllSpace(space, s[..n])
  {
    if s != [] && space(s[0]) {
      TrimStartDrops(space, s[1..]);
      var n := |s| - |TrimStart(space, s)|;
      assert s[1..][n - 1..] == s[n..];
      assert forall i :: 1 <= i < n ==> s[i] == s[1..][..n - 1][i - 1];
    } else {
      assert s[0..] == s;
    }
  }

  lemma {:induction false} TrimEndDrops(space: char -> bool, s: string)
    ensures |TrimEnd(space, s)| <= |s|
    ensures var n := |TrimEnd(space, s)|; TrimEnd(space, s) == s[..n] && AllSpace(space, s[n..])
  {
    if s != [] && space(s[|s| - 1]) {
      var front := s[..|s| - 1];
      TrimEndDrops(space, front);
      var n := |TrimEnd(space, s)|;
      assert s[n..] == front[n..] + [s[|s| - 1]];
    } else {
      assert s[..|s|] == s && s[|s|..] == [];
    }
  }

  /** Trimming takes away nothing but space at the two ends. */
  lemma TrimTakesSpace(s: string) returns (lead: string, trail: string)
    ensures s == lead + Trim(s) + trail && AllSpace(IsSpace, lead) && AllSpace(IsSpace, trail)
  {
    hide IsSpace;
    var rest := TrimStart(IsSpace, s);
    TrimStartDrops(IsSpace, s);
    TrimEndDrops(IsSpace, rest);
    lead, trail := s[..|s| - |rest|], rest[|Trim(s)|..];
  }

  lemma StripTakesSpace(s: string) returns (lead: string, trail: string)
    ensures s == lead + Strip(s) + trail && AllSpace(IsWhiteSpace, lead) && AllSpace(IsWhiteSpace, trail)
  {
    hide IsWhiteSpace;
    var rest := TrimStart(IsWhiteSpace, s);
    TrimStartDrops(IsWhiteSpace, s);
    TrimEndDrops(IsWhiteSpace, rest);
    lead, trail := s[..|s| - |rest|], rest[|Strip(s)|..];
  }

  /** Trimming leaves a trimmed text, and leaves exactly the trimmed texts alone. */
  lemma TrimSettles(s: string)
    ensures Trimmed(IsSpace, Trim(s))
    ensures Trim(s) == s <==> Trimmed(IsSpace, s)
  {
    hide IsSpace;
    TrimStartStops(IsSpace, s);
    TrimEndStops(IsSpace, TrimStart(IsSpace, s));
  }

  lemma StripSettles(s: string)
    ensures Strip(s) == s <==> Trimmed(IsWhiteSpace, s)
  {
    hide IsWhiteSpace;
    TrimStartStops(IsWhiteSpace, s);
    TrimEndStops(IsWhiteSpace, TrimStart(IsWhiteSpace, s));
  }

  predicate NextLineAtAnEnd(s: string) { s != [] && (s[0] == '\U{0085}' || s[|s| - 1] == '\U{0085}') }

  /** The server changes a text the browser has trimmed exactly when U+0085 is at one of its ends. */
  lemma StripChangesExactly(s: string)
    requires Trim(s) == s
    ensures Strip(s) != s <==> NextLineAtAnEnd(s)
  {
    TrimSettles(s);
    StripSettles(s);
  }

  predicate HasUpperHex(s: string) { exists i :: 0 <= i < |s| && 'A' <= s[i] <= 'F' }

  /** The server prints an identifier differently exactly when it was given a capital letter. */
  lemma LowerChangesExactly(s: string)
    ensures Lower(s) != s <==> HasUpperHex(s)
  {
    if HasUpperHex(s) {
      var i :| 0 <= i < |s| && 'A' <= s[i] <= 'F';
      assert Lower(s)[i] != s[i];
    }
  }
}
