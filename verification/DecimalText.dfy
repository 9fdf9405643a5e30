/** Amounts as text. The browser and the server exchange money as decimal strings and
    calculate with whole minor units; this module is the passage between the two. */
module DecimalText {
  import opened Base

  predicate IsDigit(c: char) { '0' <= c <= '9' }

  predicate AllDigits(s: string) { forall i :: 0 <= i < |s| ==> IsDigit(s[i]) }

  function DigitValue(c: char): (d: int)
    requires IsDigit(c)
    ensures 0 <= d < 10
  {
    c as int - '0' as int
  }

  function DigitChar(d: int): (c: char)
    requires 0 <= d < 10
    ensures IsDigit(c) && DigitValue(c) == d
  {
    '0' + d as char
  }

  /** The number a run of digits denotes, as BigInt(...) and int(...) read it. */
  function DigitsValue(s: string): nat
    requires AllDigits(s)
  {
    if s == [] then 0
    else DigitsValue(s[..|s| - 1]) * 10 + DigitValue(s[|s| - 1])
  }

  /** The shortest decimal text of a number. */
  function NatText(n: nat): (s: string)
    ensures |s| >= 1 && AllDigits(s) && DigitsValue(s) == n
  {
    if n < 10 then [DigitChar(n)]
    else NatText(n / 10) + [DigitChar(n % 10)]
  }

  function Zeros(n: nat): (s: string)
    ensures |s| == n && forall i :: 0 <= i < n ==> s[i] == '0'
  {
    seq(n, _ => '0')
  }

  function PadStart(s: string, width: nat): string {
    if |s| < width then Zeros(width - |s|) + s else s
  }

  function PadEnd(s: string, width: nat): string {
    if |s| < width then s + Zeros(width - |s|) else s
  }

  function Pow10(n: nat): (p: nat)
    ensures p >= 1
  {
    if n == 0 then 1 else 10 * Pow10(n - 1)
  }

  /** Position of the first '.', or the length when there is none. */
  function DotAt(s: string): (k: nat)
    ensures k <= |s|
    ensures k < |s| ==> s[k] == '.'
    ensures forall i :: 0 <= i < k ==> s[i] != '.'
  {
    if s == [] then 0 else if s[0] == '.' then 0 else 1 + DotAt(s[1..])
  }

  function FractionPart(s: string): string {
    if DotAt(s) == |s| then [] else s[DotAt(s) + 1..]
  }

  /** One to `wholeMax` digits, then optionally a point and one to `places` digits. */
  predicate FixedPointShape(s: string, wholeMax: nat, places: nat) {
    var k := DotAt(s);
    && 1 <= k <= wholeMax
    && AllDigits(s[..k])
    && (k < |s| ==> 1 <= |FractionPart(s)| <= places && AllDigits(FractionPart(s)))
  }

  /** The text's value in units of 10^-places, or nothing when the shape is wrong. */
  function FixedPoint(s: string, wholeMax: nat, places: nat): (r: Option<nat>)
    ensures r.Some? <==> FixedPointShape(s, wholeMax, places)
  {
    if !FixedPointShape(s, wholeMax, places) then None
    else
      var padded := PadEnd(FractionPart(s), places);
      assert AllDigits(padded);
      Some(DigitsValue(s[..DotAt(s)]) * Pow10(places) + DigitsValue(padded))
  }

  /** Two-decimal text of an amount in minor units. */
  function CentsAmount(c: nat): string {
    NatText(c / 100) + "." + PadStart(NatText(c % 100), 2)
  }

  /** journalCents: the browser's reading of an amount, at most sixteen whole digits. */
  function JournalCents(s: string): Option<nat> { FixedPoint(s, 16, 2) }

  /** The server prints a Decimal with two places by writing the coefficient's digits,
      padded to at least three, with the point before the last two. */
  function FixedTwoText(c: nat): string {
    var digits := PadStart(NatText(c), 3);
    digits[..|digits| - 2] + "." + digits[|digits| - 2..]
  }

  // ---------------------------------------------------------------- digits

  lemma {:induction false} DigitsValueConcat(a: string, b: string)
    requires AllDigits(a) && AllDigits(b)
    ensures AllDigits(a + b)
    ensures DigitsValue(a + b) == DigitsValue(a) * Pow10(|b|) + DigitsValue(b)
  {
    if b == [] {
      assert a + b == a;
    } else {
      var b0 := b[..|b| - 1];
      assert (a + b)[..|a + b| - 1] == a + b0;
      DigitsValueConcat(a, b0);
      assert Pow10(|b|) == 10 * Pow10(|b0|);
      ShiftDigits(DigitsValue(a), Pow10(|b0|), DigitsValue(b0), DigitValue(b[|b| - 1]));
    }
  }

  lemma ShiftDigits(x: int, p: int, y: int, d: int)
    ensures (x * p + y) * 10 + d == x * (10 * p) + (y * 10 + d)
  {
  }

  lemma {:induction false} ZerosValue(n: nat)
    ensures DigitsValue(Zeros(n)) == 0
  {
    if n > 0 {
      assert Zeros(n)[..n - 1] == Zeros(n - 1);
      ZerosValue(n - 1);
    }
  }

  lemma {:induction false} DigitsValueBound(s: string)
    requires AllDigits(s)
    ensures DigitsValue(s) < Pow10(|s|)
  {
    if s != [] {
      DigitsValueBound(s[..|s| - 1]);
    }
  }

  /** A number has at most k digits exactly when it is below 10^k. */
  lemma {:induction false} NatTextWidth(n: nat, k: nat)
    requires k >= 1
    ensures |NatText(n)| <= k <==> n < Pow10(k)
  {
    if n >= 10 {
      if k == 1 {
        assert Pow10(1) == 10 * Pow10(0);
      } else {
        NatTextWidth(n / 10, k - 1);
      }
    } else {
      assert Pow10(k) == 10 * Pow10(k - 1);
    }
  }

  lemma PadStartValue(s: string, width: nat)
    requires AllDigits(s)
    ensures AllDigits(PadStart(s, width)) && DigitsValue(PadStart(s, width)) == DigitsValue(s)
    ensures |PadStart(s, width)| == if |s| < width then width else |s|
  {
    if |s| < width {
      DigitsValueConcat(Zeros(width - |s|), s);
      ZerosValue(width - |s|);
    }
  }

  lemma LastDigitFixed(x: int, y: int, d: int, e: int)
    requires 0 <= d < 10 && 0 <= e < 10 && x * 10 + d == y * 10 + e
    ensures x == y && d == e
  {
  }

  lemma DigitsValueStep(s: string)
    requires AllDigits(s) && s != []
    ensures DigitsValue(s) == DigitsValue(s[..|s| - 1]) * 10 + DigitValue(s[|s| - 1])
  {
  }

  /** Two digit runs of one length with one value are the same text. */
  lemma {:induction false} EqualWidthEqualText(a: string, b: string)
    requires AllDigits(a) && AllDigits(b) && |a| == |b| && DigitsValue(a) == DigitsValue(b)
    ensures a == b
  {
    hide DigitsValue;
    if a != [] {
      var a0, b0 := a[..|a| - 1], b[..|b| - 1];
      DigitsValueStep(a);
      DigitsValueStep(b);
      LastDigitFixed(DigitsValue(a0), DigitsValue(b0), DigitValue(a[|a| - 1]), DigitValue(b[|b| - 1]));
      EqualWidthEqualText(a0, b0);
      assert a == a0 + [a[|a| - 1]] && b == b0 + [b[|b| - 1]];
    }
  }

  // ---------------------------------------------------------------- amounts

  lemma DotAtSplit(whole: string, fraction: string)
    requires AllDigits(whole)
    ensures DotAt(whole + "." + fraction) == |whole|
    ensures (whole + "." + fraction)[..|whole|] == whole
    ensures FractionPart(whole + "." + fraction) == fraction
  {
    var s := whole + "." + fraction;
    assert s[|whole|] == '.';
    assert forall i :: 0 <= i < |whole| ==> s[i] == whole[i] && s[i] != '.';
  }

  /** Reading what was printed gives the amount back exactly when it has at most sixteen
      whole digits: centsAmount and journalCents are inverse on [0, 10^18). */
  lemma CentsRoundTrip(c: nat)
    ensures JournalCents(CentsAmount(c)) == if c < 1000000000000000000 then Some(c) else None
  {
    var whole, fraction := NatText(c / 100), PadStart(NatText(c % 100), 2);
    NatTextWidth(c % 100, 2);
    assert Pow10(2) == 100 by { assert Pow10(1) == 10; }
    PadStartValue(NatText(c % 100), 2);
    DotAtSplit(whole, fraction);
    NatTextWidth(c / 100, 16);
    TenToSixteen();
    assert PadEnd(fraction, 2) == fraction;
  }

  lemma TenToSixteen()
    ensures Pow10(16) == 10000000000000000
  {
    assert Pow10(4) == 10000;
    assert Pow10(8) == 100000000;
    assert Pow10(12) == 1000000000000;
  }

  lemma FixedPointBound(s: string, wholeMax: nat, places: nat)
    requires FixedPoint(s, wholeMax, places).Some?
    ensures FixedPoint(s, wholeMax, places).value < Pow10(wholeMax + places)
  {
    hide DigitsValue, Pow10;
    var whole, padded := s[..DotAt(s)], PadEnd(FractionPart(s), places);
    DigitsValueConcat(whole, padded);
    DigitsValueBound(whole + padded);
    PowMonotone(|whole| + places, wholeMax + places);
  }

  lemma {:induction false} PowMonotone(a: nat, b: nat)
    requires a <= b
    ensures Pow10(a) <= Pow10(b)
  {
    if a < b {
      PowMonotone(a, b - 1);
    }
  }

  lemma {:induction false} ZerosAfter(s: string, n: nat)
    requires AllDigits(s)
    ensures AllDigits(s + Zeros(n)) && DigitsValue(s + Zeros(n)) == DigitsValue(s) * Pow10(n)
  {
    DigitsValueConcat(s, Zeros(n));
    ZerosValue(n);
  }

  lemma NoDotInDigits(s: string)
    requires AllDigits(s)
    ensures DotAt(s) == |s|
  {
    if DotAt(s) < |s| {
      assert IsDigit(s[DotAt(s)]);
    }
  }

  /** The value of every accepted text: a fraction of k digits counts in units of 10^-k, however
      many places are allowed. */
  lemma FixedPointReads(whole: string, fraction: string, wholeMax: nat, places: nat)
    requires AllDigits(whole) && AllDigits(fraction) && 1 <= |whole| <= wholeMax && 1 <= |fraction| <= places
    ensures FixedPoint(whole + "." + fraction, wholeMax, places) ==
            Some(DigitsValue(whole) * Pow10(places) + DigitsValue(fraction) * Pow10(places - |fraction|))
    ensures FixedPoint(whole, wholeMax, places) == Some(DigitsValue(whole) * Pow10(places))
  {
    hide DigitsValue, Pow10;
    DotAtSplit(whole, fraction);
    ZerosAfter(fraction, places - |fraction|);
    assert fraction + Zeros(0) == fraction;
    NoDotInDigits(whole);
    assert whole[..|whole|] == whole;
    assert AllDigits([]);
    ZerosAfter([], places);
    NothingIsZero();
    assert [] + Zeros(places) == Zeros(places);
  }

  lemma NothingIsZero()
    ensures DigitsValue([]) == 0
  {
  }

  /** Nothing else is accepted. */
  lemma FixedPointReadsOnly(s: string, wholeMax: nat, places: nat)
    ensures FixedPoint(s, wholeMax, places).Some? <==>
            || (AllDigits(s) && 1 <= |s| <= wholeMax)
            || exists whole, fraction :: DecimalParts(s, whole, fraction, wholeMax, places)
  {
    hide DigitsValue, Pow10;
    if FixedPointShape(s, wholeMax, places) {
      var k := DotAt(s);
      if k < |s| {
        assert s == s[..k] + "." + FractionPart(s);
        assert DecimalParts(s, s[..k], FractionPart(s), wholeMax, places);
      } else {
        assert s[..k] == s;
      }
    }
    if AllDigits(s) && 1 <= |s| <= wholeMax {
      NoDotInDigits(s);
      assert s[..|s|] == s;
    }
    forall whole, fraction | DecimalParts(s, whole, fraction, wholeMax, places)
      ensures FixedPointShape(s, wholeMax, places)
    {
      DotAtSplit(whole, fraction);
    }
  }

  ghost predicate DecimalParts(s: string, whole: string, fraction: string, wholeMax: nat, places: nat) {
    && s == whole + "." + fraction && AllDigits(whole) && AllDigits(fraction)
    && 1 <= |whole| <= wholeMax && 1 <= |fraction| <= places
  }

  /** Canonical amounts: no superfluous leading zero and exactly two decimals. */
  predicate CanonicalAmount(s: string) {
    && FixedPointShape(s, 16, 2)
    && |FractionPart(s)| == 2
    && (s[0] == '0' ==> DotAt(s) == 1)
  }

  lemma {:induction false} NoLeadingZeroValue(s: string)
    requires AllDigits(s) && |s| >= 1 && (s[0] == '0' ==> |s| == 1)
    ensures NatText(DigitsValue(s)) == s
  {
    if |s| == 1 {
      assert s[..0] == [];
      assert DigitsValue(s) == DigitValue(s[0]);
      assert s == [s[0]];
    } else {
      var s0 := s[..|s| - 1];
      assert s0[0] == s[0];
      NoLeadingZeroPositive(s0);
      NoLeadingZeroValue(s0);
      assert s == s0 + [s[|s| - 1]];
    }
  }

  lemma {:induction false} NoLeadingZeroPositive(s: string)
    requires AllDigits(s) && |s| >= 1 && s[0] != '0'
    ensures DigitsValue(s) >= 1
  {
    if |s| == 1 {
      assert s[..0] == [];
      assert DigitsValue(s) == DigitValue(s[0]);
    } else {
      NoLeadingZeroPositive(s[..|s| - 1]);
    }
  }

  lemma WholeAndFraction(whole: nat, fraction: nat)
    requires fraction < 100
    ensures (whole * 100 + fraction) / 100 == whole && (whole * 100 + fraction) % 100 == fraction
  {
  }

  /** The two digits after the point are the amount modulo 100. */
  lemma TwoDigits(fraction: string)
    requires AllDigits(fraction) && |fraction| == 2
    ensures DigitsValue(fraction) < 100 && PadStart(NatText(DigitsValue(fraction)), 2) == fraction
  {
    hide NatText;
    var n := DigitsValue(fraction);
    DigitsValueBound(fraction);
    assert Pow10(2) == 100 by { assert Pow10(1) == 10; }
    PadStartValue(NatText(n), 2);
    NatTextWidth(n, 2);
    EqualWidthEqualText(PadStart(NatText(n), 2), fraction);
  }

  /** Reading an amount separates its whole part from its two-digit fraction. */
  lemma AmountParts(s: string)
    requires JournalCents(s).Some?
    ensures var c, whole, fraction := JournalCents(s).value, s[..DotAt(s)], PadEnd(FractionPart(s), 2);
            && AllDigits(fraction) && |fraction| == 2
            && c / 100 == DigitsValue(whole)
            && PadStart(NatText(c % 100), 2) == fraction
  {
    hide NatText, DigitsValue, PadStart;
    var fraction := PadEnd(FractionPart(s), 2);
    assert Pow10(2) == 100 by { assert Pow10(1) == 10; }
    TwoDigits(fraction);
    WholeAndFraction(DigitsValue(s[..DotAt(s)]), DigitsValue(fraction));
  }

  /** Printing what was read reproduces the text exactly when the text is canonical. */
  lemma AmountTextRoundTrip(s: string)
    requires JournalCents(s).Some?
    ensures CentsAmount(JournalCents(s).value) == s <==> CanonicalAmount(s)
  {
    hide NatText, DigitsValue, PadStart, FixedPoint;
    var c, fraction := JournalCents(s).value, PadEnd(FractionPart(s), 2);
    AmountParts(s);
    DotAtSplit(NatText(c / 100), fraction);
    NatTextLeading(c / 100);
    assert CentsAmount(c) == NatText(c / 100) + "." + fraction;
    assert CentsAmount(c)[0] == NatText(c / 100)[0];
    if CanonicalAmount(s) {
      assert s[..DotAt(s)][0] == s[0];
      NoLeadingZeroValue(s[..DotAt(s)]);
      assert s == s[..DotAt(s)] + "." + fraction;
    }
  }

  lemma {:induction false} NatTextLeading(n: nat)
    ensures NatText(n)[0] == '0' ==> |NatText(n)| == 1
  {
    if n >= 10 {
      NatTextLeading(n / 10);
      assert NatText(n)[0] == NatText(n / 10)[0];
    }
  }

  /** An amount that the browser prints is canonical, whatever its size allows reading. */
  lemma CentsAmountInjective(a: nat, b: nat)
    ensures CentsAmount(a) == CentsAmount(b) ==> a == b
  {
    var fa, fb := PadStart(NatText(a % 100), 2), PadStart(NatText(b % 100), 2);
    PadStartValue(NatText(a % 100), 2);
    PadStartValue(NatText(b % 100), 2);
    DotAtSplit(NatText(a / 100), fa);
    DotAtSplit(NatText(b / 100), fb);
    if CentsAmount(a) == CentsAmount(b) {
      assert NatText(a / 100) == NatText(b / 100);
      assert fa == fb;
      assert a / 100 == DigitsValue(NatText(a / 100));
      assert b / 100 == DigitsValue(NatText(b / 100));
    }
  }

  /** The server's rendering and the browser's are one text for every amount, also for
      totals beyond the bound of a single amount. */
  lemma ServerPrintsAsBrowser(c: nat)
    ensures FixedTwoText(c) == CentsAmount(c)
  {
    var digits := PadStart(NatText(c), 3);
    PadStartValue(NatText(c), 3);
    var head, tail := digits[..|digits| - 2], digits[|digits| - 2..];
    assert digits == head + tail;
    SplitLastTwo(head, tail, c);
    PadStartValue(NatText(c % 100), 2);
    NatTextWidth(c % 100, 2);
    assert Pow10(2) == 100 by { assert Pow10(1) == 10; }
    EqualWidthEqualText(PadStart(NatText(c % 100), 2), tail);
    NatTextLeading(c);
    if |NatText(c)| >= 3 {
      assert head[0] == NatText(c)[0];
    } else {
      assert |head| == 1;
    }
    NoLeadingZeroValue(head);
  }

  lemma SplitLastTwo(head: string, tail: string, c: nat)
    requires AllDigits(head + tail) && |tail| == 2 && DigitsValue(head + tail) == c
    ensures AllDigits(head) && DigitsValue(head) == c / 100
    ensures AllDigits(tail) && DigitsValue(tail) == c % 100
  {
    assert forall i :: 0 <= i < |head| ==> (head + tail)[i] == head[i];
    assert forall i :: 0 <= i < |tail| ==> (head + tail)[|head| + i] == tail[i];
    DigitsValueConcat(head, tail);
    DigitsValueBound(tail);
    assert Pow10(2) == 100 by { assert Pow10(1) == 10; }
  }
}
