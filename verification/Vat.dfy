/** Standard 15% value added tax on whole minor units (tax_calculation.py). */
module Vat {
  import opened Base
  import opened DecimalText
  import opened Rounding

  const MAX_MINOR: nat := 999999999999999999

  /** The largest taxable amount whose gross still fits the stored range. */
  const MAX_TAXABLE: nat := 869565217391304347

  datatype Breakdown = Breakdown(taxable: string, tax: string, gross: string)

  predicate NetPattern(s: string) {
    FixedPointShape(s, 16, 2) && (s[0] == '0' ==> DotAt(s) == 1)
  }

  function Minor(s: string): (r: Option<nat>) {
    if NetPattern(s) then FixedPoint(s, 16, 2) else None
  }

  function SumMinor(lines: seq<string>): Option<nat> {
    if lines == [] then Some(0)
    else match (SumMinor(lines[..|lines| - 1]), Minor(lines[|lines| - 1]))
      case (Some(sum), Some(last)) => Some(sum + last)
      case _ => None
  }

  function Tax(net: nat): nat { (net * 15 + 50) / 100 }

  function Gross(net: nat): nat { net + Tax(net) }

  function StandardVat(lines: seq<string>): Option<Breakdown> {
    if !(1 <= |lines| <= 100) then None
    else match SumMinor(lines)
      case None => None
      case Some(taxable) =>
        if taxable > MAX_MINOR || Tax(taxable) > MAX_MINOR || Gross(taxable) > MAX_MINOR then None
        else Some(Breakdown(CentsAmount(taxable), CentsAmount(Tax(taxable)), CentsAmount(Gross(taxable))))
  }

  /** The tax is fifteen hundredths of the net, rounded half up, and nothing else is. */
  lemma TaxRoundsHalfUp(net: nat, t: int)
    ensures RoundsHalfAway(15 * net, 100, Tax(net))
    ensures RoundsHalfAway(15 * net, 100, t) <==> t == Tax(net)
    ensures Abs(100 * Tax(net) - 15 * net) <= 50
  {
    AddHalfThenDivide(15 * net, 50);
    if RoundsHalfAway(15 * net, 100, t) {
      RoundsHalfAwayUnique(15 * net, 100, t, Tax(net));
    }
  }

  lemma GrossStrictlyIncreases(a: nat, b: nat)
    ensures a < b <==> Gross(a) < Gross(b)
  {
  }

  /** A list is accepted exactly when it has 1 to 100 well-formed amounts whose sum is at
      most MAX_TAXABLE. */
  lemma AcceptedExactly(lines: seq<string>)
    ensures StandardVat(lines).Some? <==>
            1 <= |lines| <= 100 && SumMinor(lines).Some? && SumMinor(lines).value <= MAX_TAXABLE
  {
    if SumMinor(lines).Some? {
      assert Gross(MAX_TAXABLE) == MAX_MINOR;
      GrossStrictlyIncreases(MAX_TAXABLE, SumMinor(lines).value);
    }
  }

  /** The three printed amounts are read back as the net, its tax and their sum. */
  lemma BreakdownReadsBack(lines: seq<string>)
    requires StandardVat(lines).Some?
    ensures var b, net := StandardVat(lines).value, SumMinor(lines).value;
            && Minor(b.taxable) == Some(net)
            && Minor(b.tax) == Some(Tax(net))
            && Minor(b.gross) == Some(net + Tax(net))
  {
    hide CentsAmount, Minor, SumMinor;
    var net := SumMinor(lines).value;
    ReadsBackWithin(net, MAX_MINOR);
    ReadsBackWithin(Tax(net), MAX_MINOR);
    ReadsBackWithin(Gross(net), MAX_MINOR);
  }

  lemma ReadsBackWithin(c: nat, bound: nat)
    requires c <= bound <= MAX_MINOR
    ensures Minor(CentsAmount(c)) == Some(c)
  {
    MoneyMinorInverse(c);
  }

  /** _minor undoes _money on the stored range. */
  lemma MoneyMinorInverse(c: nat)
    ensures c <= MAX_MINOR ==> Minor(CentsAmount(c)) == Some(c)
    ensures c > MAX_MINOR ==> Minor(CentsAmount(c)) == None
  {
    CentsRoundTrip(c);
    NatTextLeading(c / 100);
    assert CentsAmount(c)[0] == NatText(c / 100)[0];
    PadStartValue(NatText(c % 100), 2);
    DotAtSplit(NatText(c / 100), PadStart(NatText(c % 100), 2));
  }

  /** _minor reads a text exactly when journalCents does and it has no superfluous leading zero,
      and then reads the same amount. */
  lemma MinorReadsExactly(s: string)
    ensures Minor(s).Some? <==> FixedPoint(s, 16, 2).Some? && (|s| > 1 && s[0] == '0' ==> s[1] == '.')
    ensures Minor(s).Some? ==> Minor(s) == FixedPoint(s, 16, 2)
  {
    hide DigitsValue, Pow10;
  }

  /** _money undoes _minor exactly on texts that already carry two decimals. */
  lemma MinorMoneyInverse(s: string)
    requires Minor(s).Some?
    ensures CentsAmount(Minor(s).value) == s <==> |FractionPart(s)| == 2
  {
    AmountTextRoundTrip(s);
  }

  function Total(nets: seq<nat>): nat {
    if nets == [] then 0 else Total(nets[..|nets| - 1]) + nets[|nets| - 1]
  }

  function SumOfLineTaxes(nets: seq<nat>): nat {
    if nets == [] then 0 else SumOfLineTaxes(nets[..|nets| - 1]) + Tax(nets[|nets| - 1])
  }

  lemma {:induction false} LineTaxDrift(nets: seq<nat>)
    ensures Abs(100 * SumOfLineTaxes(nets) - 15 * Total(nets)) <= 50 * |nets|
  {
    if nets != [] {
      LineTaxDrift(nets[..|nets| - 1]);
      TaxRoundsHalfUp(nets[|nets| - 1], 0);
    }
  }

  /** Rounding the category tax once differs from summing n rounded line taxes by at most
      (n + 1) / 2 minor units. */
  lemma OnceVersusPerLine(nets: seq<nat>)
    ensures 2 * Abs(Tax(Total(nets)) - SumOfLineTaxes(nets)) <= |nets| + 1
  {
    LineTaxDrift(nets);
    TaxRoundsHalfUp(Total(nets), 0);
  }

  function Printed(nets: seq<nat>): (texts: seq<string>)
    ensures |texts| == |nets| && forall i :: 0 <= i < |nets| ==> texts[i] == CentsAmount(nets[i])
  {
    seq(|nets|, i requires 0 <= i < |nets| => CentsAmount(nets[i]))
  }

  /** A list printed from stored amounts is read as those amounts. */
  lemma {:induction false} SumOfPrinted(nets: seq<nat>)
    requires forall i :: 0 <= i < |nets| ==> nets[i] <= MAX_MINOR
    ensures SumMinor(Printed(nets)) == Some(Total(nets))
  {
    hide CentsAmount, Minor;
    if nets != [] {
      var front := nets[..|nets| - 1];
      SumOfPrinted(front);
      assert Printed(nets)[..|nets| - 1] == Printed(front);
      ReadsBackWithin(nets[|nets| - 1], MAX_MINOR);
    }
  }
}
