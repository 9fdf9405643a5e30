/** Amounts of an internal service draft: the browser's preview (service-drafts.ts), the
    server's Decimal arithmetic (billing/service.py) and the database's rounding check. */
module DraftMoney {
  import opened Base
  import opened DecimalText
  import opened Rounding

  const MAX_LINES := 100

  datatype DraftInputLine = DraftInputLine(quantity: string, unitPrice: string)

  // ---------------------------------------------------------------- browser

  function DraftLineCents(quantity: string, unitPrice: string): Option<nat> {
    match (FixedPoint(quantity, 9, 3), FixedPoint(unitPrice, 12, 2))
    case (Some(mills), Some(cents)) => if mills <= 0 then None else Some((mills * cents + 500) / 1000)
    case _ => None
  }

  predicate ReadableLine(line: DraftInputLine) { DraftLineCents(line.quantity, line.unitPrice).Some? }

  /** The amounts of readable lines, line by line. */
  function LineCents(lines: seq<DraftInputLine>): (cents: seq<nat>)
    requires forall i :: 0 <= i < |lines| ==> ReadableLine(lines[i])
    ensures |cents| == |lines|
    ensures forall i :: 0 <= i < |lines| ==> Some(cents[i]) == DraftLineCents(lines[i].quantity, lines[i].unitPrice)
  {
    seq(|lines|, i requires 0 <= i < |lines| && ReadableLine(lines[i]) =>
      DraftLineCents(lines[i].quantity, lines[i].unitPrice).value)
  }

  function ExactSum(amounts: seq<nat>): nat {
    if amounts == [] then 0 else ExactSum(amounts[..|amounts| - 1]) + amounts[|amounts| - 1]
  }

  /** What a sum is: nothing for nothing, itself for one amount, and the two sums for two lists. */
  lemma {:induction false} ExactSumAdds(a: seq<nat>, b: seq<nat>, x: nat)
    ensures ExactSum([]) == 0 && ExactSum([x]) == x
    ensures ExactSum(a + b) == ExactSum(a) + ExactSum(b)
  {
    assert [x][..0] == [];
    if b == [] {
      assert a + b == a;
    } else {
      assert (a + b)[..|a + b| - 1] == a + b[..|b| - 1];
      ExactSumAdds(a, b[..|b| - 1], x);
    }
  }

  /** draftTotalCents: the sum of all lines' amounts, exactly when there are 1 to 100 lines and
      every one can be read. */
  method DraftTotalCents(lines: seq<DraftInputLine>) returns (r: Option<nat>)
    ensures r.Some? <==> 1 <= |lines| <= 100 && forall i :: 0 <= i < |lines| ==> ReadableLine(lines[i])
    ensures r.Some? ==> r.value == ExactSum(LineCents(lines))
  {
    hide DraftLineCents;
    if |lines| == 0 || |lines| > MAX_LINES {
      return None;
    }
    var total := 0;
    for i := 0 to |lines|
      invariant forall k :: 0 <= k < i ==> ReadableLine(lines[k])
      invariant total == ExactSum(LineCents(lines[..i]))
    {
      var cents := DraftLineCents(lines[i].quantity, lines[i].unitPrice);
      if cents.None? {
        assert !ReadableLine(lines[i]);
        return None;
      }
      assert LineCents(lines[..i + 1])[..i] == LineCents(lines[..i]);
      total := total + cents.value;
    }
    assert lines[..|lines|] == lines;
    r := Some(total);
  }

  // ---------------------------------------------------------------- Decimal

  /** A nonnegative Decimal: coeff * 10^exp. */
  datatype Dec = Dec(coeff: nat, exp: int)

  const PRECISION: nat := 28

  /** The first coefficient with more digits than the context keeps. */
  const COEFFICIENT_LIMIT: nat := 10000000000000000000000000000

  function HalfUp(c: nat, unit: nat): nat
    requires unit > 0
  {
    var q, r := c / unit, c % unit;
    if 2 * r >= unit then q + 1 else q
  }

  function HalfEven(c: nat, unit: nat): nat
    requires unit > 0
  {
    var q, r := c / unit, c % unit;
    if 2 * r > unit || (2 * r == unit && q % 2 == 1) then q + 1 else q
  }

  /** The default context keeps 28 significant digits of every result. */
  function ContextRound(d: Dec): Dec {
    if d.coeff < COEFFICIENT_LIMIT then d
    else
      NatTextWidth(d.coeff, PRECISION);
      Powers();
      var excess: nat := |NatText(d.coeff)| - PRECISION;
      Dec(HalfEven(d.coeff, Pow10(excess)), d.exp + excess)
  }

  /** The context leaves a value alone exactly when it has at most 28 digits. */
  lemma ContextKeepsExactly(d: Dec)
    ensures ContextRound(d) == d <==> d.coeff < Pow10(28)
  {
    hide NatText, HalfEven;
    Powers();
    if d.coeff >= Pow10(28) {
      NatTextWidth(d.coeff, PRECISION);
    }
  }

  /** What it keeps of a longer one is the nearest coefficient, the even one of two. */
  lemma HalfEvenIsNearest(c: nat, unit: nat)
    requires unit > 0
    ensures 2 * Abs(c - HalfEven(c, unit) * unit) <= unit
    ensures 2 * Abs(c - HalfEven(c, unit) * unit) == unit ==> HalfEven(c, unit) % 2 == 0
  {
    var q := c / unit;
    assert c == q * unit + c % unit;
    Distribute(q + 1, 1, unit);
  }

  function Times(a: Dec, b: Dec): Dec { ContextRound(Dec(a.coeff * b.coeff, a.exp + b.exp)) }

  /** quantize(CENT, ROUND_HALF_UP) of a value with at least two decimals; nothing stands
      for the InvalidOperation raised when the result needs more digits than the context has. */
  function QuantizeToCents(d: Dec): Option<nat>
    requires d.exp <= -2
  {
    var cents := HalfUp(d.coeff, Pow10(-2 - d.exp));
    if cents < COEFFICIENT_LIMIT then Some(cents) else None
  }

  /** line_amount on a quantity in thousandths and a price in hundredths. */
  function LineAmount(mills: nat, cents: nat): Option<nat> {
    var product := Times(Dec(mills, -3), Dec(cents, -2));
    if product.exp <= -2 then QuantizeToCents(product) else None
  }

  /** sum(amounts, Decimal("0")): every addition passes through the context again. */
  function DecimalSum(amounts: seq<nat>): Dec {
    if amounts == [] then Dec(0, -2)
    else
      var front := DecimalSum(amounts[..|amounts| - 1]);
      if front.exp == -2 then ContextRound(Dec(front.coeff + amounts[|amounts| - 1], -2)) else front
  }

  lemma Powers()
    ensures Pow10(3) == 1000
    ensures Pow10(12) == 1000000000000
    ensures Pow10(28) == 10000000000000000000000000000
  {
    assert Pow10(4) == 10000;
    assert Pow10(8) == 100000000;
    assert Pow10(16) == 10000000000000000;
    assert Pow10(20) == 100000000000000000000;
    assert Pow10(24) == 1000000000000000000000000;
  }

  lemma ProductBound(mills: nat, cents: nat)
    requires mills < 1000000000000 && cents < 100000000000000
    ensures mills * cents < 100000000000000000000000000
  {
    ProductNonnegative(1000000000000 - mills, cents);
    Distribute(1000000000000, mills, cents);
  }

  /** For every quantity below 10^9 with three decimals and price below 10^12 with two, the
      browser's integer formula, the server's Decimal steps and the database's
      round(quantity * unit_price, 2) give one and the same amount; Decimal never drops a
      digit on the way. */
  lemma ThreeRoundingsAgree(mills: nat, cents: nat, stored: int)
    requires mills < 1000000000000 && cents < 100000000000000
    ensures LineAmount(mills, cents) == Some((mills * cents + 500) / 1000)
    ensures RoundsHalfAway(mills * cents, 1000, stored) <==> stored == (mills * cents + 500) / 1000
    ensures Times(Dec(mills, -3), Dec(cents, -2)) == Dec(mills * cents, -5)
    ensures (mills * cents + 500) / 1000 <= 100000000000000000000000
  {
    hide RoundsHalfAway;
    Powers();
    ProductBound(mills, cents);
    var p := mills * cents;
    AddHalfThenDivide(p, 500);
    if RoundsHalfAway(p, 1000, stored) {
      RoundsHalfAwayUnique(p, 1000, stored, (p + 500) / 1000);
    }
    HalfUpBySplit(p);
  }

  lemma HalfUpBySplit(p: nat)
    ensures HalfUp(p, 1000) == (p + 500) / 1000
  {
    assert p == 1000 * (p / 1000) + p % 1000;
  }

  /** A line can be previewed exactly when both texts can be read and the quantity is positive. */
  lemma PreviewedExactly(quantity: string, unitPrice: string)
    ensures DraftLineCents(quantity, unitPrice).Some? <==>
            && FixedPoint(quantity, 9, 3).Some? && FixedPoint(quantity, 9, 3).value > 0
            && FixedPoint(unitPrice, 12, 2).Some?
  {
    hide FixedPoint;
  }

  /** The browser's preview of a line is the amount the server stores for it. */
  lemma PreviewIsServerAmount(quantity: string, unitPrice: string)
    requires DraftLineCents(quantity, unitPrice).Some?
    ensures var mills, cents := FixedPoint(quantity, 9, 3).value, FixedPoint(unitPrice, 12, 2).value;
            0 < mills && LineAmount(mills, cents) == DraftLineCents(quantity, unitPrice)
  {
    FixedPointBound(quantity, 9, 3);
    FixedPointBound(unitPrice, 12, 2);
    Powers();
    assert Pow10(14) == 100000000000000 by { assert Pow10(13) == 10 * Pow10(12); }
    ThreeRoundingsAgree(FixedPoint(quantity, 9, 3).value, FixedPoint(unitPrice, 12, 2).value, 0);
  }

  /** Summing up to a hundred line amounts never leaves the context either, so the stored
      draft total is the exact sum of its lines. */
  lemma {:induction false} DecimalSumExact(amounts: seq<nat>)
    requires |amounts| <= MAX_LINES
    requires forall i :: 0 <= i < |amounts| ==> amounts[i] <= 100000000000000000000000
    ensures DecimalSum(amounts) == Dec(ExactSum(amounts), -2)
    ensures ExactSum(amounts) <= |amounts| * 100000000000000000000000
  {
    Powers();
    if amounts != [] {
      DecimalSumExact(amounts[..|amounts| - 1]);
    }
  }
}
