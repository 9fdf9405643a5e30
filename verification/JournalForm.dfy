/** The journal a user confirms, and the normal form that is stored and sent
    (journal-command.ts: normalizeJournal, journalTotals). */
module JournalForm {
  import opened Base
  import opened DecimalText
  import opened WireText
  import DraftMoney

  datatype DraftLine = DraftLine(accountId: string, debit: string, credit: string, description: Option<string>)

  datatype JournalDraft = JournalDraft(
    branchId: Option<string>, bookingDate: string, description: string, lines: seq<DraftLine>)

  const MAX_DESCRIPTION := 500
  const MAX_LINES := 100

  // ---------------------------------------------------------------- totals

  datatype Cents = Cents(debit: nat, credit: nat)

  function LineCents(line: DraftLine): Option<Cents> {
    match (JournalCents(line.debit), JournalCents(line.credit))
    case (Some(d), Some(c)) => Some(Cents(d, c))
    case _ => None
  }

  function TotalCents(lines: seq<DraftLine>): Option<Cents> {
    if lines == [] then Some(Cents(0, 0))
    else match (TotalCents(lines[..|lines| - 1]), LineCents(lines[|lines| - 1]))
      case (Some(sum), Some(last)) => Some(Cents(sum.debit + last.debit, sum.credit + last.credit))
      case _ => None
  }

  lemma {:induction false} UnreadableLineSpoilsTotals(lines: seq<DraftLine>, k: nat)
    requires k < |lines| && LineCents(lines[k]).None?
    ensures TotalCents(lines).None?
  {
    if k < |lines| - 1 {
      UnreadableLineSpoilsTotals(lines[..|lines| - 1], k);
    }
  }

  datatype Totals = Totals(debit: string, credit: string)

  function TotalsText(lines: seq<DraftLine>): Option<Totals> {
    match TotalCents(lines)
    case Some(c) => Some(Totals(CentsAmount(c.debit), CentsAmount(c.credit)))
    case None => None
  }

  predicate ReadableLine(line: DraftLine) { JournalCents(line.debit).Some? && JournalCents(line.credit).Some? }

  ghost predicate Readable(lines: seq<DraftLine>) { forall i :: 0 <= i < |lines| ==> ReadableLine(lines[i]) }

  function DebitCents(lines: seq<DraftLine>): (cents: seq<nat>)
    requires Readable(lines)
    ensures |cents| == |lines| && forall i :: 0 <= i < |lines| ==> JournalCents(lines[i].debit) == Some(cents[i])
  {
    seq(|lines|, i requires 0 <= i < |lines| && ReadableLine(lines[i]) => JournalCents(lines[i].debit).value)
  }

  function CreditCents(lines: seq<DraftLine>): (cents: seq<nat>)
    requires Readable(lines)
    ensures |cents| == |lines| && forall i :: 0 <= i < |lines| ==> JournalCents(lines[i].credit) == Some(cents[i])
  {
    seq(|lines|, i requires 0 <= i < |lines| && ReadableLine(lines[i]) => JournalCents(lines[i].credit).value)
  }

  lemma {:induction false} TotalsReadable(lines: seq<DraftLine>)
    ensures TotalCents(lines).Some? <==> Readable(lines)
  {
    hide JournalCents;
    if lines != [] {
      TotalsReadable(lines[..|lines| - 1]);
      assert lines == lines[..|lines| - 1] + [lines[|lines| - 1]];
    }
  }

  lemma SumOfMore(cents: seq<nat>)
    requires cents != []
    ensures DraftMoney.ExactSum(cents) == DraftMoney.ExactSum(cents[..|cents| - 1]) + cents[|cents| - 1]
  {
  }

  /** The totals are the sums of the two columns, and there are none as soon as one amount
      cannot be read. */
  lemma {:induction false} TotalsAreSums(lines: seq<DraftLine>)
    ensures TotalCents(lines).Some? <==> Readable(lines)
    ensures Readable(lines) ==>
              TotalCents(lines)
              == Some(Cents(DraftMoney.ExactSum(DebitCents(lines)), DraftMoney.ExactSum(CreditCents(lines))))
  {
    hide JournalCents, DraftMoney.ExactSum;
    TotalsReadable(lines);
    DraftMoney.ExactSumAdds([], [], 0);
    if lines != [] && Readable(lines) {
      var front := lines[..|lines| - 1];
      TotalsAreSums(front);
      assert DebitCents(lines)[..|lines| - 1] == DebitCents(front);
      assert CreditCents(lines)[..|lines| - 1] == CreditCents(front);
      SumOfMore(DebitCents(lines));
      SumOfMore(CreditCents(lines));
    }
  }

  /** journalTotals accumulates both sides in whole cents; one unreadable amount fails it. */
  method JournalTotals(draft: JournalDraft) returns (r: Option<Totals>)
    ensures r == TotalsText(draft.lines)
    ensures r.Some? <==> Readable(draft.lines)
    ensures r.Some? ==>
              && r.value.debit == CentsAmount(DraftMoney.ExactSum(DebitCents(draft.lines)))
              && r.value.credit == CentsAmount(DraftMoney.ExactSum(CreditCents(draft.lines)))
  {
    hide LineCents, JournalCents, CentsAmount, DraftMoney.ExactSum, Readable;
    TotalsAreSums(draft.lines);
    var debit: nat, credit: nat := 0, 0;
    for i := 0 to |draft.lines|
      invariant TotalCents(draft.lines[..i]) == Some(Cents(debit, credit))
    {
      var line := LineCents(draft.lines[i]);
      if line.None? {
        UnreadableLineSpoilsTotals(draft.lines, i);
        return None;
      }
      assert draft.lines[..i + 1][..i] == draft.lines[..i];
      debit, credit := debit + line.value.debit, credit + line.value.credit;
    }
    assert draft.lines[..|draft.lines|] == draft.lines;
    r := Some(Totals(CentsAmount(debit), CentsAmount(credit)));
  }

  // ---------------------------------------------------------------- normal form

  /** An empty amount field counts as zero. */
  function FieldAmount(s: string): Option<nat> { JournalCents(if s == "" then "0" else s) }

  function NormalDescription(d: Option<string>): Option<string> {
    match d
    case None => None
    case Some(text) => if Trim(text) == "" then None else Some(Trim(text))
  }

  function NormalizeLine(line: DraftLine): Option<DraftLine> {
    if !ValidId(line.accountId) || (line.description.Some? && |Trim(line.description.value)| > MAX_DESCRIPTION)
      then None
    else match (FieldAmount(line.debit), FieldAmount(line.credit))
      case (Some(d), Some(c)) =>
        if (d > 0) == (c > 0) then None
        else Some(DraftLine(line.accountId, CentsAmount(d), CentsAmount(c), NormalDescription(line.description)))
      case _ => None
  }

  function NormalizeLines(lines: seq<DraftLine>): Option<seq<DraftLine>> {
    if lines == [] then Some([])
    else match (NormalizeLines(lines[..|lines| - 1]), NormalizeLine(lines[|lines| - 1]))
      case (Some(front), Some(last)) => Some(front + [last])
      case _ => None
  }

  lemma {:induction false} NormalizeLinesPointwise(lines: seq<DraftLine>)
    ensures NormalizeLines(lines).Some? <==> forall i :: 0 <= i < |lines| ==> NormalizeLine(lines[i]).Some?
    ensures NormalizeLines(lines).Some? ==> |NormalizeLines(lines).value| == |lines|
    ensures NormalizeLines(lines).Some? ==>
              forall i :: 0 <= i < |lines| ==> NormalizeLines(lines).value[i] == NormalizeLine(lines[i]).value
  {
    hide NormalizeLine;
    if lines != [] {
      var front := lines[..|lines| - 1];
      NormalizeLinesPointwise(front);
      assert forall i :: 0 <= i < |front| ==> front[i] == lines[i];
    }
  }

  predicate AcceptableHeader(d: JournalDraft) {
    && (d.branchId.Some? ==> ValidId(d.branchId.value))
    && ValidDate(d.bookingDate)
    && 1 <= |Trim(d.description)| <= MAX_DESCRIPTION
    && 2 <= |d.lines| <= MAX_LINES
  }

  /** normalizeJournal: nothing stands for the thrown "invalid" problem. */
  function Normalize(d: JournalDraft): Option<JournalDraft> {
    if !AcceptableHeader(d) then None
    else match NormalizeLines(d.lines)
      case None => None
      case Some(lines) =>
        var totals := TotalsText(lines);
        if totals.None? || totals.value.debit != totals.value.credit then None
        else Some(JournalDraft(d.branchId, d.bookingDate, Trim(d.description), lines))
  }

  // ---------------------------------------------------------------- properties

  lemma AmountBound(s: string)
    requires JournalCents(s).Some?
    ensures JournalCents(s).value < 1000000000000000000
  {
    hide FixedPoint;
    FixedPointBound(s, 16, 2);
    TenToSixteen();
    assert Pow10(18) == 100 * Pow10(16) by { assert Pow10(17) == 10 * Pow10(16); }
  }

  /** The normal form of a line is its own normal form and carries the same two amounts. */
  lemma NormalLineStable(line: DraftLine)
    requires NormalizeLine(line).Some?
    ensures var n := NormalizeLine(line).value;
            && NormalizeLine(n) == Some(n)
            && ValidId(line.accountId) && n.accountId == line.accountId
            && FieldAmount(n.debit) == FieldAmount(line.debit) == JournalCents(n.debit)
            && FieldAmount(n.credit) == FieldAmount(line.credit) == JournalCents(n.credit)
            && FieldAmount(n.debit).Some? && FieldAmount(n.credit).Some?
            && (FieldAmount(n.debit).value > 0 <==> FieldAmount(n.credit).value == 0)
  {
    hide JournalCents, CentsAmount, Trim;
    var d, c := FieldAmount(line.debit).value, FieldAmount(line.credit).value;
    AmountBound(if line.debit == "" then "0" else line.debit);
    AmountBound(if line.credit == "" then "0" else line.credit);
    CentsRoundTrip(d);
    CentsRoundTrip(c);
    CentsAmountNonempty(d);
    CentsAmountNonempty(c);
    if line.description.Some? {
      TrimSettles(line.description.value);
      TrimSettles(Trim(line.description.value));
    }
  }

  lemma CentsAmountNonempty(c: nat)
    ensures CentsAmount(c) != ""
  {
  }

  /** An amount field: empty is zero. */
  function Field(s: string): Option<nat> { if s == "" then Some(0) else JournalCents(s) }

  /** Exactly one of the two fields is positive, and both can be read. */
  predicate OneSide(line: DraftLine) {
    && Field(line.debit).Some? && Field(line.credit).Some?
    && (Field(line.debit).value > 0 <==> Field(line.credit).value == 0)
  }

  /** All amounts of one column. */
  function Column(fields: seq<string>): (cents: seq<nat>)
    requires forall i :: 0 <= i < |fields| ==> Field(fields[i]).Some?
    ensures |cents| == |fields| && forall i :: 0 <= i < |fields| ==> Field(fields[i]) == Some(cents[i])
  {
    seq(|fields|, i requires 0 <= i < |fields| && Field(fields[i]).Some? => Field(fields[i]).value)
  }

  function DebitFields(lines: seq<DraftLine>): (fields: seq<string>)
    ensures |fields| == |lines| && forall i :: 0 <= i < |lines| ==> fields[i] == lines[i].debit
  {
    seq(|lines|, i requires 0 <= i < |lines| => lines[i].debit)
  }

  function CreditFields(lines: seq<DraftLine>): (fields: seq<string>)
    ensures |fields| == |lines| && forall i :: 0 <= i < |lines| ==> fields[i] == lines[i].credit
  {
    seq(|lines|, i requires 0 <= i < |lines| => lines[i].credit)
  }

  lemma ZeroField()
    ensures JournalCents("0") == Some(0)
  {
    hide DigitsValue, Pow10;
    assert AllDigits("0") && Zeros(1) == "0";
    ZerosValue(1);
    FixedPointReads("0", "0", 16, 2);
  }

  lemma FieldIsFieldAmount(s: string)
    ensures FieldAmount(s) == Field(s)
  {
    hide JournalCents;
    ZeroField();
  }

  predicate AcceptableLine(line: DraftLine) {
    && ValidId(line.accountId) && OneSide(line)
    && (line.description.Some? ==> |Trim(line.description.value)| <= 500)
  }

  lemma NormalizesLineExactly(line: DraftLine)
    ensures NormalizeLine(line).Some? <==> AcceptableLine(line)
    ensures NormalizeLine(line).Some? ==>
              && NormalizeLine(line).value.accountId == line.accountId
              && NormalizeLine(line).value.debit == CentsAmount(Field(line.debit).value)
              && NormalizeLine(line).value.credit == CentsAmount(Field(line.credit).value)
              && NormalizeLine(line).value.description ==
                 if line.description.Some? && Trim(line.description.value) != "" then Some(Trim(line.description.value))
                 else None
  {
    hide FieldAmount, Field, CentsAmount, Trim, ValidId;
    FieldIsFieldAmount(line.debit);
    FieldIsFieldAmount(line.credit);
  }

  /** What the form accepts, and the normal form it makes of it: a branch, a day and a description
      of 1 to 500 characters after trimming; 2 to 100 lines, each with an account, one positive
      amount and a note of at most 500 characters; and two columns of equal sum. */
  lemma NormalizesExactly(d: JournalDraft)
    ensures Normalize(d).Some? <==>
            && (d.branchId.Some? ==> ValidId(d.branchId.value)) && ValidDate(d.bookingDate)
            && 1 <= |Trim(d.description)| <= 500 && 2 <= |d.lines| <= 100
            && (forall i :: 0 <= i < |d.lines| ==> AcceptableLine(d.lines[i]))
            && DraftMoney.ExactSum(Column(DebitFields(d.lines))) == DraftMoney.ExactSum(Column(CreditFields(d.lines)))
    ensures Normalize(d).Some? ==>
              var n := Normalize(d).value;
              && n.branchId == d.branchId && n.bookingDate == d.bookingDate && n.description == Trim(d.description)
              && |n.lines| == |d.lines|
              && forall i :: 0 <= i < |d.lines| ==> Some(n.lines[i]) == NormalizeLine(d.lines[i])
  {
    hide NormalizeLine, AcceptableLine, ValidId, ValidDate, Trim, DraftMoney.ExactSum, CentsAmount, Field,
         JournalCents, TotalCents, NormalizeLines;
    NormalizeLinesPointwise(d.lines);
    forall i | 0 <= i < |d.lines|
      ensures NormalizeLine(d.lines[i]).Some? <==> AcceptableLine(d.lines[i])
    {
      NormalizesLineExactly(d.lines[i]);
    }
    if forall i :: 0 <= i < |d.lines| ==> AcceptableLine(d.lines[i]) {
      var lines := NormalizeLines(d.lines).value;
      NormalColumns(d.lines, lines);
      TotalsAreSums(lines);
      CentsAmountInjective(TotalCents(lines).value.debit, TotalCents(lines).value.credit);
    }
  }

  lemma AcceptableFields(lines: seq<DraftLine>)
    requires forall i :: 0 <= i < |lines| ==> AcceptableLine(lines[i])
    ensures forall i :: 0 <= i < |lines| ==> Field(lines[i].debit).Some? && Field(lines[i].credit).Some?
  {
    forall i | 0 <= i < |lines|
      ensures Field(lines[i].debit).Some? && Field(lines[i].credit).Some?
    {
      assert AcceptableLine(lines[i]);
    }
  }

  /** The normal lines carry the two columns of the draft. */
  lemma NormalColumns(lines: seq<DraftLine>, normal: seq<DraftLine>)
    requires |normal| == |lines| && forall i :: 0 <= i < |lines| ==> AcceptableLine(lines[i])
    requires forall i :: 0 <= i < |lines| ==> NormalizeLine(lines[i]) == Some(normal[i])
    ensures forall i :: 0 <= i < |lines| ==> Field(lines[i].debit).Some? && Field(lines[i].credit).Some?
    ensures Readable(normal)
    ensures DebitCents(normal) == Column(DebitFields(lines)) && CreditCents(normal) == Column(CreditFields(lines))
  {
    hide NormalizeLine, AcceptableLine, Field, JournalCents;
    AcceptableFields(lines);
    forall i | 0 <= i < |lines|
      ensures JournalCents(normal[i].debit) == Field(lines[i].debit)
      ensures JournalCents(normal[i].credit) == Field(lines[i].credit)
    {
      NormalLineStable(lines[i]);
      FieldIsFieldAmount(lines[i].debit);
      FieldIsFieldAmount(lines[i].credit);
    }
    forall i | 0 <= i < |normal|
      ensures ReadableLine(normal[i])
    {
      assert Field(lines[i].debit).Some? && Field(lines[i].credit).Some?;
    }
  }

  /** Normalizing twice is normalizing once. */
  lemma NormalizeIdempotent(d: JournalDraft)
    requires Normalize(d).Some?
    ensures Normalize(Normalize(d).value) == Normalize(d)
  {
    hide NormalizeLine, TotalsText, Trim;
    var n := Normalize(d).value;
    TrimSettles(d.description);
    TrimSettles(Trim(d.description));
    NormalizeLinesPointwise(d.lines);
    NormalizeLinesPointwise(n.lines);
    forall i | 0 <= i < |n.lines|
      ensures NormalizeLine(n.lines[i]) == Some(n.lines[i])
    {
      NormalLineStable(d.lines[i]);
    }
    assert NormalizeLines(n.lines).value == n.lines;
  }

  /** Normalizing changes no amount and no account; every line keeps exactly one positive
      side, and the two sides of the whole journal are equal and positive. */
  lemma NormalizeKeepsValues(d: JournalDraft)
    requires Normalize(d).Some?
    ensures var n := Normalize(d).value;
            && |n.lines| == |d.lines|
            && (forall i :: 0 <= i < |d.lines| ==>
                  && ValidId(d.lines[i].accountId) && n.lines[i].accountId == d.lines[i].accountId
                  && JournalCents(n.lines[i].debit) == FieldAmount(d.lines[i].debit)
                  && JournalCents(n.lines[i].credit) == FieldAmount(d.lines[i].credit))
            && TotalCents(n.lines).Some?
            && TotalCents(n.lines).value.debit == TotalCents(n.lines).value.credit > 0
  {
    hide NormalizeLine, JournalCents, FieldAmount, CentsAmount, TotalCents;
    var n := Normalize(d).value;
    NormalizeLinesPointwise(d.lines);
    forall i | 0 <= i < |d.lines|
      ensures NormalizeLine(n.lines[i]) == Some(n.lines[i])
      ensures ValidId(d.lines[i].accountId) && n.lines[i].accountId == d.lines[i].accountId
      ensures JournalCents(n.lines[i].debit) == FieldAmount(d.lines[i].debit)
      ensures JournalCents(n.lines[i].credit) == FieldAmount(d.lines[i].credit)
    {
      NormalLineStable(d.lines[i]);
    }
    var totals := TotalCents(n.lines).value;
    CentsAmountInjective(totals.debit, totals.credit);
    TotalsPositive(n.lines);
  }

  lemma {:induction false} TotalsPositive(lines: seq<DraftLine>)
    requires forall i :: 0 <= i < |lines| ==> NormalizeLine(lines[i]) == Some(lines[i])
    ensures TotalCents(lines).Some?
    ensures TotalCents(lines).value.debit + TotalCents(lines).value.credit >= |lines|
  {
    hide NormalizeLine, JournalCents, FieldAmount;
    if lines != [] {
      TotalsPositive(lines[..|lines| - 1]);
      NormalLineStable(lines[|lines| - 1]);
    }
  }
}
