/** How the server reads a confirmed payload (schemas.py: JournalIn) and prints a stored
    journal (service.py: journal_dict), and when the browser recognizes its own payload in
    the printed answer. */
module Wire {
  import opened Base
  import opened DecimalText
  import opened WireText
  import opened JournalForm
  import opened JournalCommand
  import opened Tables
  import opened Triggers
  import opened TriggerProofs
  import opened Ledger
  import opened LedgerProofs
  import opened LedgerTheorems
  import opened Refinement
  import DraftMoney

  // ---------------------------------------------------------------- reading a payload

  function ParseDate(s: string): Option<Day> {
    if ValidDate(s) && DigitsValue(s[..4]) >= 1 then Some(DateValue(s)) else None
  }

  function ParseId(s: Option<string>): Option<Id> {
    match s
    case None => None
    case Some(text) => Some(Lower(text))
  }

  function Stripped(strip: string -> string, s: Option<string>): Option<string> {
    match s
    case None => None
    case Some(text) => Some(strip(text))
  }

  function ParseLine(strip: string -> string, line: DraftLine): Option<LineIn> {
    match (JournalCents(line.debit), JournalCents(line.credit))
    case (Some(d), Some(c)) => Some(LineIn(Lower(line.accountId), d, c, Stripped(strip, line.description)))
    case _ => None
  }

  function ParseLines(strip: string -> string, lines: seq<DraftLine>): Option<seq<LineIn>> {
    if lines == [] then Some([])
    else match (ParseLines(strip, lines[..|lines| - 1]), ParseLine(strip, lines[|lines| - 1]))
      case (Some(front), Some(last)) => Some(front + [last])
      case _ => None
  }

  /** The request body as the server reads it, for payloads in normal form: uuids in lower
      case, texts stripped, dates from year 1 on. Nothing stands for a validation error. */
  function ParseJournal(strip: string -> string, p: Payload): Option<JournalIn> {
    match (ParseDate(p.draft.bookingDate), ParseLines(strip, p.draft.lines))
    case (Some(day), Some(lines)) =>
      Some(JournalIn(Lower(p.requestId), ParseId(p.draft.branchId), day, strip(p.draft.description), lines))
    case _ => None
  }

  lemma {:induction false} ParseLinesPointwise(strip: string -> string, lines: seq<DraftLine>)
    requires ParseLines(strip, lines).Some?
    ensures |ParseLines(strip, lines).value| == |lines|
    ensures forall i :: 0 <= i < |lines| ==> ParseLine(strip, lines[i]) == Some(ParseLines(strip, lines).value[i])
  {
    hide ParseLine;
    if lines != [] {
      var front := lines[..|lines| - 1];
      ParseLinesPointwise(strip, front);
      assert forall i :: 0 <= i < |front| ==> front[i] == lines[i];
    }
  }

  lemma ParsedLineCents(strip: string -> string, line: DraftLine)
    requires ParseLine(strip, line).Some?
    ensures var parsed := ParseLine(strip, line).value;
            0 <= parsed.debit && 0 <= parsed.credit && LineCents(line) == Some(Cents(parsed.debit, parsed.credit))
  {
    hide JournalCents;
  }

  lemma TotalsOfNone()
    ensures DebitTotal([]) == 0 && CreditTotal([]) == 0
  {
  }

  lemma TotalsOfMore(front: seq<LineIn>, last: LineIn)
    ensures DebitTotal(front + [last]) == DebitTotal(front) + last.debit
    ensures CreditTotal(front + [last]) == CreditTotal(front) + last.credit
  {
    assert (front + [last])[..|front + [last]| - 1] == front;
  }

  /** Reading keeps both totals. */
  lemma {:induction false} ParsedTotals(strip: string -> string, lines: seq<DraftLine>)
    requires ParseLines(strip, lines).Some?
    ensures var parsed := ParseLines(strip, lines).value;
            && 0 <= DebitTotal(parsed) && 0 <= CreditTotal(parsed)
            && TotalCents(lines) == Some(Cents(DebitTotal(parsed), CreditTotal(parsed)))
  {
    hide ParseLine, LineCents, DebitTotal, CreditTotal;
    if lines == [] {
      TotalsOfNone();
    } else {
      ParsedTotals(strip, lines[..|lines| - 1]);
      ParsedLineCents(strip, lines[|lines| - 1]);
      TotalsOfMore(ParseLines(strip, lines[..|lines| - 1]).value, ParseLine(strip, lines[|lines| - 1]).value);
    }
  }

  // ---------------------------------------------------------------- printing a journal

  function AmountText(c: int): string { if c < 0 then "" else FixedTwoText(c) }

  function RenderLine(row: LineRow): WireLine {
    WireLine(row.line.account, row.number, AmountText(row.line.debit), AmountText(row.line.credit),
             row.line.description)
  }

  function RenderLines(rows: seq<LineRow>): (lines: seq<WireLine>)
    ensures |lines| == |rows| && forall i :: 0 <= i < |rows| ==> lines[i] == RenderLine(rows[i])
  {
    seq(|rows|, i requires 0 <= i < |rows| => RenderLine(rows[i]))
  }

  function Debits(rows: seq<LineRow>): seq<nat> {
    if rows == [] then []
    else Debits(rows[..|rows| - 1]) + [if rows[|rows| - 1].line.debit < 0 then 0 else rows[|rows| - 1].line.debit]
  }

  function Credits(rows: seq<LineRow>): seq<nat> {
    if rows == [] then []
    else Credits(rows[..|rows| - 1]) + [if rows[|rows| - 1].line.credit < 0 then 0 else rows[|rows| - 1].line.credit]
  }

  /** format(sum(amounts, Decimal("0")), ".2f"), every addition passing through the context. */
  function SumText(amounts: seq<nat>): string {
    var sum := DraftMoney.DecimalSum(amounts);
    if sum.exp < -2 then "" else FixedTwoText(sum.coeff * Pow10(sum.exp + 2))
  }

  /** journal_dict. */
  function Render(db: Db, j: Id): WireJournal
    requires j in db.entries
  {
    var e, rows := db.entries[j], LinesOf(db.lines, j);
    WireJournal(j, db.organizationId, e.branch, e.requestId, DateText(e.bookingDate), e.description, e.currency,
                (match e.status case Draft => "DRAFT" case Posted => "POSTED"),
                e.reversalOf, e.postedBy, e.postedAt,
                SumText(Debits(rows)), SumText(Credits(rows)), RenderLines(rows))
  }

  // ---------------------------------------------------------------- recognizing the payload

  /** The texts that reading can change are left alone: ids already in lower case, and
      descriptions on which the browser's trim and the server's strip agree. */
  predicate TextsAgree(strip: string -> string, p: Payload) {
    && Lower(p.requestId) == p.requestId
    && ParseId(p.draft.branchId) == p.draft.branchId
    && strip(p.draft.description) == p.draft.description
    && forall i :: 0 <= i < |p.draft.lines| ==> LineTextsAgree(strip, p.draft.lines[i])
  }

  predicate LineTextsAgree(strip: string -> string, line: DraftLine) {
    Lower(line.accountId) == line.accountId && Stripped(strip, line.description) == line.description
  }

  /** A normal line that is read and printed again differs at most in those texts. */
  lemma LineReadBack(strip: string -> string, line: DraftLine, row: LineRow, number: int)
    requires NormalizeLine(line) == Some(line) && ParseLine(strip, line) == Some(row.line) && row.number == number
    ensures LineMatches(RenderLine(row), line, number) <==> LineTextsAgree(strip, line)
  {
    hide JournalCents, CentsAmount, FixedTwoText, Trim;
    NormalLineStable(line);
    var d, c := FieldAmount(line.debit).value, FieldAmount(line.credit).value;
    assert line.debit == CentsAmount(d) && line.credit == CentsAmount(c);
    ServerPrintsAsBrowser(d);
    ServerPrintsAsBrowser(c);
  }

  lemma {:induction false} SumsOfRows(rows: seq<LineRow>)
    requires forall k :: 0 <= k < |rows| ==> InRange(rows[k].line.debit) && InRange(rows[k].line.credit)
    ensures |Debits(rows)| == |rows| && |Credits(rows)| == |rows|
    ensures forall k :: 0 <= k < |rows| ==> Debits(rows)[k] <= MAX_AMOUNT && Credits(rows)[k] <= MAX_AMOUNT
    ensures DraftMoney.ExactSum(Debits(rows)) == DebitSum(rows)
    ensures DraftMoney.ExactSum(Credits(rows)) == CreditSum(rows)
  {
    if rows != [] {
      var front := rows[..|rows| - 1];
      SumsOfRows(front);
      assert Debits(rows)[..|rows| - 1] == Debits(front) && Credits(rows)[..|rows| - 1] == Credits(front);
    }
  }

  lemma SumTextExact(amounts: seq<nat>)
    requires |amounts| <= 100 && forall k :: 0 <= k < |amounts| ==> amounts[k] <= MAX_AMOUNT
    ensures SumText(amounts) == FixedTwoText(DraftMoney.ExactSum(amounts))
  {
    hide FixedTwoText, DraftMoney.ExactSum, DraftMoney.DecimalSum;
    DraftMoney.DecimalSumExact(amounts);
    assert Pow10(0) == 1;
  }

  /** Decimal's 28 digits suffice for the totals of every journal of up to 100 stored lines. */
  lemma JournalSumsExact(rows: seq<LineRow>)
    requires |rows| <= 100
    requires forall k :: 0 <= k < |rows| ==> InRange(rows[k].line.debit) && InRange(rows[k].line.credit)
    ensures 0 <= DebitSum(rows) && 0 <= CreditSum(rows)
    ensures SumText(Debits(rows)) == FixedTwoText(DebitSum(rows))
    ensures SumText(Credits(rows)) == FixedTwoText(CreditSum(rows))
  {
    hide SumText, Debits, Credits, DebitSum, CreditSum, DraftMoney.ExactSum;
    SumsOfRows(rows);
    SumTextExact(Debits(rows));
    SumTextExact(Credits(rows));
  }

  /** The totals the server prints are those the browser computes, also above the bound of a
      single amount. */
  lemma TotalsReadBack(strip: string -> string, lines: seq<DraftLine>, j: Id)
    requires ParseLines(strip, lines).Some? && |lines| <= 100
    ensures var rows := Numbered(j, ParseLines(strip, lines).value);
            TotalsText(lines) == Some(Totals(SumText(Debits(rows)), SumText(Credits(rows))))
  {
    hide ParseLines, ParseLine, CentsAmount, FixedTwoText, DebitTotal, CreditTotal, DebitSum, CreditSum, TotalCents,
         SumText, Debits, Credits;
    var parsed := ParseLines(strip, lines).value;
    var rows := Numbered(j, parsed);
    ParseLinesPointwise(strip, lines);
    forall k | 0 <= k < |rows|
      ensures InRange(rows[k].line.debit) && InRange(rows[k].line.credit)
    {
      ParsedInRange(strip, lines[k]);
    }
    ParsedTotals(strip, lines);
    NumberedSums(j, parsed);
    JournalSumsExact(rows);
    ServerPrintsAsBrowser(DebitTotal(parsed));
    ServerPrintsAsBrowser(CreditTotal(parsed));
  }

  lemma ParsedInRange(strip: string -> string, line: DraftLine)
    requires ParseLine(strip, line).Some?
    ensures InRange(ParseLine(strip, line).value.debit) && InRange(ParseLine(strip, line).value.credit)
  {
    hide JournalCents;
    AmountBound(line.debit);
    AmountBound(line.credit);
  }

  lemma LinesReadBack(strip: string -> string, lines: seq<DraftLine>, j: Id)
    requires ParseLines(strip, lines).Some?
    requires forall i :: 0 <= i < |lines| ==> NormalizeLine(lines[i]) == Some(lines[i])
    ensures var rows := Numbered(j, ParseLines(strip, lines).value);
            && |RenderLines(rows)| == |lines|
            && ((forall i :: 0 <= i < |lines| ==> LineMatches(RenderLines(rows)[i], lines[i], i + 1)) <==>
                (forall i :: 0 <= i < |lines| ==> LineTextsAgree(strip, lines[i])))
  {
    hide ParseLines, ParseLine, NormalizeLine, RenderLine, LineTextsAgree, LineMatches;
    var rows := Numbered(j, ParseLines(strip, lines).value);
    ParseLinesPointwise(strip, lines);
    forall i | 0 <= i < |lines|
      ensures LineMatches(RenderLines(rows)[i], lines[i], i + 1) <==> LineTextsAgree(strip, lines[i])
    {
      LineReadBack(strip, lines[i], rows[i], i + 1);
    }
  }

  lemma NormalLines(draft: JournalDraft)
    requires Normalize(draft) == Some(draft)
    ensures forall i :: 0 <= i < |draft.lines| ==> NormalizeLine(draft.lines[i]) == Some(draft.lines[i])
  {
    hide NormalizeLine, TotalsText, AcceptableHeader, NormalizeLines;
    NormalizeLinesPointwise(draft.lines);
  }

  /** The browser that confirmed a payload can recognize stored journal j as its own. */
  predicate Recognizable(strip: string -> string, pending: PendingJournal, db: Db, j: Id)
    requires j in db.entries
  {
    && ValidId(j) && pending.organizationId == db.organizationId && pending.userId == db.entries[j].postedBy
    && TextsAgree(strip, pending.payload)
  }

  /** The printed journal of a stored request is recognized by the browser that confirmed it
      exactly when the session's user posted it and reading left every text as it was. */
  lemma HonestAnswerVerifies(strip: string -> string, db: Db, j: Id, pending: PendingJournal)
    requires ServiceInv(db) && j in db.entries
    requires var p := pending.payload;
             && Normalize(p.draft) == Some(p.draft) && ParseJournal(strip, p).Some?
             && db.entries[j].digest == PostDigest(ParseJournal(strip, p).value)
    ensures Verified(Render(db, j), pending) <==> Recognizable(strip, pending, db, j)
  {
    hide Sound, Settled, Normalize, ParseLines, ParseDate, DateText, LinesOf, Debits, Credits, SumText, TotalsText,
         RenderLines, LineMatches, LineTextsAgree, ValidId, DebitTotal, CreditTotal, ValidLine;
    var p := pending.payload;
    var q := ParseJournal(strip, p).value;
    assert EntryGood(db, j);
    PostedRows(db, j, q);
    StoredIsPosted(db, j);
    NormalLines(p.draft);
    NormalHeader(p.draft);
    TotalsReadBack(strip, p.draft.lines, j);
    LinesReadBack(strip, p.draft.lines, j);
    DateReadBack(p.draft.bookingDate);
  }

  lemma DateReadBack(s: string)
    requires ParseDate(s).Some?
    ensures DateText(ParseDate(s).value) == s
  {
    hide DateText, DateValue;
    DateRoundTrip(s);
  }

  lemma StoredIsPosted(db: Db, j: Id)
    requires Settled(db) && j in db.entries
    ensures db.entries[j].status == Posted && db.entries[j].postedAt.Some?
  {
    assert EntrySettled(db, j);
  }

  /** The rows of a posted request are its lines, numbered from one. */
  lemma PostedRows(db: Db, j: Id, q: JournalIn)
    requires j in db.entries && EntryGood(db, j) && db.entries[j].digest == PostDigest(q)
    ensures LinesOf(db.lines, j) == Numbered(j, q.lines)
    ensures db.entries[j].currency == "SAR" && db.entries[j].reversalOf.None? && Shows(db, j, q)
  {
    hide LinesOf, DebitTotal, CreditTotal, ValidLine;
  }

  /** A normal draft that is read with its texts unchanged passes the server's validators;
      only the years before 1, which the browser's calendar has, are not read at all. */
  lemma NormalDraftValidates(strip: string -> string, p: Payload)
    requires Normalize(p.draft) == Some(p.draft)
    ensures ParseJournal(strip, p).Some? <==> DigitsValue(p.draft.bookingDate[..4]) >= 1
    ensures ParseJournal(strip, p).Some? && TextsAgree(strip, p) ==> ValidJournal(ParseJournal(strip, p).value)
  {
    hide Normalize, ParseLines, DigitsValue, ValidDate, DateValue, ValidLine, ParseLine, DebitTotal, CreditTotal,
         NormalizeLine;
    NormalHeader(p.draft);
    NormalLines(p.draft);
    NormalLinesRead(strip, p.draft.lines);
    if ParseJournal(strip, p).Some? && TextsAgree(strip, p) {
      ParseLinesPointwise(strip, p.draft.lines);
      var q := ParseJournal(strip, p).value;
      forall i | 0 <= i < |q.lines|
        ensures ValidLine(q.lines[i])
      {
        NormalLineValid(strip, p.draft.lines[i]);
      }
      NormalizeKeepsValues(p.draft);
      ParsedTotals(strip, p.draft.lines);
    }
  }

  lemma NormalHeader(draft: JournalDraft)
    requires Normalize(draft) == Some(draft)
    ensures ValidDate(draft.bookingDate) && 1 <= |draft.description| <= MAX_TEXT && 2 <= |draft.lines| <= 100
  {
    hide NormalizeLines, TotalsText, Trim;
  }

  lemma {:induction false} NormalLinesRead(strip: string -> string, lines: seq<DraftLine>)
    requires forall i :: 0 <= i < |lines| ==> NormalizeLine(lines[i]) == Some(lines[i])
    ensures ParseLines(strip, lines).Some?
  {
    hide NormalizeLine, JournalCents;
    if lines != [] {
      NormalLinesRead(strip, lines[..|lines| - 1]);
      NormalLineStable(lines[|lines| - 1]);
    }
  }

  lemma NormalLineValid(strip: string -> string, line: DraftLine)
    requires NormalizeLine(line) == Some(line) && ParseLine(strip, line).Some? && LineTextsAgree(strip, line)
    ensures ValidLine(ParseLine(strip, line).value)
  {
    hide JournalCents, CentsAmount, Trim;
    NormalLineStable(line);
    AmountBound(line.debit);
    AmountBound(line.credit);
  }

  /** The full way round, for a first post and for a replay: the browser accepts the printed
      answer exactly when its user posted the journal and reading left its texts alone. */
  lemma PostedAnswerVerifies(strip: string -> string, db: Db, ctx: Context, pending: PendingJournal, id: Id)
    requires ServiceInv(db)
    requires var p := pending.payload;
             && Normalize(p.draft) == Some(p.draft) && ParseJournal(strip, p).Some?
             && Post(db, ctx, ParseJournal(strip, p).value, id).Done?
    ensures var r := Post(db, ctx, ParseJournal(strip, pending.payload).value, id);
            && r.id in r.db.entries
            && (Verified(Render(r.db, r.id), pending) <==> Recognizable(strip, pending, r.db, r.id))
            && (!RequestTaken(db, Lower(pending.payload.requestId)) ==>
                  r.id == id && r.db.entries[id].postedBy == ctx.user)
  {
    hide ServiceInv, Normalize, ParseLines, ParseDate, Verified, Render, TextsAgree, WriteCheck, Authorize,
         ValidJournal, Numbered, Lower, Recognizable;
    var q := ParseJournal(strip, pending.payload).value;
    StepKeeps(db, DoPost(ctx, q, id));
    PostHolds(db, ctx, q, id);
    HonestAnswerVerifies(strip, Post(db, ctx, q, id).db, Post(db, ctx, q, id).id, pending);
  }

  // ---------------------------------------------------------------- payloads the server changes

  /** What in a payload the server prints differently: a capital letter in an identifier, or
      U+0085 at an end of a description. */
  predicate Alterable(p: Payload) {
    || HasUpperHex(p.requestId)
    || (p.draft.branchId.Some? && HasUpperHex(p.draft.branchId.value))
    || NextLineAtAnEnd(p.draft.description)
    || exists i :: 0 <= i < |p.draft.lines| && AlterableLine(p.draft.lines[i])
  }

  predicate AlterableLine(line: DraftLine) {
    HasUpperHex(line.accountId) || (line.description.Some? && NextLineAtAnEnd(line.description.value))
  }

  /** For the server's own stripping, a normal payload is left alone exactly when it has none
      of these. */
  lemma AlteredExactly(p: Payload)
    requires Normalize(p.draft) == Some(p.draft)
    ensures TextsAgree(Strip, p) <==> !Alterable(p)
  {
    hide Normalize, Lower, HasUpperHex, NextLineAtAnEnd, Strip, AlterableLine, LineTextsAgree;
    LowerChangesExactly(p.requestId);
    if p.draft.branchId.Some? {
      LowerChangesExactly(p.draft.branchId.value);
    }
    NormalTrimmed(p.draft);
    StripChangesExactly(p.draft.description);
    NormalLines(p.draft);
    forall i | 0 <= i < |p.draft.lines|
      ensures LineTextsAgree(Strip, p.draft.lines[i]) <==> !AlterableLine(p.draft.lines[i])
    {
      AlteredLineExactly(p.draft.lines[i]);
    }
  }

  lemma NormalTrimmed(draft: JournalDraft)
    requires Normalize(draft) == Some(draft)
    ensures Trim(draft.description) == draft.description
  {
    hide NormalizeLines, TotalsText, Trim;
  }

  lemma AlteredLineExactly(line: DraftLine)
    requires NormalizeLine(line) == Some(line)
    ensures LineTextsAgree(Strip, line) <==> !AlterableLine(line)
  {
    hide JournalCents, CentsAmount, Trim, Strip, Lower, HasUpperHex, NextLineAtAnEnd;
    LowerChangesExactly(line.accountId);
    if line.description.Some? {
      StripChangesExactly(line.description.value);
    }
  }

  // ---------------------------------------------------------------- such payloads exist

  function CapitalId(): (s: string)
    ensures ValidId(s) && HasUpperHex(s)
  {
    var s := seq(36, i => if i == 8 || i == 13 || i == 18 || i == 23 then '-' else 'A');
    assert s[0] == 'A';
    s
  }

  function SampleLine(account: string, first: bool): DraftLine {
    DraftLine(account, if first then "1.00" else "0.00", if first then "0.00" else "1.00", None)
  }

  function SampleDraft(account: string, day: string, description: string): JournalDraft {
    JournalDraft(None, day, description, [SampleLine(account, true), SampleLine(account, false)])
  }

  lemma SampleNormal(account: string, day: string, description: string)
    requires ValidId(account) && ValidDate(day) && Trim(description) == description
    requires 1 <= |description| <= MAX_DESCRIPTION
    ensures Normalize(SampleDraft(account, day, description)) == Some(SampleDraft(account, day, description))
  {
    hide ValidId, ValidDate, Trim, JournalCents, CentsAmount;
    SmallAmounts();
    var lines := SampleDraft(account, day, description).lines;
    assert lines[..2] == lines && lines[..1] == [lines[0]] && lines[..1][..0] == [];
    assert NormalizeLine(lines[0]) == Some(lines[0]) && NormalizeLine(lines[1]) == Some(lines[1]);
    NormalizeLinesPointwise(lines);
    assert NormalizeLines(lines).value == lines;
    assert LineCents(lines[0]) == Some(Cents(100, 0)) && LineCents(lines[1]) == Some(Cents(0, 100));
    assert TotalCents(lines[..1]) == Some(Cents(100, 0));
    assert TotalCents(lines) == Some(Cents(100, 100));
  }

  /** The form accepts account ids in capital letters as they are, and no server leaves them so. */
  lemma CapitalIdsAccepted(strip: string -> string, requestId: string)
    ensures var draft := SampleDraft(CapitalId(), "2026-10-07", "note");
            Normalize(draft) == Some(draft) && !TextsAgree(strip, Payload(draft, requestId))
  {
    hide Normalize, Trim, ValidDate;
    SampleDate();
    assert Trimmed(IsSpace, "note");
    TrimSettles("note");
    SampleNormal(CapitalId(), "2026-10-07", "note");
    LowerChangesExactly(CapitalId());
    var line := SampleDraft(CapitalId(), "2026-10-07", "note").lines[0];
    assert !LineTextsAgree(strip, line);
  }

  /** A description that starts with U+0085 is accepted as it is and stripped by the server. */
  lemma NextLineAccepted(requestId: string)
    ensures var draft := SampleDraft(SampleId(), "2026-10-07", "\U{0085}note");
            Normalize(draft) == Some(draft) && !TextsAgree(Strip, Payload(draft, requestId))
  {
    hide Normalize, Trim, Strip, ValidDate;
    SampleDate();
    assert Trimmed(IsSpace, "\U{0085}note");
    TrimSettles("\U{0085}note");
    SampleNormal(SampleId(), "2026-10-07", "\U{0085}note");
    StripChangesExactly("\U{0085}note");
  }

  /** A date in the year 0 is accepted by the form, and no server reads it. */
  lemma YearZeroAccepted(strip: string -> string, requestId: string)
    ensures var draft := SampleDraft(SampleId(), "0000-01-01", "note");
            Normalize(draft) == Some(draft) && ParseJournal(strip, Payload(draft, requestId)).None?
  {
    hide Normalize, Trim, ValidDate, ParseLines;
    YearZeroDate();
    assert Trimmed(IsSpace, "note");
    TrimSettles("note");
    SampleNormal(SampleId(), "0000-01-01", "note");
    NormalDraftValidates(strip, Payload(SampleDraft(SampleId(), "0000-01-01", "note"), requestId));
  }

  lemma YearZeroDate()
    ensures ValidDate("0000-01-01") && AllDigits("0000-01-01"[..4]) && DigitsValue("0000-01-01"[..4]) == 0
  {
    hide DigitsValue;
    var s := "0000-01-01";
    assert s[..4] == Zeros(4) && s[5..7] == ['0', '1'] && s[8..] == ['0', '1'];
    ZerosValue(4);
    TwoDigitsValue('0', '1');
    assert AllDigits(s[5..7]) && AllDigits(s[8..]);
    assert DateShape(s);
  }
}
