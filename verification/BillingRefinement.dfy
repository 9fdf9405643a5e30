/** Drafts, assessments and the remaining commands against the database layer, and the
    statement that every command is one accepted transaction or none. */
module BillingRefinement {
  import opened Base
  import opened Rounding
  import opened Tables
  import opened Triggers
  import opened TriggerProofs
  import opened Ledger
  import opened DraftMoney
  import opened Refinement
  import Vat

  // ---------------------------------------------------------------- draft amounts

  function RoundedAmount(line: DraftLineIn): nat { (line.mills * line.price + 500) / 1000 }

  /** The server computes every accepted line's amount, without ever losing a digit. */
  lemma {:induction false} AmountsAreRounded(lines: seq<DraftLineIn>)
    requires forall k :: 0 <= k < |lines| ==> ValidDraftLine(lines[k])
    ensures Amounts(lines).Some? && |Amounts(lines).value| == |lines|
    ensures forall k :: 0 <= k < |lines| ==> Amounts(lines).value[k] == RoundedAmount(lines[k])
    ensures forall k :: 0 <= k < |lines| ==> Amounts(lines).value[k] <= 100000000000000000000000
  {
    hide LineAmount;
    if lines != [] {
      var last := lines[|lines| - 1];
      AmountsAreRounded(lines[..|lines| - 1]);
      assert ValidDraftLine(last);
      ThreeRoundingsAgree(last.mills, last.price, 0);
    }
  }

  lemma {:induction false} RowTotals(id: Id, lines: seq<DraftLineIn>, amounts: seq<nat>)
    requires |amounts| == |lines|
    ensures LineTotals(DraftRows(id, lines, amounts)) == ExactSum(amounts)
  {
    if lines != [] {
      var m := |lines| - 1;
      RowTotals(id, lines[..m], amounts[..m]);
      assert DraftRows(id, lines, amounts)[..m] == DraftRows(id, lines[..m], amounts[..m]);
    }
  }

  // ---------------------------------------------------------------- writing one draft

  function DraftOps(rows: seq<DraftLineRow>): (ops: seq<Op>)
    ensures |ops| == |rows| && forall k :: 0 <= k < |rows| ==> ops[k] == InsertDraftLine(rows[k])
  {
    seq(|rows|, k requires 0 <= k < |rows| => InsertDraftLine(rows[k]))
  }

  /** The row writes of create_draft: a BUILDING header, its lines, then the sealing update. */
  function DraftScript(id: Id, draft: ServiceDraft, rows: seq<DraftLineRow>): seq<Op> {
    [InsertDraft(id, draft.(status := Building))] + DraftOps(rows) + [UpdateDraft(id, draft)]
  }

  ghost predicate WritableDraftRow(id: Id, row: DraftLineRow, k: nat) {
    && row.draftId == id && row.number == k + 1 <= 100
    && 0 < row.mills < 1000000000000 && 0 <= row.price < 100000000000000 && InRange(row.total)
    && RoundsHalfAway(row.mills * row.price, 1000, row.total)
  }

  ghost predicate ReadyToDraft(db: Db, id: Id, draft: ServiceDraft, rows: seq<DraftLineRow>) {
    && draft.status == Sealed && DraftInsertAllowed(db, id, draft.(status := Building))
    && 1 <= |rows| <= 100 && draft.total == LineTotals(rows)
    && forall k :: 0 <= k < |rows| ==> WritableDraftRow(id, rows[k], k)
  }

  function DraftPartial(db: Db, id: Id, draft: ServiceDraft, rows: seq<DraftLineRow>, n: nat): Db
    requires n <= |rows|
  {
    db.(drafts := db.drafts[id := draft.(status := Building)], draftLines := db.draftLines + rows[..n])
  }

  function AddDraft(db: Db, id: Id, draft: ServiceDraft, rows: seq<DraftLineRow>): Db {
    db.(drafts := db.drafts[id := draft], draftLines := db.draftLines + rows)
  }

  lemma NoDraftLinesYet(db: Db, id: Id)
    requires DraftsSound(db) && id !in db.drafts
    ensures forall k :: 0 <= k < |db.draftLines| ==> db.draftLines[k].draftId != id
    ensures DraftLinesOf(db.draftLines, id) == []
  {
    forall k | 0 <= k < |db.draftLines|
      ensures db.draftLines[k].draftId != id
    {
      assert DraftLineSound(db, db.draftLines[k]);
    }
    DraftLinesOfOthers(db.draftLines, id);
  }

  lemma DraftHeaderAccepted(db: Db, id: Id, draft: ServiceDraft, rows: seq<DraftLineRow>)
    requires ReadyToDraft(db, id, draft, rows)
    ensures Execute(Begin(db), InsertDraft(id, draft.(status := Building)))
            == Some(Tx(DraftPartial(db, id, draft, rows, 0), {}, {id}))
  {
    hide DraftInsertAllowed, LineTotals;
    TouchedOnce(id);
    assert db.draftLines + rows[..0] == db.draftLines;
  }

  lemma DraftLineAccepted(db: Db, id: Id, draft: ServiceDraft, rows: seq<DraftLineRow>, n: nat)
    requires DraftsSound(db) && ReadyToDraft(db, id, draft, rows) && n < |rows|
    ensures Execute(Tx(DraftPartial(db, id, draft, rows, n), {}, {id}), InsertDraftLine(rows[n]))
            == Some(Tx(DraftPartial(db, id, draft, rows, n + 1), {}, {id}))
  {
    hide LineTotals, RoundsHalfAway, InRange, DraftsSound;
    TouchedOnce(id);
    NoDraftLinesYet(db, id);
    var part := DraftPartial(db, id, draft, rows, n);
    assert WritableDraftRow(id, rows[n], n);
    assert forall k :: 0 <= k < n ==> WritableDraftRow(id, rows[k], k);
    assert DraftLineAllowed(part, rows[n]);
    assert rows[..n] + [rows[n]] == rows[..n + 1];
    assert (db.draftLines + rows[..n]) + [rows[n]] == db.draftLines + rows[..n + 1];
  }

  lemma {:induction false} DraftLinesAccepted(db: Db, id: Id, draft: ServiceDraft, rows: seq<DraftLineRow>, n: nat)
    requires DraftsSound(db) && ReadyToDraft(db, id, draft, rows) && n <= |rows|
    ensures ExecuteAll(Tx(DraftPartial(db, id, draft, rows, 0), {}, {id}), DraftOps(rows)[..n])
            == Some(Tx(DraftPartial(db, id, draft, rows, n), {}, {id}))
  {
    hide DraftsSound, ReadyToDraft, Execute, DraftPartial;
    if n > 0 {
      DraftLinesAccepted(db, id, draft, rows, n - 1);
      DraftLineAccepted(db, id, draft, rows, n - 1);
      assert DraftOps(rows)[..n][..n - 1] == DraftOps(rows)[..n - 1];
    }
  }

  lemma SealingAccepted(db: Db, id: Id, draft: ServiceDraft, rows: seq<DraftLineRow>)
    requires ReadyToDraft(db, id, draft, rows)
    ensures Execute(Tx(DraftPartial(db, id, draft, rows, |rows|), {}, {id}), UpdateDraft(id, draft))
            == Some(Tx(AddDraft(db, id, draft, rows), {}, {id}))
  {
    hide LineTotals, DraftInsertAllowed, WritableDraftRow;
    TouchedOnce(id);
    assert rows[..|rows|] == rows;
    var part := DraftPartial(db, id, draft, rows, |rows|);
    assert part.drafts[id := draft] == db.drafts[id := draft];
  }

  lemma AddedDraftSettled(db: Db, id: Id, draft: ServiceDraft, rows: seq<DraftLineRow>)
    requires DraftsSound(db) && ReadyToDraft(db, id, draft, rows)
    ensures DraftSettled(AddDraft(db, id, draft, rows), id)
  {
    hide DraftsSound, RoundsHalfAway, InRange, LineTotals, DraftLinesOf;
    NoDraftLinesYet(db, id);
    DraftLinesOfConcat(db.draftLines, rows, id);
    assert forall k :: 0 <= k < |rows| ==> WritableDraftRow(id, rows[k], k);
    DraftLinesOfAll(rows, id);
    assert [] + rows == rows;
  }

  lemma DraftAccepted(db: Db, id: Id, draft: ServiceDraft, rows: seq<DraftLineRow>)
    requires DraftsSound(db) && ReadyToDraft(db, id, draft, rows)
    ensures Commit(db, DraftScript(id, draft, rows)) == Some(AddDraft(db, id, draft, rows))
  {
    hide DraftsSound, ReadyToDraft, Execute, DraftPartial, AddDraft, ExecuteAll, DraftSettled;
    var header, body, sealing := [InsertDraft(id, draft.(status := Building))], DraftOps(rows),
      [UpdateDraft(id, draft)];
    ExecuteAllConcat(Begin(db), header + body, sealing);
    ExecuteAllConcat(Begin(db), header, body);
    ExecuteOne(Begin(db), header[0]);
    DraftHeaderAccepted(db, id, draft, rows);
    DraftLinesAccepted(db, id, draft, rows, |rows|);
    assert body[..|rows|] == body;
    ExecuteOne(Tx(DraftPartial(db, id, draft, rows, |rows|), {}, {id}), sealing[0]);
    SealingAccepted(db, id, draft, rows);
    AddedDraftSettled(db, id, draft, rows);
  }

  /** A stored draft carries its lines' exact total, and create_draft never meets a Decimal
      that does not fit. */
  lemma DraftWrites(db: Db, ctx: Context, p: DraftIn, id: Id)
    requires CreateDraft(db, ctx, p, id).Done? && CreateDraft(db, ctx, p, id).db != db
    ensures Amounts(p.lines).Some? && |Amounts(p.lines).value| == |p.lines|
    ensures var amounts := Amounts(p.lines).value;
            var draft, rows := DraftRow(ctx, p, ExactSum(amounts)), DraftRows(id, p.lines, amounts);
            && ReadyToDraft(db, id, draft, rows)
            && CreateDraft(db, ctx, p, id) == Done(AddDraft(db, id, draft, rows), id)
  {
    hide Amounts, DecimalSum, ExactSum, LineTotals, DraftRows;
    AmountsAreRounded(p.lines);
    var amounts := Amounts(p.lines).value;
    DecimalSumExact(amounts);
    RowTotals(id, p.lines, amounts);
    forall k | 0 <= k < |p.lines|
      ensures WritableDraftRow(id, DraftRows(id, p.lines, amounts)[k], k)
    {
      assert ValidDraftLine(p.lines[k]);
      ThreeRoundingsAgree(p.lines[k].mills, p.lines[k].price, amounts[k]);
    }
  }

  /** No valid draft request fails on its arithmetic. */
  lemma DraftArithmeticNeverFails(db: Db, ctx: Context, p: DraftIn, id: Id)
    requires id !in db.drafts
    ensures CreateDraft(db, ctx, p, id) != Refused(Internal)
  {
    hide Amounts, DecimalSum, ExactSum, DraftRows;
    if ValidDraft(p) {
      AmountsAreRounded(p.lines);
      DecimalSumExact(Amounts(p.lines).value);
    }
  }

  // ---------------------------------------------------------------- assessments

  ghost predicate TotalsInRange(rows: seq<DraftLineRow>) { forall k :: 0 <= k < |rows| ==> InRange(rows[k].total) }

  function Nets(rows: seq<DraftLineRow>): (nets: seq<nat>)
    requires TotalsInRange(rows)
    ensures |nets| == |rows| && forall k :: 0 <= k < |rows| ==> nets[k] == rows[k].total
  {
    if rows == [] then []
    else
      assert InRange(rows[|rows| - 1].total);
      var last: nat := rows[|rows| - 1].total;
      Nets(rows[..|rows| - 1]) + [last]
  }

  lemma {:induction false} NetsTotal(rows: seq<DraftLineRow>)
    requires TotalsInRange(rows)
    ensures Vat.Total(Nets(rows)) == LineTotals(rows)
    ensures forall k :: 0 <= k < |rows| ==> Nets(rows)[k] <= Vat.MAX_MINOR
  {
    if rows != [] {
      assert forall k :: 0 <= k < |rows| ==> InRange(rows[k].total);
      NetsTotal(rows[..|rows| - 1]);
      assert Nets(rows)[..|rows| - 1] == Nets(rows[..|rows| - 1]);
    }
  }

  lemma StoredTotalsInRange(db: Db, draft: Id)
    requires DraftsSound(db)
    ensures TotalsInRange(DraftLinesOf(db.draftLines, draft))
  {
    hide InRange, RoundsHalfAway;
    var rows := DraftLinesOf(db.draftLines, draft);
    DraftLinesOfMembers(db.draftLines, draft);
    forall k | 0 <= k < |rows|
      ensures InRange(rows[k].total)
    {
      var i :| 0 <= i < |db.draftLines| && db.draftLines[i] == rows[k];
      assert DraftLineSound(db, db.draftLines[i]);
    }
  }

  /** The VAT calculation over a stored draft's printed lines is accepted exactly when the
      draft's total is within the qualified range, and then yields that total and its tax. */
  lemma VatOfDraft(db: Db, draft: Id)
    requires DraftsSound(db) && draft in db.drafts && DraftSettled(db, draft)
    ensures var vat := Vat.StandardVat(PrintedTotals(DraftLinesOf(db.draftLines, draft)));
            var total := db.drafts[draft].total;
            && (vat.Some? <==> total <= Vat.MAX_TAXABLE)
            && (vat.Some? ==>
                  && 0 <= total
                  && Vat.Minor(vat.value.taxable) == Some(total)
                  && Vat.Minor(vat.value.tax) == Some(Vat.Tax(total))
                  && Vat.Minor(vat.value.gross) == Some(total + Vat.Tax(total)))
  {
    hide DraftsSound, DraftLinesOf, Vat.Minor, Vat.StandardVat, Vat.SumMinor, Vat.Tax, Vat.Total, LineTotals,
         PrintedTotals, Nets, TotalsInRange, InRange;
    var rows := DraftLinesOf(db.draftLines, draft);
    StoredTotalsInRange(db, draft);
    NetsTotal(rows);
    PrintedIsPrinted(rows);
    Vat.SumOfPrinted(Nets(rows));
    Vat.AcceptedExactly(PrintedTotals(rows));
    if Vat.StandardVat(PrintedTotals(rows)).Some? {
      Vat.BreakdownReadsBack(PrintedTotals(rows));
    }
  }

  lemma PrintedIsPrinted(rows: seq<DraftLineRow>)
    requires TotalsInRange(rows)
    ensures PrintedTotals(rows) == Vat.Printed(Nets(rows))
  {
    assert forall k :: 0 <= k < |rows| ==> InRange(rows[k].total);
  }

  function AssessmentRow(ctx: Context, p: AssessmentIn, profile: Id, net: nat): Assessment {
    Assessment(p.requestId, AssessmentDigest(p), p.draft, profile, p.day, p.basis, net, Vat.Tax(net),
               net + Vat.Tax(net), ctx.user)
  }

  /** A new assessment's net is its draft's total; guard_tax_assessment and the tax checks
      accept it. */
  lemma AssessWrites(db: Db, ctx: Context, p: AssessmentIn, id: Id)
    requires DraftsSound(db) && (p.draft in db.drafts ==> DraftSettled(db, p.draft))
    requires Assess(db, ctx, p, id).Done? && Assess(db, ctx, p, id).db != db
    ensures p.draft in db.drafts && 0 <= db.drafts[p.draft].total && ProfileOn(db.profiles, p.day).Some?
    ensures var row := AssessmentRow(ctx, p, ProfileOn(db.profiles, p.day).value.id, db.drafts[p.draft].total);
            && AssessmentAllowed(db, id, row)
            && Assess(db, ctx, p, id) == Done(db.(assessments := db.assessments[id := row]), id)
  {
    hide DraftsSound, DraftSettled, Vat.Minor, Vat.StandardVat, ProfileOn, PrintedTotals, DraftLinesOf;
    assert p.draft in db.drafts;
    VatOfDraft(db, p.draft);
    var net := db.drafts[p.draft].total;
    Vat.TaxRoundsHalfUp(net, Vat.Tax(net));
    assert Vat.Gross(Vat.MAX_TAXABLE) == Vat.MAX_MINOR;
    Vat.GrossStrictlyIncreases(Vat.MAX_TAXABLE, net);
  }

  // ---------------------------------------------------------------- every command

  /** The row writes a successful command issues. */
  ghost function Script(db: Db, cmd: Command): seq<Op>
    requires Apply(db, cmd).Done?
  {
    match cmd
    case DoCreateAccount(ctx, p, id) => [InsertAccount(id, Account(p.code, p.kind, p.parent, p.postable, true, 0))]
    case DoCreatePeriod(ctx, start, end, id) => [InsertPeriod(id, Period(start, end, Open, None, None))]
    case DoClosePeriod(ctx, id) => [UpdatePeriod(id, Apply(db, cmd).db.periods[id])]
    case DoPost(ctx, p, id) => JournalScript(id, NewEntry(db, ctx, p, PostDigest(p), None), p.lines)
    case DoReverse(ctx, e, r, id) =>
      var p := ReversalPayload(db, e, r);
      JournalScript(id, NewEntry(db, ctx, p, ReverseDigest(e, r), Some(e)), p.lines)
    case DoOpen(ctx, q, id, batchId) =>
      var p := OpeningJournal(q);
      JournalScript(id, NewEntry(db, ctx, p, OpeningDigest(PostDigest(p)), None), p.lines)
      + [InsertOpening(OpeningRow(ctx, q, id, batchId))]
    case DoCreateDraft(ctx, p, id) =>
      (match Amounts(p.lines)
       case Some(amounts) =>
         if |amounts| == |p.lines|
           then DraftScript(id, DraftRow(ctx, p, ExactSum(amounts)), DraftRows(id, p.lines, amounts)) else []
       case None => [])
    case DoCreateProfile(ctx, p, id) =>
      [InsertProfile(Profile(id, p.requestId, ProfileDigest(p), p.effectiveFrom, p.status, ctx.user))]
    case DoAssess(ctx, p, id) =>
      var after := Apply(db, cmd).db;
      if id in after.assessments then [InsertAssessment(id, after.assessments[id])] else []
    case DoApprove(ctx, c, id, chargeId) =>
      if c.assessment !in db.assessments then []
      else
        var a := db.assessments[c.assessment];
        JournalScript(id, NewEntry(db, ctx, ChargeJournal(c, a), ChargeDigest(c), None), ChargeLines(c, a))
        + [InsertCharge(chargeId, ChargeRow(ctx, c, a.draft, id))]
    case SetActive(a, active) => if a in db.accounts then [UpdateAccount(a, db.accounts[a].(active := active))] else []
    case _ => []
  }

  /** The event a command is at the database: its transaction, an empty one when it is
      refused or replays, or the change around it. */
  ghost function EventOf(db: Db, cmd: Command): Event {
    match cmd
    case NewDate(day) => DateBecomes(day)
    case NewBranch(b, active) => BranchChanged(b, active)
    case NewCustomer(c) => CustomerAdded(c)
    case _ => if Apply(db, cmd).Done? && Apply(db, cmd).db != db then Transaction(Script(db, cmd)) else Transaction([])
  }

  lemma SingleRow(db: Db, op: Op, after: Db)
    requires WriteRow(db, op) == Some(after)
    requires !op.InsertEntry? && !op.UpdateEntry? && !op.InsertDraft? && !op.UpdateDraft?
    ensures Commit(db, [op]) == Some(after)
  {
    hide WriteRow;
    ExecuteOne(Begin(db), op);
  }

  lemma ChartRefines(db: Db, cmd: Command)
    requires cmd.DoCreateAccount? || cmd.SetActive? || cmd.DoCreateProfile?
    requires CodesSound(db) && Apply(db, cmd).Done? && Apply(db, cmd).db != db
    ensures Commit(db, Script(db, cmd)) == Some(Apply(db, cmd).db)
  {
    hide Commit, CodesSound;
    var after := Apply(db, cmd).db;
    match cmd {
      case DoCreateAccount(ctx, p, id) =>
        SingleRow(db, InsertAccount(id, Account(p.code, p.kind, p.parent, p.postable, true, 0)), after);
      case SetActive(a, active) =>
        CodesStayUnique(db, a);
        SingleRow(db, UpdateAccount(a, db.accounts[a].(active := active)), after);
      case DoCreateProfile(ctx, p, id) =>
        SingleRow(db, InsertProfile(Profile(id, p.requestId, ProfileDigest(p), p.effectiveFrom, p.status, ctx.user)),
                  after);
    }
  }

  lemma CodesStayUnique(db: Db, a: Id)
    requires CodesSound(db) && a in db.accounts
    ensures forall other :: other in db.accounts && other != a ==> db.accounts[other].code != db.accounts[a].code
  {
  }

  lemma PeriodRefines(db: Db, cmd: Command)
    requires cmd.DoCreatePeriod? || cmd.DoClosePeriod?
    requires PeriodsSound(db) && Apply(db, cmd).Done? && Apply(db, cmd).db != db
    ensures Commit(db, Script(db, cmd)) == Some(Apply(db, cmd).db)
  {
    hide Commit;
    var after := Apply(db, cmd).db;
    match cmd {
      case DoCreatePeriod(ctx, start, end, id) =>
        SingleRow(db, InsertPeriod(id, Period(start, end, Open, None, None)), after);
      case DoClosePeriod(ctx, id) =>
        SingleRow(db, UpdatePeriod(id, after.periods[id]), after);
    }
  }

  lemma BillingRefines(db: Db, cmd: Command)
    requires cmd.DoCreateDraft? || cmd.DoAssess?
    requires Sound(db) && Settled(db) && Apply(db, cmd).Done? && Apply(db, cmd).db != db
    ensures Commit(db, Script(db, cmd)) == Some(Apply(db, cmd).db)
  {
    hide Commit, CreateDraft, Assess, ReadyToDraft, AddDraft, DraftScript, AssessmentAllowed, DraftSettled, ChartSound,
         EntriesSound, LinesSound, PeriodsSound, OpeningSound, ProfilesSound, DraftsSound, AssessmentsSound,
         ChargesSound;
    match cmd {
      case DoCreateDraft(ctx, p, id) =>
        DraftWrites(db, ctx, p, id);
        var amounts := Amounts(p.lines).value;
        DraftAccepted(db, id, DraftRow(ctx, p, ExactSum(amounts)), DraftRows(id, p.lines, amounts));
      case DoAssess(ctx, p, id) =>
        AssessWrites(db, ctx, p, id);
        SingleRow(db, InsertAssessment(id, Apply(db, cmd).db.assessments[id]), Apply(db, cmd).db);
    }
  }

  lemma JournalRefines(db: Db, cmd: Command)
    requires cmd.DoPost? || cmd.DoReverse? || cmd.DoOpen? || cmd.DoApprove?
    requires Sound(db) && Apply(db, cmd).Done? && Apply(db, cmd).db != db
    ensures Commit(db, Script(db, cmd)) == Some(Apply(db, cmd).db)
  {
    hide Commit, Post, Reverse, PostOpening, Approve, ReadyToWrite, JournalScript, Sound, WriteRow, ChargeCheck,
         ValidJournal, Irreversible, ChargeAllowed, RequestTaken;
    SoundLines(db);
    match cmd {
      case DoPost(ctx, p, id) =>
        PostWrites(db, ctx, p, id);
        JournalAccepted(db, id, NewEntry(db, ctx, p, PostDigest(p), None), p.lines);
      case DoReverse(ctx, e, r, id) =>
        ReverseWrites(db, ctx, e, r, id);
        var p := ReversalPayload(db, e, r);
        JournalAccepted(db, id, NewEntry(db, ctx, p, ReverseDigest(e, r), Some(e)), p.lines);
      case DoOpen(ctx, q, id, batchId) =>
        var p := OpeningJournal(q);
        OpenWrites(db, ctx, q, id, batchId);
        OpeningAccepted(db, ctx, q, id, batchId);
        JournalThenRow(db, id, NewEntry(db, ctx, p, OpeningDigest(PostDigest(p)), None), p.lines,
                       InsertOpening(OpeningRow(ctx, q, id, batchId)), Apply(db, cmd).db);
      case DoApprove(ctx, c, id, chargeId) =>
        ApproveWrites(db, ctx, c, id, chargeId);
        ChargeAccepted(db, ctx, c, id, chargeId);
        var a := db.assessments[c.assessment];
        var entry := NewEntry(db, ctx, ChargeJournal(c, a), ChargeDigest(c), None);
        ChargeWrite(AddJournal(db, id, entry, ChargeLines(c, a)), chargeId, ChargeRow(ctx, c, a.draft, id));
        JournalThenRow(db, id, entry, ChargeLines(c, a), InsertCharge(chargeId, ChargeRow(ctx, c, a.draft, id)),
                       Apply(db, cmd).db);
    }
  }

  lemma SoundLines(db: Db)
    requires Sound(db)
    ensures LinesSound(db)
  {
  }

  lemma ChargeWrite(db: Db, chargeId: Id, row: Charge)
    requires ChargeAllowed(db, chargeId, row)
    ensures WriteRow(db, InsertCharge(chargeId, row)) == Some(db.(charges := db.charges[chargeId := row]))
  {
    hide ChargeAllowed;
  }

  lemma EmptyTransaction(db: Db)
    ensures Commit(db, []) == Some(db)
  {
  }

  /** Every command does at the database exactly what its description says: what it writes is
      accepted by all row triggers and deferred checks, and a refused command writes nothing. */
  lemma CommandRefines(db: Db, cmd: Command)
    requires Sound(db) && Settled(db)
    ensures React(db, EventOf(db, cmd)) == Step(db, cmd)
  {
    hide Sound, Settled, Commit, Post, Reverse, PostOpening, Approve, CreateDraft, Assess, CreateProfile,
         CreateAccount, CreatePeriod, ClosePeriod, Script;
    EmptyTransaction(db);
    if Apply(db, cmd).Done? && Apply(db, cmd).db != db {
      match cmd {
        case DoCreateDraft(_, _, _) => BillingRefines(db, cmd);
        case DoAssess(_, _, _) => BillingRefines(db, cmd);
        case DoPost(_, _, _) => JournalRefines(db, cmd);
        case DoReverse(_, _, _, _) => JournalRefines(db, cmd);
        case DoOpen(_, _, _, _) => JournalRefines(db, cmd);
        case DoApprove(_, _, _, _) => JournalRefines(db, cmd);
        case NewDate(_) =>
        case NewBranch(_, _) =>
        case NewCustomer(_) =>
        case DoCreatePeriod(_, _, _, _) => SoundChartRows(db); PeriodRefines(db, cmd);
        case DoClosePeriod(_, _) => SoundChartRows(db); PeriodRefines(db, cmd);
        case _ => SoundChartRows(db); ChartRefines(db, cmd);
      }
    }
  }

  lemma SoundChartRows(db: Db)
    requires Sound(db)
    ensures PeriodsSound(db) && CodesSound(db)
  {
  }

  /** A run of commands is a history of accepted transactions. */
  ghost function EventsOf(db: Db, cmds: seq<Command>): seq<Event> {
    if cmds == [] then []
    else EventsOf(db, cmds[..|cmds| - 1]) + [EventOf(Run(db, cmds[..|cmds| - 1]), cmds[|cmds| - 1])]
  }

  lemma {:induction false} RunIsHistory(db: Db, cmds: seq<Command>)
    requires Sound(db) && Settled(db)
    ensures Run(db, cmds) == History(db, EventsOf(db, cmds))
    ensures Sound(Run(db, cmds)) && Settled(Run(db, cmds)) && Extends(db, Run(db, cmds))
  {
    hide Sound, Settled, Extends, Step, React, EventOf;
    if cmds == [] {
      ExtendsReflexive(db);
    } else {
      var front := cmds[..|cmds| - 1];
      RunIsHistory(db, front);
      CommandRefines(Run(db, front), cmds[|cmds| - 1]);
      var events := EventsOf(db, cmds);
      assert events[..|events| - 1] == EventsOf(db, front);
      HistoryKeeps(db, events);
    }
  }
}
