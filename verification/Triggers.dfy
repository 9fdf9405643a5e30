/** The database layer: row writes as the constraints and PL/pgSQL triggers of migrations
    0002 to 0010 accept or abort them, and transactions with the checks deferred to commit.
    A row trigger that raises, or a violated constraint, aborts the whole transaction. */
module Triggers {
  import opened Base
  import opened Rounding
  import opened Tables

  /** Tables on which every UPDATE and DELETE raises. */
  datatype FrozenTable = JournalLines | OpeningBatches | DraftLines | TaxProfiles | TaxAssessments | ServiceCharges

  datatype Op =
    | InsertEntry(id: Id, entry: Entry)
    | UpdateEntry(id: Id, entry: Entry)
    | DeleteEntry(id: Id)
    | InsertLine(line: LineRow)
    | InsertPeriod(id: Id, period: Period)
    | UpdatePeriod(id: Id, period: Period)
    | DeletePeriod(id: Id)
    | InsertOpening(opening: Opening)
    | InsertAccount(id: Id, account: Account)
    | UpdateAccount(id: Id, account: Account)
    | InsertDraft(id: Id, draft: ServiceDraft)
    | UpdateDraft(id: Id, draft: ServiceDraft)
    | InsertDraftLine(draftLine: DraftLineRow)
    | InsertProfile(profile: Profile)
    | InsertAssessment(id: Id, assessment: Assessment)
    | InsertCharge(id: Id, charge: Charge)
    | Rewrite(table: FrozenTable)

  // ---------------------------------------------------------------- journals

  /** reject_closed_period_journal and reject_before_opening_journal, which look at a row
      the moment it becomes POSTED. */
  predicate PostingAllowed(db: Db, id: Id, entry: Entry) {
    && !InClosedPeriod(db, entry.bookingDate)
    && (db.opening.Some? ==>
          && entry.reversalOf != Some(db.opening.value.journalId)
          && (id == db.opening.value.journalId || entry.bookingDate > db.opening.value.bookingDate))
  }

  /** Unique request and reversal, the self-reference checks, and reject_charge_reversal. */
  predicate EntryAllowed(db: Db, id: Id, entry: Entry) {
    && (forall other :: other in db.entries && other != id ==> db.entries[other].requestId != entry.requestId)
    && (entry.reversalOf.Some? ==>
          && entry.reversalOf.value in db.entries && entry.reversalOf.value != id
          && (forall other :: other in db.entries && other != id ==> db.entries[other].reversalOf != entry.reversalOf)
          && !ChargedJournal(db, entry.reversalOf.value))
  }

  function WriteEntryRow(db: Db, id: Id, entry: Entry): Option<Db> {
    if EntryAllowed(db, id, entry) && (entry.status == Posted ==> PostingAllowed(db, id, entry))
    then Some(db.(entries := db.entries[id := entry]))
    else None
  }

  /** guard_journal_line, require_postable_journal_account and the line constraints. */
  predicate LineAllowed(db: Db, row: LineRow) {
    && row.entryId in db.entries && db.entries[row.entryId].status == Draft
    && row.line.account in db.accounts && db.accounts[row.line.account].postable
    && row.number > 0 && OneSided(row.line)
    && forall k :: 0 <= k < |db.lines| && db.lines[k].entryId == row.entryId ==> db.lines[k].number != row.number
  }

  /** require_balanced_posted_journal, run at commit for every journal written. */
  predicate EntrySettled(db: Db, id: Id) {
    id in db.entries ==>
      && db.entries[id].status == Posted && db.entries[id].postedAt.Some?
      && var rows := LinesOf(db.lines, id);
         |rows| >= 2 && DebitSum(rows) > 0 && DebitSum(rows) == CreditSum(rows)
  }

  // ---------------------------------------------------------------- periods, opening, accounts

  /** ck_period_dates and ck_period_closure_state. */
  predicate PeriodConsistent(p: Period) {
    && p.start <= p.end
    && (p.status == Closed <==> p.closedAt.Some?) && (p.status == Closed <==> p.closedBy.Some?)
  }

  /** guard_accounting_period on INSERT. */
  predicate PeriodInsertAllowed(db: Db, id: Id, p: Period) {
    && id !in db.periods && PeriodConsistent(p) && p.status == Open
    && forall other :: other in db.periods ==> db.periods[other].start > p.end || db.periods[other].end < p.start
  }

  /** guard_accounting_period on UPDATE: only one-way closure. */
  predicate PeriodUpdateAllowed(was: Period, now: Period) {
    && PeriodConsistent(now) && now.start == was.start && now.end == was.end
    && was.status == Open && now.status == Closed
  }

  /** guard_opening_balance_batch; the organization column is unique. */
  predicate OpeningAllowed(db: Db, o: Opening) {
    && db.opening.None?
    && PostedIn(db, o.journalId)
    && db.entries[o.journalId].bookingDate == o.bookingDate
    && db.entries[o.journalId].branch.None?
    && forall id :: id in db.entries && PostedIn(db, id) && id != o.journalId ==>
        db.entries[id].bookingDate > o.bookingDate
  }

  /** guard_account_structure and the unique code. */
  predicate AccountInsertAllowed(db: Db, id: Id, a: Account) {
    && id !in db.accounts
    && (forall other :: other in db.accounts ==> db.accounts[other].code != a.code)
    && (a.parent.Some? ==>
          && a.parent.value in db.accounts
          && db.accounts[a.parent.value].kind == a.kind
          && !db.accounts[a.parent.value].postable && db.accounts[a.parent.value].active)
  }

  predicate AccountUpdateAllowed(db: Db, id: Id, now: Account)
    requires id in db.accounts
  {
    var was := db.accounts[id];
    && now.parent == was.parent && now.kind == was.kind && now.postable == was.postable && now.created == was.created
    && forall other :: other in db.accounts && other != id ==> db.accounts[other].code != now.code
  }

  // ---------------------------------------------------------------- billing

  /** guard_service_draft on INSERT. */
  predicate DraftInsertAllowed(db: Db, id: Id, d: ServiceDraft) {
    && id !in db.drafts && d.status == Building && d.currency == "SAR" && InRange(d.total)
    && forall other :: other in db.drafts ==> db.drafts[other].requestId != d.requestId
  }

  /** guard_service_draft on UPDATE: sealing changes nothing but the status. */
  predicate DraftUpdateAllowed(was: ServiceDraft, now: ServiceDraft) {
    was.status == Building && now == was.(status := Sealed)
  }

  /** guard_service_draft_line, ck_draft_line_number, ck_draft_line_values and
      ck_draft_line_exact_total, with the column widths. */
  predicate DraftLineAllowed(db: Db, row: DraftLineRow) {
    && row.draftId in db.drafts && db.drafts[row.draftId].status == Building
    && 1 <= row.number <= 100
    && 0 < row.mills < 1000000000000 && 0 <= row.price < 100000000000000 && InRange(row.total)
    && RoundsHalfAway(row.mills * row.price, 1000, row.total)
    && forall k :: 0 <= k < |db.draftLines| && db.draftLines[k].draftId == row.draftId ==>
        db.draftLines[k].number != row.number
  }

  /** require_complete_service_draft, run at commit for every draft written. */
  predicate DraftSettled(db: Db, id: Id) {
    id in db.drafts ==>
      && db.drafts[id].status == Sealed
      && var rows := DraftLinesOf(db.draftLines, id);
         1 <= |rows| <= 100 && db.drafts[id].total == LineTotals(rows)
  }

  /** guard_tax_profile. */
  predicate ProfileAllowed(db: Db, p: Profile) {
    && p.from >= db.today
    && forall i :: 0 <= i < |db.profiles| ==>
         db.profiles[i].from < p.from && db.profiles[i].id != p.id && db.profiles[i].requestId != p.requestId
  }

  predicate RegisteredUnder(db: Db, day: Day, profileId: Id) {
    var p := ProfileOn(db.profiles, day);
    p.Some? && p.value.id == profileId && p.value.status == Registered
  }

  /** ck_assessment_totals and ck_assessment_standard_tax. */
  predicate AssessmentConsistent(a: Assessment) {
    && InRange(a.net) && InRange(a.tax) && InRange(a.gross)
    && a.net > 0 && a.gross == a.net + a.tax
    && RoundsHalfAway(15 * a.net, 100, a.tax)
  }

  /** guard_tax_assessment. */
  predicate AssessmentAllowed(db: Db, id: Id, a: Assessment) {
    && id !in db.assessments && AssessmentConsistent(a)
    && (forall other :: other in db.assessments ==> db.assessments[other].requestId != a.requestId)
    && db.currency == "SAR"
    && a.draft in db.drafts && db.drafts[a.draft].currency == "SAR" && db.drafts[a.draft].status == Sealed
    && db.drafts[a.draft].total == a.net
    && RegisteredUnder(db, a.day, a.profile)
  }

  predicate HasLine(rows: seq<LineRow>, account: Id, debit: int, credit: int) {
    exists k ::
      && 0 <= k < |rows| && rows[k].line.account == account
      && rows[k].line.debit == debit && rows[k].line.credit == credit
  }

  /** The part of guard_service_charge about the linked journal. */
  predicate JournalReconciles(db: Db, c: Charge)
    requires c.assessment in db.assessments
  {
    var a, rows := db.assessments[c.assessment], LinesOf(db.lines, c.journalId);
    && PostedIn(db, c.journalId)
    && var j := db.entries[c.journalId];
       && j.branch.None? && j.reversalOf.None? && j.currency == "SAR" && j.bookingDate == c.bookingDate
       && j.requestId == c.requestId && j.digest == c.digest && j.postedBy == c.createdBy
       && !HasReversal(db, c.journalId)
       && |rows| == (if a.tax > 0 then 3 else 2)
       && HasLine(rows, c.receivable, a.gross, 0)
       && HasLine(rows, c.revenue, 0, a.net)
       && (a.tax > 0 ==> HasLine(rows, c.tax, 0, a.tax))
  }

  predicate MappedAccount(db: Db, id: Id, kind: AccountType) {
    id in db.accounts && db.accounts[id].kind == kind && db.accounts[id].active && db.accounts[id].postable
  }

  /** guard_service_charge and the unique and foreign keys of service_charges. */
  predicate ChargeAllowed(db: Db, id: Id, c: Charge) {
    && id !in db.charges && c.customer in db.customers
    && (forall other :: other in db.charges ==>
          && db.charges[other].requestId != c.requestId
          && db.charges[other].draft != c.draft
          && db.charges[other].journalId != c.journalId)
    && db.currency == "SAR"
    && c.assessment in db.assessments
    && var a := db.assessments[c.assessment];
       && a.draft == c.draft && a.day == c.bookingDate && c.bookingDate <= db.today
       && RegisteredUnder(db, c.bookingDate, a.profile)
       && c.draft in db.drafts && db.drafts[c.draft].status == Sealed && db.drafts[c.draft].currency == "SAR"
       && db.drafts[c.draft].total == a.net && db.drafts[c.draft].total > 0
       && MappedAccount(db, c.receivable, Asset)
       && MappedAccount(db, c.revenue, Revenue)
       && MappedAccount(db, c.tax, Liability)
       && JournalReconciles(db, c)
  }

  // ---------------------------------------------------------------- row writes

  /** One row write; nothing stands for an aborted transaction. An UPDATE or DELETE that
      matches no row writes nothing. guard_posted_journal returns NEW, which is NULL on a
      DELETE, so deleting a DRAFT journal is silently skipped. */
  function WriteRow(db: Db, op: Op): Option<Db> {
    match op
    case InsertEntry(id, entry) =>
      if id in db.entries then None else WriteEntryRow(db, id, entry)
    case UpdateEntry(id, entry) =>
      if id !in db.entries then Some(db)
      else if db.entries[id].status == Posted then None
      else WriteEntryRow(db, id, entry)
    case DeleteEntry(id) =>
      if PostedIn(db, id) then None else Some(db)
    case InsertLine(row) =>
      if LineAllowed(db, row) then Some(db.(lines := db.lines + [row])) else None
    case InsertPeriod(id, p) =>
      if PeriodInsertAllowed(db, id, p) then Some(db.(periods := db.periods[id := p])) else None
    case UpdatePeriod(id, p) =>
      if id !in db.periods then Some(db)
      else if PeriodUpdateAllowed(db.periods[id], p) then Some(db.(periods := db.periods[id := p]))
      else None
    case DeletePeriod(id) =>
      if id in db.periods then None else Some(db)
    case InsertOpening(o) =>
      if OpeningAllowed(db, o) then Some(db.(opening := Some(o))) else None
    case InsertAccount(id, a) =>
      if AccountInsertAllowed(db, id, a)
      then Some(db.(accounts := db.accounts[id := a.(created := db.accountsCreated)],
                    accountsCreated := db.accountsCreated + 1))
      else None
    case UpdateAccount(id, a) =>
      if id !in db.accounts then Some(db)
      else if AccountUpdateAllowed(db, id, a) then Some(db.(accounts := db.accounts[id := a]))
      else None
    case InsertDraft(id, d) =>
      if DraftInsertAllowed(db, id, d) then Some(db.(drafts := db.drafts[id := d])) else None
    case UpdateDraft(id, d) =>
      if id !in db.drafts then Some(db)
      else if DraftUpdateAllowed(db.drafts[id], d) then Some(db.(drafts := db.drafts[id := d]))
      else None
    case InsertDraftLine(row) =>
      if DraftLineAllowed(db, row) then Some(db.(draftLines := db.draftLines + [row])) else None
    case InsertProfile(p) =>
      if ProfileAllowed(db, p) then Some(db.(profiles := db.profiles + [p])) else None
    case InsertAssessment(id, a) =>
      if AssessmentAllowed(db, id, a) then Some(db.(assessments := db.assessments[id := a])) else None
    case InsertCharge(id, c) =>
      if ChargeAllowed(db, id, c) then Some(db.(charges := db.charges[id := c])) else None
    case Rewrite(_) => None
  }

  // ---------------------------------------------------------------- transactions

  /** Rows as the open transaction sees them, and the rows whose deferred check is due. */
  datatype Tx = Tx(db: Db, journals: set<Id>, drafts: set<Id>)

  function Begin(db: Db): Tx { Tx(db, {}, {}) }

  function JournalsTouched(db: Db, op: Op): set<Id> {
    match op
    case InsertEntry(id, _) => {id}
    case UpdateEntry(id, _) => if id in db.entries then {id} else {}
    case _ => {}
  }

  function DraftsTouched(db: Db, op: Op): set<Id> {
    match op
    case InsertDraft(id, _) => {id}
    case UpdateDraft(id, _) => if id in db.drafts then {id} else {}
    case _ => {}
  }

  function Execute(tx: Tx, op: Op): Option<Tx> {
    match WriteRow(tx.db, op)
    case None => None
    case Some(db) => Some(Tx(db, tx.journals + JournalsTouched(tx.db, op), tx.drafts + DraftsTouched(tx.db, op)))
  }

  function ExecuteAll(tx: Tx, ops: seq<Op>): Option<Tx> {
    if ops == [] then Some(tx)
    else match ExecuteAll(tx, ops[..|ops| - 1])
      case None => None
      case Some(mid) => Execute(mid, ops[|ops| - 1])
  }

  predicate Committable(tx: Tx) {
    && (forall id :: id in tx.journals ==> EntrySettled(tx.db, id))
    && (forall id :: id in tx.drafts ==> DraftSettled(tx.db, id))
  }

  /** The state a transaction leaves behind, or nothing when it is rolled back. */
  function Commit(db: Db, ops: seq<Op>): Option<Db> {
    match ExecuteAll(Begin(db), ops)
    case None => None
    case Some(tx) => if Committable(tx) then Some(tx.db) else None
  }

  /** Everything that happens to an organization's rows: transactions of any row writes,
      whether the program or anyone else issues them, and changes outside these tables. */
  datatype Event =
    | Transaction(ops: seq<Op>)
    | DateBecomes(day: Day)
    | BranchChanged(branch: Id, active: bool)
    | CustomerAdded(customer: Id)

  function React(db: Db, e: Event): Db {
    match e
    case Transaction(ops) => (match Commit(db, ops) case Some(after) => after case None => db)
    case DateBecomes(day) => if day < db.today then db else db.(today := day)
    case BranchChanged(b, active) => db.(branches := db.branches[b := active])
    case CustomerAdded(c) => db.(customers := db.customers + {c})
  }

  function History(db: Db, events: seq<Event>): Db {
    if events == [] then db else React(History(db, events[..|events| - 1]), events[|events| - 1])
  }
}
