/** The rows of one organization, as the accounting and billing tables hold them. Every query
    the program makes is scoped by organization, so other organizations' rows never appear. */
module Tables {
  import opened Base

  const MAX_AMOUNT: nat := 999999999999999999

  // ---------------------------------------------------------------- request bodies

  datatype LineIn = LineIn(account: Id, debit: int, credit: int, description: Option<string>)

  datatype JournalIn = JournalIn(
    requestId: Id, branch: Option<Id>, bookingDate: Day, description: string, lines: seq<LineIn>)

  datatype ReversalIn = ReversalIn(requestId: Id, bookingDate: Day, reason: string)

  datatype ChargeIn = ChargeIn(
    requestId: Id, assessment: Id, customer: Id, receivable: Id, revenue: Id, tax: Id, bookingDate: Day, basis: string)

  datatype DraftLineIn = DraftLineIn(service: string, mills: nat, price: nat)

  datatype DraftIn = DraftIn(requestId: Id, customerName: string, lines: seq<DraftLineIn>)

  datatype Registration = Unknown | Registered | NotRegistered

  datatype ProfileIn = ProfileIn(requestId: Id, effectiveFrom: Day, status: Registration)

  datatype AssessmentIn = AssessmentIn(requestId: Id, draft: Id, day: Day, basis: string)

  /** request_digest names its operation and hashes a canonical text; it is taken as
      injective, so a digest is the operation and its normalized content. */
  datatype Digest =
    | PostDigest(journal: JournalIn)
    | ReverseDigest(entryId: Id, reversal: ReversalIn)
    | OpeningDigest(journalDigest: Digest)
    | ChargeDigest(charge: ChargeIn)
    | DraftDigest(draft: DraftIn)
    | ProfileDigest(profile: ProfileIn)
    | AssessmentDigest(assessment: AssessmentIn)

  // ---------------------------------------------------------------- rows

  datatype AccountType = Asset | Liability | Equity | Revenue | Expense

  /** `created` is the row's place in creation order. */
  datatype Account = Account(
    code: string, kind: AccountType, parent: Option<Id>, postable: bool, active: bool, created: nat)

  datatype PeriodStatus = Open | Closed

  datatype Period = Period(start: Day, end: Day, status: PeriodStatus, closedAt: Option<int>, closedBy: Option<Id>)

  datatype EntryStatus = Draft | Posted

  datatype Entry = Entry(
    branch: Option<Id>, requestId: Id, digest: Digest, bookingDate: Day, description: string, currency: string,
    status: EntryStatus, reversalOf: Option<Id>, postedBy: Id, postedAt: Option<int>)

  datatype LineRow = LineRow(entryId: Id, number: int, line: LineIn)

  datatype Opening = Opening(id: Id, journalId: Id, bookingDate: Day, createdBy: Id)

  datatype DraftStatus = Building | Sealed

  datatype ServiceDraft = ServiceDraft(
    requestId: Id, digest: Digest, customerName: string, total: int, currency: string, status: DraftStatus,
      createdBy: Id)

  datatype DraftLineRow = DraftLineRow(draftId: Id, number: int, service: string, mills: int, price: int, total: int)

  datatype Profile = Profile(id: Id, requestId: Id, digest: Digest, from: Day, status: Registration, createdBy: Id)

  datatype Assessment = Assessment(
    requestId: Id, digest: Digest, draft: Id, profile: Id, day: Day, basis: string,
    net: int, tax: int, gross: int, createdBy: Id)

  datatype Charge = Charge(
    requestId: Id, digest: Digest, draft: Id, assessment: Id, customer: Id, journalId: Id,
    receivable: Id, revenue: Id, tax: Id, bookingDate: Day, basis: string, createdBy: Id)

  /** `today` is the organization's local date, read by the service and by the database. */
  datatype Db = Db(
    organizationId: Id, currency: string, today: Day,
    branches: map<Id, bool>, customers: set<Id>,
    accounts: map<Id, Account>, accountsCreated: nat,
    periods: map<Id, Period>,
    entries: map<Id, Entry>, lines: seq<LineRow>,
    opening: Option<Opening>,
    drafts: map<Id, ServiceDraft>, draftLines: seq<DraftLineRow>,
    profiles: seq<Profile>,
    assessments: map<Id, Assessment>,
    charges: map<Id, Charge>)

  function EmptyDb(organizationId: Id, currency: string, today: Day): Db {
    Db(organizationId, currency, today, map[], {}, map[], 0, map[], map[], [], None, map[], [], [], map[], map[])
  }

  // ---------------------------------------------------------------- queries

  /** The lines of one journal in the order they were written. */
  function LinesOf(rows: seq<LineRow>, entryId: Id): seq<LineRow> {
    if rows == [] then []
    else
      var front := LinesOf(rows[..|rows| - 1], entryId);
      if rows[|rows| - 1].entryId == entryId then front + [rows[|rows| - 1]] else front
  }

  function DebitSum(rows: seq<LineRow>): int {
    if rows == [] then 0 else DebitSum(rows[..|rows| - 1]) + rows[|rows| - 1].line.debit
  }

  function CreditSum(rows: seq<LineRow>): int {
    if rows == [] then 0 else CreditSum(rows[..|rows| - 1]) + rows[|rows| - 1].line.credit
  }

  function DraftLinesOf(rows: seq<DraftLineRow>, draftId: Id): seq<DraftLineRow> {
    if rows == [] then []
    else
      var front := DraftLinesOf(rows[..|rows| - 1], draftId);
      if rows[|rows| - 1].draftId == draftId then front + [rows[|rows| - 1]] else front
  }

  function LineTotals(rows: seq<DraftLineRow>): int {
    if rows == [] then 0 else LineTotals(rows[..|rows| - 1]) + rows[|rows| - 1].total
  }

  predicate PostedIn(db: Db, id: Id) { id in db.entries && db.entries[id].status == Posted }

  predicate InClosedPeriod(db: Db, day: Day) {
    exists p :: p in db.periods && db.periods[p].status == Closed && db.periods[p].start <= day <= db.periods[p].end
  }

  predicate OnOrBeforeCutover(db: Db, day: Day) { db.opening.Some? && day <= db.opening.value.bookingDate }

  /** Latest declaration effective on a day: ORDER BY effective_from DESC LIMIT 1. */
  function ProfileOn(profiles: seq<Profile>, day: Day): Option<Profile> {
    if profiles == [] then None
    else
      var front, last := ProfileOn(profiles[..|profiles| - 1], day), profiles[|profiles| - 1];
      if last.from <= day && (front.None? || front.value.from < last.from) then Some(last) else front
  }

  predicate ChargedJournal(db: Db, journalId: Id) {
    exists c :: c in db.charges && db.charges[c].journalId == journalId
  }

  predicate HasReversal(db: Db, entryId: Id) {
    exists id :: id in db.entries && db.entries[id].reversalOf == Some(entryId)
  }

  predicate InRange(amount: int) { 0 <= amount <= MAX_AMOUNT }

  /** (debit > 0 AND credit = 0) OR (credit > 0 AND debit = 0), in NUMERIC(18, 2). */
  predicate OneSided(line: LineIn) {
    && InRange(line.debit) && InRange(line.credit)
    && ((line.debit > 0 && line.credit == 0) || (line.credit > 0 && line.debit == 0))
  }

  // ---------------------------------------------------------------- facts about the queries

  lemma {:induction false} LinesOfConcat(a: seq<LineRow>, b: seq<LineRow>, id: Id)
    ensures LinesOf(a + b, id) == LinesOf(a, id) + LinesOf(b, id)
  {
    if b == [] {
      assert a + b == a;
    } else {
      assert (a + b)[..|a + b| - 1] == a + b[..|b| - 1];
      LinesOfConcat(a, b[..|b| - 1], id);
    }
  }

  lemma {:induction false} LinesOfOthers(rows: seq<LineRow>, id: Id)
    requires forall k :: 0 <= k < |rows| ==> rows[k].entryId != id
    ensures LinesOf(rows, id) == []
  {
    if rows != [] {
      LinesOfOthers(rows[..|rows| - 1], id);
    }
  }

  lemma {:induction false} LinesOfAll(rows: seq<LineRow>, id: Id)
    requires forall k :: 0 <= k < |rows| ==> rows[k].entryId == id
    ensures LinesOf(rows, id) == rows
  {
    if rows != [] {
      LinesOfAll(rows[..|rows| - 1], id);
    }
  }

  /** Every line found for a journal is a stored row of that journal, and conversely. */
  lemma {:induction false} LinesOfMembers(rows: seq<LineRow>, id: Id)
    ensures forall k :: 0 <= k < |LinesOf(rows, id)| ==>
              LinesOf(rows, id)[k] in rows && LinesOf(rows, id)[k].entryId == id
    ensures forall k :: 0 <= k < |rows| && rows[k].entryId == id ==> rows[k] in LinesOf(rows, id)
  {
    if rows != [] {
      var front := rows[..|rows| - 1];
      LinesOfMembers(front, id);
      assert rows == front + [rows[|rows| - 1]];
    }
  }

  lemma {:induction false} DraftLinesOfConcat(a: seq<DraftLineRow>, b: seq<DraftLineRow>, id: Id)
    ensures DraftLinesOf(a + b, id) == DraftLinesOf(a, id) + DraftLinesOf(b, id)
  {
    if b == [] {
      assert a + b == a;
    } else {
      assert (a + b)[..|a + b| - 1] == a + b[..|b| - 1];
      DraftLinesOfConcat(a, b[..|b| - 1], id);
    }
  }

  lemma {:induction false} DraftLinesOfOthers(rows: seq<DraftLineRow>, id: Id)
    requires forall k :: 0 <= k < |rows| ==> rows[k].draftId != id
    ensures DraftLinesOf(rows, id) == []
  {
    if rows != [] {
      DraftLinesOfOthers(rows[..|rows| - 1], id);
    }
  }

  lemma {:induction false} DraftLinesOfAll(rows: seq<DraftLineRow>, id: Id)
    requires forall k :: 0 <= k < |rows| ==> rows[k].draftId == id
    ensures DraftLinesOf(rows, id) == rows
  {
    if rows != [] {
      DraftLinesOfAll(rows[..|rows| - 1], id);
    }
  }

  lemma {:induction false} DraftLinesOfMembers(rows: seq<DraftLineRow>, id: Id)
    ensures forall k :: 0 <= k < |DraftLinesOf(rows, id)| ==>
              DraftLinesOf(rows, id)[k] in rows && DraftLinesOf(rows, id)[k].draftId == id
  {
    if rows != [] {
      DraftLinesOfMembers(rows[..|rows| - 1], id);
    }
  }

  /** The selected declaration is the latest one that is effective on the day. */
  lemma {:induction false} ProfileOnIsLatest(profiles: seq<Profile>, day: Day)
    ensures ProfileOn(profiles, day).None? <==> forall i :: 0 <= i < |profiles| ==> profiles[i].from > day
    ensures ProfileOn(profiles, day).Some? ==>
              var best := ProfileOn(profiles, day).value;
              best in profiles && best.from <= day && forall i :: 0 <= i < |profiles| && profiles[i].from <= day ==>
                  profiles[i].from <= best.from
  {
    if profiles != [] {
      var front := profiles[..|profiles| - 1];
      ProfileOnIsLatest(front, day);
      assert profiles == front + [profiles[|profiles| - 1]];
    }
  }

  lemma {:induction false} LaterProfilesInvisible(a: seq<Profile>, b: seq<Profile>, day: Day)
    requires forall i :: 0 <= i < |b| ==> b[i].from > day
    ensures ProfileOn(a + b, day) == ProfileOn(a, day)
  {
    if b == [] {
      assert a + b == a;
    } else {
      assert (a + b)[..|a + b| - 1] == a + b[..|b| - 1];
      LaterProfilesInvisible(a, b[..|b| - 1], day);
    }
  }
}
