/** What the triggers alone guarantee, whoever writes the rows: invariants of every state a
    history of transactions can reach, and what no later history can change. */
module TriggerProofs {
  import opened Base
  import opened Rounding
  import opened Tables
  import opened Triggers

  // ---------------------------------------------------------------- invariants

  ghost predicate CodesSound(db: Db) {
    forall a, b :: a in db.accounts && b in db.accounts && a != b ==> db.accounts[a].code != db.accounts[b].code
  }

  /** Parents are older, non-postable and of the child's type. */
  ghost predicate ChartSound(db: Db) {
    && (forall a :: a in db.accounts ==> db.accounts[a].created < db.accountsCreated)
    && (forall a :: a in db.accounts && db.accounts[a].parent.Some? ==> ParentSound(db, a, db.accounts[a].parent.value))
  }

  ghost predicate ParentSound(db: Db, child: Id, parent: Id)
    requires child in db.accounts
  {
    && parent in db.accounts
    && !db.accounts[parent].postable
    && db.accounts[parent].kind == db.accounts[child].kind
    && db.accounts[parent].created < db.accounts[child].created
  }

  ghost predicate EntriesSound(db: Db) {
    && (forall a, b :: a in db.entries && b in db.entries && a != b ==>
          db.entries[a].requestId != db.entries[b].requestId)
    && (forall a, b :: a in db.entries && b in db.entries && a != b && db.entries[a].reversalOf.Some? ==>
          db.entries[a].reversalOf != db.entries[b].reversalOf)
    && (forall a :: a in db.entries && db.entries[a].reversalOf.Some? ==>
          db.entries[a].reversalOf.value in db.entries && db.entries[a].reversalOf.value != a)
  }

  ghost predicate LineSound(db: Db, row: LineRow) {
    && row.entryId in db.entries
    && row.line.account in db.accounts && db.accounts[row.line.account].postable
    && row.number > 0 && OneSided(row.line)
  }

  ghost predicate LinesSound(db: Db) {
    && (forall k :: 0 <= k < |db.lines| ==> LineSound(db, db.lines[k]))
    && (forall j, k :: 0 <= j < k < |db.lines| && db.lines[j].entryId == db.lines[k].entryId ==>
          db.lines[j].number != db.lines[k].number)
  }

  ghost predicate PeriodsSound(db: Db) {
    && (forall p :: p in db.periods ==> PeriodConsistent(db.periods[p]))
    && (forall p, q :: p in db.periods && q in db.periods && p != q ==>
          db.periods[p].start > db.periods[q].end || db.periods[p].end < db.periods[q].start)
  }

  /** The opening's journal is the only posted journal on or before the cutover date. */
  ghost predicate OpeningSound(db: Db) {
    db.opening.Some? ==>
      var o := db.opening.value;
      && PostedIn(db, o.journalId)
      && db.entries[o.journalId].bookingDate == o.bookingDate
      && db.entries[o.journalId].branch.None?
      && forall id :: PostedIn(db, id) && id != o.journalId ==> db.entries[id].bookingDate > o.bookingDate
  }

  ghost predicate ProfilesSound(db: Db) {
    forall i, j :: 0 <= i < j < |db.profiles| ==>
      && db.profiles[i].from < db.profiles[j].from
      && db.profiles[i].id != db.profiles[j].id
      && db.profiles[i].requestId != db.profiles[j].requestId
  }

  ghost predicate DraftLineSound(db: Db, row: DraftLineRow) {
    && row.draftId in db.drafts && 1 <= row.number <= 100
    && 0 < row.mills < 1000000000000 && 0 <= row.price < 100000000000000 && InRange(row.total)
    && RoundsHalfAway(row.mills * row.price, 1000, row.total)
  }

  ghost predicate DraftsSound(db: Db) {
    && (forall a, b :: a in db.drafts && b in db.drafts && a != b ==> db.drafts[a].requestId != db.drafts[b].requestId)
    && (forall a :: a in db.drafts ==> db.drafts[a].currency == "SAR" && InRange(db.drafts[a].total))
    && (forall k :: 0 <= k < |db.draftLines| ==> DraftLineSound(db, db.draftLines[k]))
    && (forall j, k :: 0 <= j < k < |db.draftLines| && db.draftLines[j].draftId == db.draftLines[k].draftId ==>
          db.draftLines[j].number != db.draftLines[k].number)
  }

  /** An assessment's net is the total of its sealed draft and its tax is 15% of it. */
  ghost predicate AssessmentSound(db: Db, a: Assessment) {
    && AssessmentConsistent(a)
    && a.draft in db.drafts && db.drafts[a.draft].status == Sealed && db.drafts[a.draft].total == a.net
    && RegisteredProfile(db.profiles, a.profile)
  }

  ghost predicate RegisteredProfile(profiles: seq<Profile>, id: Id) {
    exists i :: 0 <= i < |profiles| && profiles[i].id == id && profiles[i].status == Registered
  }

  ghost predicate AssessmentsSound(db: Db) {
    && (forall a :: a in db.assessments ==> AssessmentSound(db, db.assessments[a]))
    && (forall a, b :: a in db.assessments && b in db.assessments && a != b ==>
          db.assessments[a].requestId != db.assessments[b].requestId)
  }

  ghost predicate OfKind(db: Db, id: Id, kind: AccountType) { id in db.accounts && db.accounts[id].kind == kind }

  ghost predicate ChargeSound(db: Db, c: Charge) {
    && c.assessment in db.assessments
    && db.assessments[c.assessment].draft == c.draft && db.assessments[c.assessment].day == c.bookingDate
    && OfKind(db, c.receivable, Asset) && OfKind(db, c.revenue, Revenue) && OfKind(db, c.tax, Liability)
    && JournalReconciles(db, c)
  }

  ghost predicate ChargesSound(db: Db) {
    && (forall c :: c in db.charges ==> ChargeSound(db, db.charges[c]) && db.charges[c].bookingDate <= db.today)
    && (forall c, d :: c in db.charges && d in db.charges && c != d ==>
          && db.charges[c].requestId != db.charges[d].requestId
          && db.charges[c].draft != db.charges[d].draft
          && db.charges[c].journalId != db.charges[d].journalId)
  }

  /** What holds after every single row write. */
  ghost predicate Sound(db: Db) {
    && CodesSound(db) && ChartSound(db) && EntriesSound(db) && LinesSound(db) && PeriodsSound(db) && OpeningSound(db)
    && ProfilesSound(db) && DraftsSound(db) && AssessmentsSound(db) && ChargesSound(db)
  }

  /** What additionally holds after every committed transaction: each journal is posted with
      at least two lines and equal positive sides, each draft is the sum of its lines. */
  ghost predicate Settled(db: Db) {
    && (forall id :: id in db.entries ==> EntrySettled(db, id))
    && (forall id :: id in db.drafts ==> DraftSettled(db, id))
  }

  // ---------------------------------------------------------------- what later writes keep

  ghost predicate ChartExtends(db: Db, later: Db) {
    forall a :: a in db.accounts ==>
      && a in later.accounts
      && later.accounts[a].parent == db.accounts[a].parent && later.accounts[a].kind == db.accounts[a].kind
      && later.accounts[a].postable == db.accounts[a].postable && later.accounts[a].created == db.accounts[a].created
  }

  /** What a journal that becomes posted later cannot do to the present state. */
  ghost predicate NewlyPostable(db: Db, entry: Entry) {
    && !InClosedPeriod(db, entry.bookingDate)
    && !OnOrBeforeCutover(db, entry.bookingDate)
    && (db.opening.Some? ==> entry.reversalOf != Some(db.opening.value.journalId))
  }

  /** Posted journals stay as they are, lines are only appended and never to a posted one,
      and no journal becomes posted inside a closed period or behind the cutover. */
  ghost predicate JournalExtends(db: Db, later: Db) {
    && (forall id :: PostedIn(db, id) ==> id in later.entries && later.entries[id] == db.entries[id])
    && |db.lines| <= |later.lines| && db.lines == later.lines[..|db.lines|]
    && (forall k :: |db.lines| <= k < |later.lines| ==> !PostedIn(db, later.lines[k].entryId))
    && (forall id :: PostedIn(later, id) && !PostedIn(db, id) ==> NewlyPostable(db, later.entries[id]))
    && (forall j :: ChargedJournal(db, j) && HasReversal(later, j) ==> HasReversal(db, j))
  }

  ghost predicate PeriodsExtend(db: Db, later: Db) {
    forall p :: p in db.periods ==>
      && p in later.periods
      && later.periods[p].start == db.periods[p].start && later.periods[p].end == db.periods[p].end
      && (db.periods[p].status == Closed ==> later.periods[p] == db.periods[p])
  }

  ghost predicate BillingExtends(db: Db, later: Db) {
    && (forall d :: d in db.drafts ==>
          d in later.drafts && (db.drafts[d].status == Sealed ==> later.drafts[d] == db.drafts[d]))
    && |db.draftLines| <= |later.draftLines| && db.draftLines == later.draftLines[..|db.draftLines|]
    && (forall k :: |db.draftLines| <= k < |later.draftLines| ==>
          !(later.draftLines[k].draftId in db.drafts && db.drafts[later.draftLines[k].draftId].status == Sealed))
    && |db.profiles| <= |later.profiles| && db.profiles == later.profiles[..|db.profiles|]
    && (forall k :: |db.profiles| <= k < |later.profiles| ==> later.profiles[k].from >= db.today)
    && (forall a :: a in db.assessments ==> a in later.assessments && later.assessments[a] == db.assessments[a])
    && (forall c :: c in db.charges ==> c in later.charges && later.charges[c] == db.charges[c])
  }

  ghost predicate Extends(db: Db, later: Db) {
    && db.today <= later.today
    && later.organizationId == db.organizationId && later.currency == db.currency
    && (db.opening.Some? ==> later.opening == db.opening)
    && ChartExtends(db, later) && JournalExtends(db, later) && PeriodsExtend(db, later) && BillingExtends(db, later)
  }

  // ---------------------------------------------------------------- one row write

  ghost predicate EntryOp(op: Op) { op.InsertEntry? || op.UpdateEntry? }

  ghost predicate PeriodOp(op: Op) { op.InsertPeriod? || op.UpdatePeriod? }

  ghost predicate AccountOp(op: Op) { op.InsertAccount? || op.UpdateAccount? }

  ghost predicate DraftOp(op: Op) { op.InsertDraft? || op.UpdateDraft? }

  lemma EntryRowFrame(db: Db, id: Id, entry: Entry)
    ensures WriteEntryRow(db, id, entry).Some? ==>
              WriteEntryRow(db, id, entry) == Some(db.(entries := db.entries[id := entry]))
  {
    hide EntryAllowed, PostingAllowed;
  }

  /** A row write changes one table and nothing else. */
  lemma OrganizationFrame(db: Db, op: Op)
    requires WriteRow(db, op).Some?
    ensures var d := WriteRow(db, op).value;
            && d.organizationId == db.organizationId && d.currency == db.currency && d.today == db.today
            && d.branches == db.branches && d.customers == db.customers
  {
    hide EntryAllowed, PostingAllowed, LineAllowed, PeriodInsertAllowed, PeriodUpdateAllowed, OpeningAllowed,
         AccountInsertAllowed, AccountUpdateAllowed, DraftInsertAllowed, DraftUpdateAllowed, DraftLineAllowed,
         ProfileAllowed, AssessmentAllowed, ChargeAllowed, PostedIn, WriteEntryRow;
    if EntryOp(op) {
      EntryRowFrame(db, op.id, op.entry);
    }
  }

  lemma LedgerFrame(db: Db, op: Op)
    requires WriteRow(db, op).Some?
    ensures var d := WriteRow(db, op).value;
            && (!AccountOp(op) ==> d.accounts == db.accounts && d.accountsCreated == db.accountsCreated)
            && (!PeriodOp(op) ==> d.periods == db.periods)
            && (!EntryOp(op) ==> d.entries == db.entries)
            && (!op.InsertLine? ==> d.lines == db.lines)
            && (!op.InsertOpening? ==> d.opening == db.opening)
  {
    hide EntryAllowed, PostingAllowed, LineAllowed, PeriodInsertAllowed, PeriodUpdateAllowed, OpeningAllowed,
         AccountInsertAllowed, AccountUpdateAllowed, DraftInsertAllowed, DraftUpdateAllowed, DraftLineAllowed,
         ProfileAllowed, AssessmentAllowed, ChargeAllowed, PostedIn, WriteEntryRow;
    if EntryOp(op) {
      EntryRowFrame(db, op.id, op.entry);
    }
  }

  lemma BillingFrame(db: Db, op: Op)
    requires WriteRow(db, op).Some?
    ensures var d := WriteRow(db, op).value;
            && (!DraftOp(op) ==> d.drafts == db.drafts)
            && (!op.InsertDraftLine? ==> d.draftLines == db.draftLines)
            && (!op.InsertProfile? ==> d.profiles == db.profiles)
            && (!op.InsertAssessment? ==> d.assessments == db.assessments)
            && (!op.InsertCharge? ==> d.charges == db.charges)
  {
    hide EntryAllowed, PostingAllowed, LineAllowed, PeriodInsertAllowed, PeriodUpdateAllowed, OpeningAllowed,
         AccountInsertAllowed, AccountUpdateAllowed, DraftInsertAllowed, DraftUpdateAllowed, DraftLineAllowed,
         ProfileAllowed, AssessmentAllowed, ChargeAllowed, PostedIn, WriteEntryRow;
    if EntryOp(op) {
      EntryRowFrame(db, op.id, op.entry);
    }
  }

  /** A journal row is inserted fresh or replaces an unposted one, under both guards. */
  lemma EntryEffect(db: Db, op: Op)
    requires WriteRow(db, op).Some? && EntryOp(op)
    ensures WriteRow(db, op).value == db ||
            (&& WriteRow(db, op).value == db.(entries := db.entries[op.id := op.entry])
             && !PostedIn(db, op.id)
             && EntryAllowed(db, op.id, op.entry)
             && (op.entry.status == Posted ==> PostingAllowed(db, op.id, op.entry)))
  {
    hide EntryAllowed, PostingAllowed;
  }

  lemma LineEffect(db: Db, op: Op)
    requires WriteRow(db, op).Some? && op.InsertLine?
    ensures LineAllowed(db, op.line) && WriteRow(db, op).value == db.(lines := db.lines + [op.line])
  {
    hide LineAllowed;
  }

  lemma OtherInsertEffects(db: Db, op: Op)
    requires WriteRow(db, op).Some?
    ensures op.InsertOpening? ==>
              OpeningAllowed(db, op.opening) && WriteRow(db, op).value == db.(opening := Some(op.opening))
    ensures op.InsertProfile? ==>
              ProfileAllowed(db, op.profile) && WriteRow(db, op).value == db.(profiles := db.profiles + [op.profile])
    ensures op.InsertAssessment? ==>
              && AssessmentAllowed(db, op.id, op.assessment)
              && WriteRow(db, op).value == db.(assessments := db.assessments[op.id := op.assessment])
    ensures op.InsertCharge? ==>
              ChargeAllowed(db, op.id, op.charge)
                && WriteRow(db, op).value == db.(charges := db.charges[op.id := op.charge])
    ensures op.InsertDraftLine? ==>
              DraftLineAllowed(db, op.draftLine)
                && WriteRow(db, op).value == db.(draftLines := db.draftLines + [op.draftLine])
  {
    hide OpeningAllowed, ProfileAllowed, AssessmentAllowed, ChargeAllowed, DraftLineAllowed;
  }

  lemma AccountEffect(db: Db, op: Op)
    requires WriteRow(db, op).Some? && AccountOp(op)
    ensures var d := WriteRow(db, op).value;
            || (d.accounts == db.accounts && d.accountsCreated == db.accountsCreated)
            || (&& op.InsertAccount? && AccountInsertAllowed(db, op.id, op.account)
                && d.accounts == db.accounts[op.id := op.account.(created := db.accountsCreated)]
                && d.accountsCreated == db.accountsCreated + 1)
            || (&& op.UpdateAccount? && op.id in db.accounts && AccountUpdateAllowed(db, op.id, op.account)
                && d.accounts == db.accounts[op.id := op.account]
                && d.accountsCreated == db.accountsCreated)
  {
    hide AccountInsertAllowed, AccountUpdateAllowed;
  }

  lemma PeriodEffect(db: Db, op: Op)
    requires WriteRow(db, op).Some? && PeriodOp(op)
    ensures var d := WriteRow(db, op).value;
            || d.periods == db.periods
            || (&& d.periods == db.periods[op.id := op.period]
                && (op.InsertPeriod? ==> PeriodInsertAllowed(db, op.id, op.period))
                && (op.UpdatePeriod? ==> op.id in db.periods && PeriodUpdateAllowed(db.periods[op.id], op.period)))
  {
    hide PeriodInsertAllowed, PeriodUpdateAllowed;
  }

  lemma DraftEffect(db: Db, op: Op)
    requires WriteRow(db, op).Some? && DraftOp(op)
    ensures var d := WriteRow(db, op).value;
            || d.drafts == db.drafts
            || (&& d.drafts == db.drafts[op.id := op.draft]
                && (op.InsertDraft? ==> DraftInsertAllowed(db, op.id, op.draft))
                && (op.UpdateDraft? ==> op.id in db.drafts && DraftUpdateAllowed(db.drafts[op.id], op.draft)))
  {
    hide DraftInsertAllowed, DraftUpdateAllowed;
  }

  lemma KeepsChart(db: Db, op: Op)
    requires ChartSound(db) && WriteRow(db, op).Some?
    ensures ChartSound(WriteRow(db, op).value) && ChartExtends(db, WriteRow(db, op).value)
  {
    hide WriteRow;
    LedgerFrame(db, op);
    if AccountOp(op) {
      AccountEffect(db, op);
    }
  }

  lemma KeepsCodes(db: Db, op: Op)
    requires CodesSound(db) && WriteRow(db, op).Some?
    ensures CodesSound(WriteRow(db, op).value)
  {
    hide WriteRow;
    LedgerFrame(db, op);
    if AccountOp(op) {
      AccountEffect(db, op);
    }
  }

  lemma KeepsEntries(db: Db, op: Op)
    requires EntriesSound(db) && WriteRow(db, op).Some?
    ensures EntriesSound(WriteRow(db, op).value)
  {
    hide WriteRow, PostingAllowed, EntryAllowed, EntriesSound;
    LedgerFrame(db, op);
    if EntryOp(op) {
      EntryEffect(db, op);
      if WriteRow(db, op).value != db {
        EntryFits(db, WriteRow(db, op).value, op.id, op.entry);
      }
    } else {
      SameEntries(db, WriteRow(db, op).value);
    }
  }

  lemma EntryFits(db: Db, d: Db, id: Id, entry: Entry)
    requires EntriesSound(db) && EntryAllowed(db, id, entry) && d.entries == db.entries[id := entry]
    ensures EntriesSound(d)
  {
    hide ChargedJournal;
  }

  lemma SameEntries(db: Db, d: Db)
    requires EntriesSound(db) && d.entries == db.entries
    ensures EntriesSound(d)
  {
  }

  lemma KeepsLines(db: Db, op: Op)
    requires LinesSound(db) && ChartSound(db) && WriteRow(db, op).Some?
    ensures LinesSound(WriteRow(db, op).value)
  {
    hide WriteRow, OneSided, ChartSound, PostingAllowed, EntryAllowed;
    LedgerFrame(db, op);
    KeepsChart(db, op);
    if EntryOp(op) {
      EntryEffect(db, op);
    }
    if op.InsertLine? {
      LineEffect(db, op);
    }
  }

  lemma KeepsPeriods(db: Db, op: Op)
    requires PeriodsSound(db) && WriteRow(db, op).Some?
    ensures PeriodsSound(WriteRow(db, op).value)
  {
    hide WriteRow;
    LedgerFrame(db, op);
    if PeriodOp(op) {
      PeriodEffect(db, op);
    }
  }

  lemma OnlyCloses(db: Db, op: Op)
    requires WriteRow(db, op).Some?
    ensures PeriodsExtend(db, WriteRow(db, op).value)
  {
    hide WriteRow, PeriodConsistent;
    LedgerFrame(db, op);
    if PeriodOp(op) {
      PeriodEffect(db, op);
    }
  }

  lemma KeepsOpening(db: Db, op: Op)
    requires OpeningSound(db) && WriteRow(db, op).Some?
    ensures OpeningSound(WriteRow(db, op).value)
    ensures db.opening.Some? ==> WriteRow(db, op).value.opening == db.opening
  {
    hide WriteRow, EntryAllowed, InClosedPeriod;
    LedgerFrame(db, op);
    if op.InsertOpening? {
      OtherInsertEffects(db, op);
    }
    if EntryOp(op) {
      EntryEffect(db, op);
    }
  }

  lemma KeepsProfiles(db: Db, op: Op)
    requires ProfilesSound(db) && WriteRow(db, op).Some?
    ensures ProfilesSound(WriteRow(db, op).value)
  {
    hide WriteRow;
    BillingFrame(db, op);
    if op.InsertProfile? {
      OtherInsertEffects(db, op);
    }
  }

  lemma KeepsDrafts(db: Db, op: Op)
    requires DraftsSound(db) && WriteRow(db, op).Some?
    ensures DraftsSound(WriteRow(db, op).value)
  {
    hide WriteRow, RoundsHalfAway, InRange;
    BillingFrame(db, op);
    if op.InsertDraftLine? {
      OtherInsertEffects(db, op);
    } else if DraftOp(op) {
      hide DraftLineSound;
      DraftEffect(db, op);
      forall k | 0 <= k < |db.draftLines|
        ensures DraftLineSound(WriteRow(db, op).value, db.draftLines[k])
      {
        DraftRowKept(db, WriteRow(db, op).value, db.draftLines[k]);
      }
    }
  }

  lemma DraftRowKept(db: Db, later: Db, row: DraftLineRow)
    requires DraftLineSound(db, row) && db.drafts.Keys <= later.drafts.Keys
    ensures DraftLineSound(later, row)
  {
  }

  /** A declaration seen on some day is a stored one. */
  lemma RegisteredIsStored(db: Db, day: Day, profileId: Id)
    requires RegisteredUnder(db, day, profileId)
    ensures RegisteredProfile(db.profiles, profileId)
  {
    ProfileOnIsLatest(db.profiles, day);
    var p := ProfileOn(db.profiles, day).value;
    var i :| 0 <= i < |db.profiles| && db.profiles[i] == p;
  }

  lemma KeepsAssessments(db: Db, op: Op)
    requires AssessmentsSound(db) && WriteRow(db, op).Some?
    ensures AssessmentsSound(WriteRow(db, op).value)
  {
    hide WriteRow, AssessmentConsistent, RegisteredUnder, RegisteredProfile;
    BillingFrame(db, op);
    if DraftOp(op) {
      DraftEffect(db, op);
    } else if op.InsertProfile? {
      OtherInsertEffects(db, op);
      forall id: Id | RegisteredProfile(db.profiles, id)
        ensures RegisteredProfile(db.profiles + [op.profile], id)
      {
        MoreProfiles(db.profiles, op.profile, id);
      }
    } else if op.InsertAssessment? {
      OtherInsertEffects(db, op);
      RegisteredIsStored(db, op.assessment.day, op.assessment.profile);
    }
  }

  lemma MoreProfiles(profiles: seq<Profile>, p: Profile, id: Id)
    requires RegisteredProfile(profiles, id)
    ensures RegisteredProfile(profiles + [p], id)
  {
    var i :| 0 <= i < |profiles| && profiles[i].id == id && profiles[i].status == Registered;
    assert (profiles + [p])[i] == profiles[i];
  }

  // ---------------------------------------------------------------- posted journals

  /** No write changes a posted journal or its lines, posts into a closed period or behind
      the cutover, or reverses a charge's journal. */
  lemma KeepsPosted(db: Db, op: Op)
    requires OpeningSound(db) && WriteRow(db, op).Some?
    ensures JournalExtends(db, WriteRow(db, op).value)
  {
    hide WriteRow, InClosedPeriod, ChargedJournal, HasReversal, EntryAllowed;
    LedgerFrame(db, op);
    if EntryOp(op) {
      EntryEffect(db, op);
    }
    if op.InsertLine? {
      LineEffect(db, op);
    }
    NoNewChargeReversal(db, op);
  }

  lemma NoNewChargeReversal(db: Db, op: Op)
    requires WriteRow(db, op).Some?
    ensures forall j :: ChargedJournal(db, j) && HasReversal(WriteRow(db, op).value, j) ==> HasReversal(db, j)
  {
    hide WriteRow, ChargedJournal, PostingAllowed;
    LedgerFrame(db, op);
    if EntryOp(op) {
      EntryEffect(db, op);
    }
    var d := WriteRow(db, op).value;
    forall j | ChargedJournal(db, j) && HasReversal(d, j)
      ensures HasReversal(db, j)
    {
      var id :| id in d.entries && d.entries[id].reversalOf == Some(j);
      assert id in db.entries && db.entries[id] == d.entries[id];
    }
  }

  /** The lines of a posted journal are the same in any later state. */
  lemma PostedLinesKept(db: Db, later: Db, id: Id)
    requires JournalExtends(db, later) && PostedIn(db, id)
    ensures LinesOf(later.lines, id) == LinesOf(db.lines, id)
  {
    hide LinesOf, NewlyPostable, ChargedJournal, HasReversal, InClosedPeriod;
    var more := later.lines[|db.lines|..];
    assert later.lines == db.lines + more;
    LinesOfConcat(db.lines, more, id);
    forall k | 0 <= k < |more|
      ensures more[k].entryId != id
    {
      assert more[k] == later.lines[|db.lines| + k];
    }
    LinesOfOthers(more, id);
  }

  lemma ReconcilesKept(db: Db, later: Db, c: Charge)
    requires c.assessment in db.assessments && JournalReconciles(db, c) && ChargedJournal(db, c.journalId)
    requires JournalExtends(db, later)
    requires c.assessment in later.assessments && later.assessments[c.assessment] == db.assessments[c.assessment]
    ensures JournalReconciles(later, c)
  {
    hide HasLine, NewlyPostable, ChargedJournal;
    PostedLinesKept(db, later, c.journalId);
  }

  lemma KeepsOldCharges(db: Db, op: Op)
    requires ChargesSound(db) && ChartSound(db) && OpeningSound(db) && WriteRow(db, op).Some?
    ensures forall c :: c in db.charges ==> ChargeSound(WriteRow(db, op).value, db.charges[c])
  {
    hide WriteRow, JournalReconciles, ChartSound, OpeningSound, JournalExtends;
    KeepsChart(db, op);
    KeepsPosted(db, op);
    KeepsAssessmentRows(db, op);
    var d := WriteRow(db, op).value;
    forall c | c in db.charges
      ensures ChargeSound(d, db.charges[c])
    {
      assert ChargedJournal(db, db.charges[c].journalId);
      ReconcilesKept(db, d, db.charges[c]);
    }
  }

  lemma KeepsCharges(db: Db, op: Op)
    requires ChargesSound(db) && ChartSound(db) && OpeningSound(db) && WriteRow(db, op).Some?
    ensures ChargesSound(WriteRow(db, op).value)
  {
    hide WriteRow, ChargeSound, ChartSound, OpeningSound;
    OrganizationFrame(db, op);
    BillingFrame(db, op);
    KeepsOldCharges(db, op);
    if op.InsertCharge? {
      NewChargeSound(db, op);
    }
  }

  lemma KeepsAssessmentRows(db: Db, op: Op)
    requires WriteRow(db, op).Some?
    ensures forall a :: a in db.assessments ==>
              a in WriteRow(db, op).value.assessments && WriteRow(db, op).value.assessments[a] == db.assessments[a]
  {
    hide WriteRow;
    BillingFrame(db, op);
    if op.InsertAssessment? {
      OtherInsertEffects(db, op);
    }
  }

  lemma NewChargeSound(db: Db, op: Op)
    requires op.InsertCharge? && WriteRow(db, op).Some?
    ensures var d := WriteRow(db, op).value;
            && d.charges == db.charges[op.id := op.charge] && op.id !in db.charges
            && ChargeSound(d, op.charge) && op.charge.bookingDate <= d.today
            && forall other :: other in db.charges ==>
                 && db.charges[other].requestId != op.charge.requestId
                 && db.charges[other].draft != op.charge.draft
                 && db.charges[other].journalId != op.charge.journalId
  {
    hide WriteRow, RegisteredUnder, HasLine, LinesOf;
    OrganizationFrame(db, op);
    OtherInsertEffects(db, op);
  }

  // ---------------------------------------------------------------- one write, all invariants

  lemma KeepsSound(db: Db, op: Op)
    requires Sound(db) && WriteRow(db, op).Some?
    ensures Sound(WriteRow(db, op).value)
  {
    hide WriteRow, CodesSound, ChartSound, EntriesSound, LinesSound, PeriodsSound, OpeningSound, ProfilesSound,
         DraftsSound, AssessmentsSound, ChargesSound, ChartExtends;
    KeepsCodes(db, op);
    KeepsChart(db, op);
    KeepsEntries(db, op);
    KeepsLines(db, op);
    KeepsPeriods(db, op);
    KeepsOpening(db, op);
    KeepsProfiles(db, op);
    KeepsDrafts(db, op);
    KeepsAssessments(db, op);
    KeepsCharges(db, op);
  }

  lemma KeepsBilling(db: Db, op: Op)
    requires WriteRow(db, op).Some?
    ensures BillingExtends(db, WriteRow(db, op).value)
  {
    hide WriteRow, RegisteredUnder, AssessmentConsistent, RoundsHalfAway, InRange, JournalReconciles;
    BillingFrame(db, op);
    if DraftOp(op) {
      DraftEffect(db, op);
    } else {
      OtherInsertEffects(db, op);
    }
  }

  lemma WriteExtends(db: Db, op: Op)
    requires Sound(db) && WriteRow(db, op).Some?
    ensures Extends(db, WriteRow(db, op).value)
  {
    hide WriteRow, ChartSound, EntriesSound, LinesSound, PeriodsSound, OpeningSound, ProfilesSound, DraftsSound,
         AssessmentsSound, ChargesSound, ChartExtends, JournalExtends, PeriodsExtend, BillingExtends;
    OrganizationFrame(db, op);
    KeepsChart(db, op);
    OnlyCloses(db, op);
    KeepsOpening(db, op);
    KeepsPosted(db, op);
    KeepsBilling(db, op);
  }

  // ---------------------------------------------------------------- Extends is a preorder

  lemma ExtendsReflexive(db: Db)
    ensures Extends(db, db)
  {
  }

  lemma JournalExtendsTransitive(a: Db, b: Db, c: Db)
    requires JournalExtends(a, b) && JournalExtends(b, c) && PeriodsExtend(a, b)
    requires a.opening.Some? ==> b.opening == a.opening
    requires forall j :: ChargedJournal(a, j) ==> ChargedJournal(b, j)
    ensures JournalExtends(a, c)
  {
    hide ChargedJournal, HasReversal;
    assert c.lines[..|b.lines|][..|a.lines|] == c.lines[..|a.lines|];
    forall k | |a.lines| <= k < |c.lines|
      ensures !PostedIn(a, c.lines[k].entryId)
    {
      if k < |b.lines| {
        assert c.lines[k] == b.lines[k];
      }
    }
    forall id | PostedIn(c, id) && !PostedIn(a, id)
      ensures NewlyPostable(a, c.entries[id])
    {
      if !PostedIn(b, id) {
        ClosedStaysClosed(a, b, c.entries[id].bookingDate);
      }
    }
  }

  lemma ClosedStaysClosed(a: Db, b: Db, day: Day)
    requires PeriodsExtend(a, b)
    ensures InClosedPeriod(a, day) ==> InClosedPeriod(b, day)
  {
  }

  lemma BillingExtendsTransitive(a: Db, b: Db, c: Db)
    requires BillingExtends(a, b) && BillingExtends(b, c) && a.today <= b.today
    ensures BillingExtends(a, c)
  {
    assert c.draftLines[..|b.draftLines|][..|a.draftLines|] == c.draftLines[..|a.draftLines|];
    assert c.profiles[..|b.profiles|][..|a.profiles|] == c.profiles[..|a.profiles|];
    forall k | |a.draftLines| <= k < |c.draftLines|
      ensures !(c.draftLines[k].draftId in a.drafts && a.drafts[c.draftLines[k].draftId].status == Sealed)
    {
      if k < |b.draftLines| {
        assert c.draftLines[k] == b.draftLines[k];
      }
    }
    forall k | |a.profiles| <= k < |c.profiles|
      ensures c.profiles[k].from >= a.today
    {
      if k < |b.profiles| {
        assert c.profiles[k] == b.profiles[k];
      }
    }
  }

  lemma ExtendsTransitive(a: Db, b: Db, c: Db)
    requires Extends(a, b) && Extends(b, c)
    ensures Extends(a, c)
  {
    BillingExtendsTransitive(a, b, c);
    assert ChartExtends(a, c) && PeriodsExtend(a, c) by {
      hide JournalExtends, BillingExtends;
    }
    hide ChartExtends;
    assert forall j :: ChargedJournal(a, j) ==> ChargedJournal(b, j);
    hide BillingExtends;
    JournalExtendsTransitive(a, b, c);
  }

  // ---------------------------------------------------------------- transactions

  /** Rows a transaction has not written are the committed ones. */
  ghost predicate UntouchedCommitted(base: Db, tx: Tx) {
    && (forall id :: id in tx.db.entries && id !in tx.journals ==>
          id in base.entries && tx.db.entries[id] == base.entries[id])
    && (forall id :: id in tx.db.drafts && id !in tx.drafts ==>
          id in base.drafts && tx.db.drafts[id] == base.drafts[id])
  }

  lemma ExecuteUntouched(base: Db, tx: Tx, op: Op)
    requires UntouchedCommitted(base, tx) && Execute(tx, op).Some?
    ensures UntouchedCommitted(base, Execute(tx, op).value)
  {
    hide WriteRow, EntryAllowed, PostingAllowed, PostedIn, DraftInsertAllowed, DraftUpdateAllowed;
    LedgerFrame(tx.db, op);
    BillingFrame(tx.db, op);
    if EntryOp(op) {
      EntryEffect(tx.db, op);
      EntryInserted(tx.db, op);
    }
    if DraftOp(op) {
      DraftEffect(tx.db, op);
      EntryInserted(tx.db, op);
    }
  }

  lemma EntryInserted(db: Db, op: Op)
    requires WriteRow(db, op).Some?
    ensures op.UpdateEntry? && op.id !in db.entries ==> WriteRow(db, op).value == db
    ensures op.UpdateDraft? && op.id !in db.drafts ==> WriteRow(db, op).value == db
  {
  }

  lemma {:induction false} TransactionKeeps(db: Db, ops: seq<Op>)
    requires Sound(db) && ExecuteAll(Begin(db), ops).Some?
    ensures var tx := ExecuteAll(Begin(db), ops).value;
            Sound(tx.db) && Extends(db, tx.db) && UntouchedCommitted(db, tx)
  {
    hide Sound, Extends, WriteRow, UntouchedCommitted, JournalsTouched, DraftsTouched;
    if ops == [] {
      ExtendsReflexive(db);
      NothingTouched(db);
    } else {
      var front, op := ops[..|ops| - 1], ops[|ops| - 1];
      TransactionKeeps(db, front);
      var mid := ExecuteAll(Begin(db), front).value;
      KeepsSound(mid.db, op);
      WriteExtends(mid.db, op);
      ExtendsTransitive(db, mid.db, WriteRow(mid.db, op).value);
      ExecuteUntouched(db, mid, op);
    }
  }

  lemma NothingTouched(db: Db)
    ensures UntouchedCommitted(db, Begin(db))
  {
  }

  lemma SealedLinesKept(db: Db, later: Db, id: Id)
    requires BillingExtends(db, later) && id in db.drafts && db.drafts[id].status == Sealed
    ensures DraftLinesOf(later.draftLines, id) == DraftLinesOf(db.draftLines, id)
  {
    var more := later.draftLines[|db.draftLines|..];
    assert later.draftLines == db.draftLines + more;
    DraftLinesOfConcat(db.draftLines, more, id);
    forall k | 0 <= k < |more|
      ensures more[k].draftId != id
    {
      assert more[k] == later.draftLines[|db.draftLines| + k];
    }
    DraftLinesOfOthers(more, id);
  }

  lemma CommitSettles(db: Db, tx: Tx)
    requires Settled(db) && Extends(db, tx.db) && UntouchedCommitted(db, tx) && Committable(tx)
    ensures Settled(tx.db)
  {
    hide LinesOf, DraftLinesOf, DebitSum, CreditSum, LineTotals, ChartExtends, PeriodsExtend, BillingExtends,
         JournalExtends;
    forall id | id in tx.db.entries
      ensures EntrySettled(tx.db, id)
    {
      if id !in tx.journals {
        assert EntrySettled(db, id);
        PostedLinesKept(db, tx.db, id);
      }
    }
    forall id | id in tx.db.drafts
      ensures DraftSettled(tx.db, id)
    {
      if id !in tx.drafts {
        assert DraftSettled(db, id);
        SealedLinesKept(db, tx.db, id);
      }
    }
  }

  lemma CommitKeeps(db: Db, ops: seq<Op>)
    requires Sound(db) && Settled(db) && Commit(db, ops).Some?
    ensures var later := Commit(db, ops).value;
            Sound(later) && Settled(later) && Extends(db, later)
  {
    hide Sound, Settled, Extends, Committable, UntouchedCommitted, ExecuteAll;
    TransactionKeeps(db, ops);
    CommitSettles(db, ExecuteAll(Begin(db), ops).value);
  }

  /** Every event keeps the invariants and everything already committed. */
  lemma ReactKeeps(db: Db, e: Event)
    requires Sound(db) && Settled(db)
    ensures Sound(React(db, e)) && Settled(React(db, e)) && Extends(db, React(db, e))
  {
    hide Sound, Settled, Extends, Commit;
    ExtendsReflexive(db);
    if e.Transaction? {
      if Commit(db, e.ops).Some? {
        CommitKeeps(db, e.ops);
      }
    } else {
      OutsideKeepsSound(db, React(db, e));
      OutsideExtends(db, React(db, e));
    }
  }

  /** The calendar, branches and customers carry none of the invariants. */
  lemma OutsideKeepsSound(db: Db, d: Db)
    requires Sound(db) && Settled(db) && d.today >= db.today
    requires d == db.(today := d.today, branches := d.branches, customers := d.customers)
    ensures Sound(d) && Settled(d)
  {
    hide CodesSound, ChartSound, EntriesSound, LinesSound, PeriodsSound, OpeningSound, ProfilesSound, DraftsSound,
         AssessmentsSound, ChargesSound, EntrySettled, DraftSettled;
    OutsideKeepsLedger(db, d);
    OutsideKeepsBilling(db, d);
  }

  lemma OutsideExtends(db: Db, d: Db)
    requires d == db.(today := d.today, branches := d.branches, customers := d.customers) && d.today >= db.today
    ensures Extends(db, d)
  {
  }

  lemma OutsideKeepsLedger(db: Db, d: Db)
    requires d == db.(today := d.today, branches := d.branches, customers := d.customers)
    ensures CodesSound(db) ==> CodesSound(d)
    ensures ChartSound(db) ==> ChartSound(d)
    ensures EntriesSound(db) ==> EntriesSound(d)
    ensures LinesSound(db) ==> LinesSound(d)
    ensures PeriodsSound(db) ==> PeriodsSound(d)
    ensures OpeningSound(db) ==> OpeningSound(d)
    ensures forall id :: EntrySettled(db, id) ==> EntrySettled(d, id)
    ensures forall id :: DraftSettled(db, id) ==> DraftSettled(d, id)
  {
  }

  lemma OutsideKeepsBilling(db: Db, d: Db)
    requires d == db.(today := d.today, branches := d.branches, customers := d.customers) && d.today >= db.today
    ensures ProfilesSound(db) ==> ProfilesSound(d)
    ensures DraftsSound(db) ==> DraftsSound(d)
    ensures AssessmentsSound(db) ==> AssessmentsSound(d)
    ensures ChargesSound(db) ==> ChargesSound(d)
  {
    hide AssessmentConsistent, ChargeSound, DraftLineSound, RegisteredProfile;
    forall row | DraftLineSound(db, row)
      ensures DraftLineSound(d, row)
    {
      DraftRowKept(db, d, row);
    }
    forall c | ChargeSound(db, c)
      ensures ChargeSound(d, c)
    {
      OutsideKeepsCharge(db, d, c);
    }
  }

  lemma OutsideKeepsCharge(db: Db, d: Db, c: Charge)
    requires d == db.(today := d.today, branches := d.branches, customers := d.customers)
    requires ChargeSound(db, c)
    ensures ChargeSound(d, c)
  {
    hide HasLine, LinesOf;
  }

  /** Over any history: journals stay balanced and posted, and nothing that was committed is
      ever changed. */
  lemma {:induction false} HistoryKeeps(db: Db, events: seq<Event>)
    requires Sound(db) && Settled(db)
    ensures Sound(History(db, events)) && Settled(History(db, events)) && Extends(db, History(db, events))
  {
    hide Sound, Settled, Extends, React;
    if events == [] {
      ExtendsReflexive(db);
    } else {
      var front, last := events[..|events| - 1], events[|events| - 1];
      HistoryKeeps(db, front);
      ReactKeeps(History(db, front), last);
      ExtendsTransitive(db, History(db, front), React(History(db, front), last));
    }
  }

  lemma EmptySound(organizationId: Id, currency: string, today: Day)
    ensures Sound(EmptyDb(organizationId, currency, today)) && Settled(EmptyDb(organizationId, currency, today))
  {
  }
}
