/** What the service keeps over whole runs, beyond what the triggers enforce: every journal
    is the effect of exactly one request, replays return it, reversals cancel. */
module LedgerProofs {
  import opened Base
  import opened Tables
  import opened TriggerProofs
  import opened Ledger
  import opened Refinement
  import opened BillingRefinement
  import opened DraftMoney
  import Vat

  // ---------------------------------------------------------------- invariant

  function LinesIn(rows: seq<LineRow>): (lines: seq<LineIn>)
    ensures |lines| == |rows| && forall k :: 0 <= k < |rows| ==> lines[k] == rows[k].line
  {
    seq(|rows|, k requires 0 <= k < |rows| => rows[k].line)
  }

  function LinesInOf(db: Db, id: Id): seq<LineIn> { LinesIn(LinesOf(db.lines, id)) }

  /** The stored journal is exactly what its request asked for. */
  ghost predicate Shows(db: Db, id: Id, p: JournalIn)
    requires id in db.entries
  {
    var e := db.entries[id];
    && e.requestId == p.requestId && e.branch == p.branch && e.bookingDate == p.bookingDate
      && e.description == p.description
    && LinesInOf(db, id) == p.lines
  }

  /** Each of the four operations leaves its own mark, told apart by the digest. */
  ghost predicate Provenance(db: Db, id: Id)
    requires id in db.entries
  {
    var e := db.entries[id];
    match e.digest
    case PostDigest(p) => e.reversalOf.None? && Shows(db, id, p)
    case ReverseDigest(original, r) =>
      && e.reversalOf == Some(original) && original in db.entries && db.entries[original].reversalOf.None?
      && !(db.opening.Some? && db.opening.value.journalId == original)
      && Shows(db, id, ReversalPayload(db, original, r))
    case OpeningDigest(PostDigest(p)) =>
      e.reversalOf.None? && Shows(db, id, p) && db.opening.Some? && db.opening.value.journalId == id
    case ChargeDigest(c) => e.reversalOf.None? && e.requestId == c.requestId && ChargedJournal(db, id)
    case _ => false
  }

  ghost predicate WellFormed(db: Db, id: Id) {
    var lines := LinesInOf(db, id);
    && 2 <= |lines| <= 100
    && LinesOf(db.lines, id) == Numbered(id, lines)
    && DebitTotal(lines) == CreditTotal(lines)
    && forall k :: 0 <= k < |lines| ==> ValidLine(lines[k])
  }

  predicate BranchKnown(db: Db, branch: Option<Id>) { branch.Some? ==> branch.value in db.branches }

  ghost predicate EntryGood(db: Db, id: Id)
    requires id in db.entries
  {
    && db.entries[id].currency == "SAR" && db.currency == "SAR" && BranchKnown(db, db.entries[id].branch)
    && WellFormed(db, id) && Provenance(db, id)
  }

  ghost predicate ServiceInv(db: Db) {
    Sound(db) && Settled(db) && forall id :: id in db.entries ==> EntryGood(db, id)
  }

  // ---------------------------------------------------------------- preservation

  /** What the journals' own invariants look at is the same, or has one branch more. */
  ghost predicate SameJournals(db: Db, d: Db) {
    && d.entries == db.entries && d.lines == db.lines && d.opening == db.opening && d.charges == db.charges
    && d.currency == db.currency && forall b :: b in db.branches ==> b in d.branches
  }

  /** Commands other than the four leave the journals alone. */
  lemma NoNewJournal(db: Db, cmd: Command)
    requires !cmd.DoPost? && !cmd.DoReverse? && !cmd.DoOpen? && !cmd.DoApprove?
    ensures SameJournals(db, Step(db, cmd))
  {
    hide CreateDraft, CreateProfile, Assess, Surroundings, CreateAccount, CreatePeriod, ClosePeriod;
    match cmd {
      case DoCreateDraft(ctx, p, id) => DraftsOnly(db, ctx, p, id);
      case DoCreateProfile(ctx, p, id) => ProfilesOnly(db, ctx, p, id);
      case DoAssess(ctx, p, id) => AssessmentsOnly(db, ctx, p, id);
      case _ => ChartOnly(db, cmd);
    }
  }

  lemma DraftsOnly(db: Db, ctx: Context, p: DraftIn, id: Id)
    ensures CreateDraft(db, ctx, p, id).Done? ==> SameJournals(db, CreateDraft(db, ctx, p, id).db)
  {
    hide Amounts, DecimalSum, DraftRows, ValidDraft;
  }

  lemma ProfilesOnly(db: Db, ctx: Context, p: ProfileIn, id: Id)
    ensures CreateProfile(db, ctx, p, id).Done? ==> SameJournals(db, CreateProfile(db, ctx, p, id).db)
  {
    hide SameJournals;
    var reply := CreateProfile(db, ctx, p, id);
    if reply.Done? {
      assert reply.db == db.(profiles := reply.db.profiles);
      OtherProfiles(db, reply.db.profiles);
    }
  }

  lemma OtherProfiles(db: Db, profiles: seq<Profile>)
    ensures SameJournals(db, db.(profiles := profiles))
  {
  }

  lemma AssessmentsOnly(db: Db, ctx: Context, p: AssessmentIn, id: Id)
    ensures Assess(db, ctx, p, id).Done? ==> SameJournals(db, Assess(db, ctx, p, id).db)
  {
    hide ProfileOn, PrintedTotals, DraftLinesOf, Vat.StandardVat, Vat.Minor;
  }

  lemma ChartOnly(db: Db, cmd: Command)
    requires cmd.DoCreateAccount? || cmd.DoCreatePeriod? || cmd.DoClosePeriod? || cmd.SetActive? || cmd.NewDate?
             || cmd.NewBranch? || cmd.NewCustomer?
    ensures SameJournals(db, Step(db, cmd))
  {
    hide Post, Reverse, PostOpening, Approve, CreateDraft, CreateProfile, Assess, SameJournals, CreateAccount,
         CreatePeriod, ClosePeriod;
    match cmd {
      case DoCreateAccount(ctx, p, id) => AccountsOnly(db, ctx, p, id);
      case DoCreatePeriod(ctx, start, end, id) => PeriodsOnly(db, ctx, start, end, id);
      case DoClosePeriod(ctx, id) => PeriodsOnly(db, ctx, 0, 0, id);
      case _ => SurroundingsOnly(db, cmd);
    }
    SameJournalsReflexive(db);
  }

  lemma SameJournalsReflexive(db: Db)
    ensures SameJournals(db, db)
  {
  }

  lemma AccountsOnly(db: Db, ctx: Context, p: AccountIn, id: Id)
    ensures CreateAccount(db, ctx, p, id).Done? ==> SameJournals(db, CreateAccount(db, ctx, p, id).db)
  {
  }

  lemma PeriodsOnly(db: Db, ctx: Context, start: Day, end: Day, id: Id)
    ensures CreatePeriod(db, ctx, start, end, id).Done? ==> SameJournals(db, CreatePeriod(db, ctx, start, end, id).db)
    ensures ClosePeriod(db, ctx, id).Done? ==> SameJournals(db, ClosePeriod(db, ctx, id).db)
  {
  }

  lemma SurroundingsOnly(db: Db, cmd: Command)
    requires cmd.SetActive? || cmd.NewDate? || cmd.NewBranch? || cmd.NewCustomer?
    ensures SameJournals(db, Surroundings(db, cmd))
  {
  }

  lemma GoodUnchanged(db: Db, d: Db, id: Id)
    requires id in db.entries && EntryGood(db, id)
    requires SameJournals(db, d)
    ensures EntryGood(d, id)
  {
    hide LinesOf, WellFormed;
    assert ChargedJournal(db, id) ==> ChargedJournal(d, id);
    assert WellFormed(d, id) by {
      WellFormedSameLines(db, d, id);
    }
  }

  lemma WellFormedSameLines(db: Db, d: Db, id: Id)
    requires LinesOf(d.lines, id) == LinesOf(db.lines, id)
    ensures WellFormed(db, id) ==> WellFormed(d, id)
  {
  }

  /** A journal already stored stays good when another one is added. */
  lemma GoodBesideNew(db: Db, later: Db, added: Id, entry: Entry, lines: seq<LineIn>, id: Id)
    requires id in db.entries && EntryGood(db, id) && added !in db.entries && LinesSound(db)
    requires later.entries == AddJournal(db, added, entry, lines).entries
    requires later.lines == AddJournal(db, added, entry, lines).lines
    requires later.currency == db.currency && later.branches == db.branches
    requires later.opening
             == db.opening || (db.opening.None? && later.opening.Some? && later.opening.value.journalId == added)
    requires forall j :: ChargedJournal(db, j) ==> ChargedJournal(later, j)
    ensures EntryGood(later, id)
  {
    hide LinesOf, LinesSound, WellFormed, ChargedJournal, Swapped, LinesIn;
    AddedLines(db, added, entry, lines, id);
    WellFormedSameLines(db, later, id);
    match db.entries[id].digest {
      case ReverseDigest(original, r) =>
        AddedLines(db, added, entry, lines, original);
      case _ =>
    }
  }

  lemma NumberedBack(id: Id, lines: seq<LineIn>)
    ensures LinesIn(Numbered(id, lines)) == lines
  {
  }

  /** The added journal itself, for a request p that passed validation. */
  lemma NewWellFormed(db: Db, later: Db, id: Id, entry: Entry, p: JournalIn)
    requires LinesSound(db) && id !in db.entries && ValidJournal(p)
    requires later.lines == AddJournal(db, id, entry, p.lines).lines
    ensures LinesOf(later.lines, id) == Numbered(id, p.lines) && LinesInOf(later, id) == p.lines
    ensures WellFormed(later, id)
  {
    hide LinesOf, LinesSound, ValidLine, DebitTotal, CreditTotal;
    AddedLines(db, id, entry, p.lines, id);
    NumberedBack(id, p.lines);
  }

  /** write_entry only posts in SAR. */
  lemma WrittenInSar(db: Db, ctx: Context, p: JournalIn, digest: Digest, reversalOf: Option<Id>, id: Id)
    requires WriteEntry(db, ctx, p, digest, reversalOf, id).Done?
    ensures db.currency == "SAR"
  {
    hide AddJournal;
  }

  lemma PostKeeps(db: Db, ctx: Context, p: JournalIn, id: Id)
    requires ServiceInv(db) && Post(db, ctx, p, id).Done? && Post(db, ctx, p, id).db != db
    ensures var d := Post(db, ctx, p, id).db; forall e :: e in d.entries ==> EntryGood(d, e)
  {
    hide Sound, Settled, EntryGood, WriteEntry, ReadyToWrite, ValidJournal, Authorize, Numbered;
    PostWrites(db, ctx, p, id);
    PostSar(db, ctx, p, id);
    PostBranch(db, ctx, p, id);
    SoundLines(db);
    var entry := NewEntry(db, ctx, p, PostDigest(p), None);
    ReadyIsNew(db, id, entry, p.lines);
    var d := AddJournal(db, id, entry, p.lines);
    NewWellFormed(db, d, id, entry, p);
    NewPostGood(d, id, p);
    forall e | e in db.entries
      ensures EntryGood(d, e)
    {
      GoodBesideNew(db, d, id, entry, p.lines, e);
    }
  }

  lemma NewPostGood(d: Db, id: Id, p: JournalIn)
    requires id in d.entries && WellFormed(d, id) && LinesInOf(d, id) == p.lines
    requires d.currency == "SAR" && d.entries[id].currency == "SAR" && d.entries[id].digest == PostDigest(p)
    requires d.entries[id].reversalOf.None?
    requires d.entries[id].requestId == p.requestId && d.entries[id].branch == p.branch && BranchKnown(d, p.branch)
    requires d.entries[id].bookingDate == p.bookingDate && d.entries[id].description == p.description
    ensures EntryGood(d, id)
  {
    hide WellFormed, LinesInOf;
  }

  /** A posted journal's branch is one the caller was authorized in. */
  lemma PostBranch(db: Db, ctx: Context, p: JournalIn, id: Id)
    requires Post(db, ctx, p, id).Done?
    ensures BranchKnown(db, p.branch)
  {
    hide WriteEntry, ValidJournal, Existing;
  }

  lemma PostSar(db: Db, ctx: Context, p: JournalIn, id: Id)
    requires Post(db, ctx, p, id).Done? && Post(db, ctx, p, id).db != db
    ensures db.currency == "SAR"
  {
    hide WriteEntry, ValidJournal, Authorize;
    WrittenInSar(db, ctx, p, PostDigest(p), None, id);
  }

  lemma ReverseKeeps(db: Db, ctx: Context, original: Id, r: ReversalIn, id: Id)
    requires ServiceInv(db) && Reverse(db, ctx, original, r, id).Done? && Reverse(db, ctx, original, r, id).db != db
    ensures var d := Reverse(db, ctx, original, r, id).db; forall e :: e in d.entries ==> EntryGood(d, e)
  {
    hide Sound, Settled, EntryGood, WriteEntry, ReadyToWrite, ValidJournal, Authorize, Numbered, Swapped, LinesOf;
    ReverseWrites(db, ctx, original, r, id);
    SoundLines(db);
    var p := ReversalPayload(db, original, r);
    var entry := NewEntry(db, ctx, p, ReverseDigest(original, r), Some(original));
    ReadyIsNew(db, id, entry, p.lines);
    var d := AddJournal(db, id, entry, p.lines);
    NewWellFormed(db, d, id, entry, p);
    AddedLines(db, id, entry, p.lines, original);
    SarEntry(db, original);
    NewReversalGood(db, d, original, r, id);
    forall e | e in db.entries
      ensures EntryGood(d, e)
    {
      GoodBesideNew(db, d, id, entry, p.lines, e);
    }
  }

  lemma SarEntry(db: Db, id: Id)
    requires ServiceInv(db) && id in db.entries
    ensures db.currency == "SAR" && BranchKnown(db, db.entries[id].branch)
  {
    hide Sound, Settled, WellFormed, Provenance;
    assert EntryGood(db, id);
  }

  lemma NewReversalGood(db: Db, d: Db, original: Id, r: ReversalIn, id: Id)
    requires original in db.entries && !Irreversible(db, original) && id in d.entries && original != id
    requires original in d.entries && d.entries[original] == db.entries[original]
    requires LinesOf(d.lines, original) == LinesOf(db.lines, original)
    requires d.opening == db.opening && d.currency == "SAR" && BranchKnown(d, db.entries[original].branch)
    requires var p := ReversalPayload(db, original, r);
             && WellFormed(d, id) && LinesInOf(d, id) == p.lines
             && d.entries[id].digest == ReverseDigest(original, r) && d.entries[id].reversalOf == Some(original)
             && d.entries[id].currency == "SAR" && d.entries[id].requestId == p.requestId
               && d.entries[id].branch == p.branch
             && d.entries[id].bookingDate == p.bookingDate && d.entries[id].description == p.description
    ensures EntryGood(d, id)
  {
    hide WellFormed, LinesInOf, LinesOf, Swapped;
  }

  lemma OpenKeeps(db: Db, ctx: Context, q: JournalIn, id: Id, batchId: Id)
    requires ServiceInv(db) && PostOpening(db, ctx, q, id, batchId).Done?
    requires PostOpening(db, ctx, q, id, batchId).db != db
    ensures var d := PostOpening(db, ctx, q, id, batchId).db; forall e :: e in d.entries ==> EntryGood(d, e)
  {
    hide Sound, Settled, EntryGood, WriteEntry, ReadyToWrite, ValidJournal, Authorize, Numbered, LinesOf;
    OpenWrites(db, ctx, q, id, batchId);
    OpenSar(db, ctx, q, id, batchId);
    SoundLines(db);
    var p := OpeningJournal(q);
    var entry := NewEntry(db, ctx, p, OpeningDigest(PostDigest(p)), None);
    ReadyIsNew(db, id, entry, p.lines);
    var d := AddJournal(db, id, entry, p.lines).(opening := Some(OpeningRow(ctx, q, id, batchId)));
    NewWellFormed(db, d, id, entry, p);
    NewOpeningGood(d, id, p);
    forall e | e in db.entries
      ensures EntryGood(d, e)
    {
      GoodBesideNew(db, d, id, entry, p.lines, e);
    }
  }

  lemma OpenSar(db: Db, ctx: Context, q: JournalIn, id: Id, batchId: Id)
    requires PostOpening(db, ctx, q, id, batchId).Done? && PostOpening(db, ctx, q, id, batchId).db != db
    ensures db.currency == "SAR"
  {
    hide WriteEntry, ValidJournal, Authorize;
    var p := OpeningJournal(q);
    WrittenInSar(db, ctx, p, OpeningDigest(PostDigest(p)), None, id);
  }

  lemma NewOpeningGood(d: Db, id: Id, p: JournalIn)
    requires id in d.entries && WellFormed(d, id) && LinesInOf(d, id) == p.lines
    requires d.opening.Some? && d.opening.value.journalId == id && d.currency == "SAR"
    requires d.entries[id].currency == "SAR"
    requires d.entries[id].digest == OpeningDigest(PostDigest(p)) && d.entries[id].reversalOf.None?
    requires d.entries[id].requestId == p.requestId && d.entries[id].branch == p.branch && BranchKnown(d, p.branch)
    requires d.entries[id].bookingDate == p.bookingDate && d.entries[id].description == p.description
    ensures EntryGood(d, id)
  {
    hide WellFormed, LinesInOf;
  }

  lemma ApproveKeeps(db: Db, ctx: Context, c: ChargeIn, id: Id, chargeId: Id)
    requires ServiceInv(db) && Approve(db, ctx, c, id, chargeId).Done? && Approve(db, ctx, c, id, chargeId).db != db
    ensures var d := Approve(db, ctx, c, id, chargeId).db; forall e :: e in d.entries ==> EntryGood(d, e)
  {
    hide Sound, Settled, EntryGood, ReadyToWrite, ValidJournal, Numbered, LinesOf, Approve, ChargeCheck,
         ChargedJournal, ChargeLines, RequestTaken;
    ApproveWrites(db, ctx, c, id, chargeId);
    ApproveSar(db, c);
    SoundLines(db);
    var a := db.assessments[c.assessment];
    var p := ChargeJournal(c, a);
    var entry := NewEntry(db, ctx, p, ChargeDigest(c), None);
    ReadyIsNew(db, id, entry, p.lines);
    var d := Approve(db, ctx, c, id, chargeId).db;
    NewWellFormed(db, d, id, entry, p);
    ChargesGrow(db, d, chargeId, id);
    NewChargeGood(d, id, c);
    forall e | e in db.entries
      ensures EntryGood(d, e)
    {
      GoodBesideNew(db, d, id, entry, p.lines, e);
    }
  }

  lemma ApproveSar(db: Db, c: ChargeIn)
    requires ChargeCheck(db, c).None?
    ensures db.currency == "SAR"
  {
    hide MappingsError, ProfileOn;
  }

  lemma ChargesGrow(db: Db, d: Db, chargeId: Id, journalId: Id)
    requires chargeId !in db.charges && chargeId in d.charges
    requires d.charges == db.charges[chargeId := d.charges[chargeId]]
    requires d.charges[chargeId].journalId == journalId
    ensures ChargedJournal(d, journalId)
    ensures forall j :: ChargedJournal(db, j) ==> ChargedJournal(d, j)
  {
    forall j | ChargedJournal(db, j)
      ensures ChargedJournal(d, j)
    {
      var c :| c in db.charges && db.charges[c].journalId == j;
      assert d.charges[c] == db.charges[c];
    }
  }

  lemma NewChargeGood(d: Db, id: Id, c: ChargeIn)
    requires id in d.entries && WellFormed(d, id) && ChargedJournal(d, id)
    requires d.currency == "SAR" && d.entries[id].currency == "SAR"
    requires d.entries[id].digest == ChargeDigest(c) && d.entries[id].reversalOf.None?
    requires d.entries[id].requestId == c.requestId
    requires d.entries[id].branch.None?
    ensures EntryGood(d, id)
  {
    hide WellFormed, ChargedJournal;
  }

  lemma StepKeeps(db: Db, cmd: Command)
    requires ServiceInv(db)
    ensures ServiceInv(Step(db, cmd)) && Extends(db, Step(db, cmd))
  {
    hide Sound, Settled, Extends, EntryGood, Post, Reverse, PostOpening, Approve, CreateDraft, Assess, CreateProfile,
         CreateAccount, CreatePeriod, ClosePeriod;
    CommandRefines(db, cmd);
    ReactKeeps(db, EventOf(db, cmd));
    if Apply(db, cmd).Done? && Apply(db, cmd).db != db {
      match cmd {
        case DoPost(ctx, p, id) => PostKeeps(db, ctx, p, id);
        case DoReverse(ctx, e, r, id) => ReverseKeeps(db, ctx, e, r, id);
        case DoOpen(ctx, p, id, batchId) => OpenKeeps(db, ctx, p, id, batchId);
        case DoApprove(ctx, c, id, chargeId) => ApproveKeeps(db, ctx, c, id, chargeId);
        case _ =>
          NoNewJournal(db, cmd);
          forall id | id in db.entries
            ensures EntryGood(Step(db, cmd), id)
          {
            GoodUnchanged(db, Step(db, cmd), id);
          }
      }
    }
  }

  lemma {:induction false} RunKeeps(db: Db, cmds: seq<Command>)
    requires ServiceInv(db)
    ensures ServiceInv(Run(db, cmds)) && Extends(db, Run(db, cmds))
  {
    hide ServiceInv, Extends, Step;
    if cmds == [] {
      ExtendsReflexive(db);
    } else {
      var front := cmds[..|cmds| - 1];
      RunKeeps(db, front);
      StepKeeps(Run(db, front), cmds[|cmds| - 1]);
      ExtendsTransitive(db, Run(db, front), Run(db, cmds));
    }
  }

  lemma EmptyInv(organizationId: Id, currency: string, today: Day)
    ensures ServiceInv(EmptyDb(organizationId, currency, today))
  {
    hide Sound, Settled;
    EmptySound(organizationId, currency, today);
  }
}
