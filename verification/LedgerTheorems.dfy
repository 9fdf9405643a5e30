/** The service's promises over whole runs: one request names one effect and replays for ever,
    a reversal cancels its original, an opening is never reversed, a charge always validates. */
module LedgerTheorems {
  import opened Base
  import opened Rounding
  import opened Tables
  import opened Triggers
  import opened TriggerProofs
  import opened TriggerTheorems
  import opened Ledger
  import opened Refinement
  import opened BillingRefinement
  import opened LedgerProofs

  // ---------------------------------------------------------------- finding a stored request

  lemma SoundEntries(db: Db)
    requires Sound(db)
    ensures EntriesSound(db)
  {
  }

  /** A stored request is found, and judged by its own branch and digest. */
  lemma ExistingFinds(db: Db, ctx: Context, j: Id, digest: Digest)
    requires EntriesSound(db) && j in db.entries
    ensures Existing(db, ctx, db.entries[j].requestId, digest) ==
            match Authorize(db, ctx, PostJournals, db.entries[j].branch, false)
            case Some(e) => Denied(e)
            case None => if db.entries[j].digest == digest then Same(j) else Denied(Conflict)
  {
    hide Authorize;
    assert RequestTaken(db, db.entries[j].requestId);
  }

  lemma SameFinds(db: Db, ctx: Context, requestId: Id, digest: Digest)
    requires Existing(db, ctx, requestId, digest).Same?
    ensures var j := Existing(db, ctx, requestId, digest).id;
            j in db.entries && db.entries[j].requestId == requestId && db.entries[j].digest == digest
  {
    hide Authorize;
  }

  ghost predicate Holds(db: Db, j: Id, requestId: Id, digest: Digest) {
    j in db.entries && db.entries[j].requestId == requestId && db.entries[j].digest == digest
  }

  /** A stored journal is the same, line by line, after any later run. */
  lemma JournalKept(db: Db, cmds: seq<Command>, j: Id)
    requires ServiceInv(db) && j in db.entries
    ensures var later := Run(db, cmds);
            && ServiceInv(later) && j in later.entries && later.entries[j] == db.entries[j]
            && LinesOf(later.lines, j) == LinesOf(db.lines, j)
            && (db.opening.Some? ==> later.opening == db.opening)
            && forall c :: c in db.charges ==> c in later.charges && later.charges[c] == db.charges[c]
  {
    hide Sound, Run, LinesOf, ChartExtends, PeriodsExtend, EntryGood;
    RunKeeps(db, cmds);
    assert EntrySettled(db, j);
    PostedLinesKept(db, Run(db, cmds), j);
  }

  // ---------------------------------------------------------------- replays

  lemma PostHolds(db: Db, ctx: Context, p: JournalIn, id: Id)
    requires Post(db, ctx, p, id).Done?
    ensures ValidJournal(p) && Holds(Post(db, ctx, p, id).db, Post(db, ctx, p, id).id, p.requestId, PostDigest(p))
  {
    hide ValidJournal, Authorize, WriteCheck, Existing, Numbered;
    if Existing(db, ctx, p.requestId, PostDigest(p)).Same? {
      SameFinds(db, ctx, p.requestId, PostDigest(p));
    }
  }

  /** After a successful post, in every later state, posting the same request again returns
      the same unchanged journal to every caller who passes authorization, and refuses the
      others; closed periods and inactive accounts make no difference. */
  lemma PostReplays(db: Db, ctx: Context, p: JournalIn, id: Id, cmds: seq<Command>, again: Context, newId: Id)
    requires ServiceInv(db) && Post(db, ctx, p, id).Done?
    ensures var first := Post(db, ctx, p, id);
            var later := Run(first.db, cmds);
            && Post(later, again, p, newId) ==
               (match Authorize(later, again, PostJournals, p.branch, true)
                case Some(e) => Refused(e)
                case None => Done(later, first.id))
            && first.id in later.entries && first.id in first.db.entries
            && later.entries[first.id] == first.db.entries[first.id]
            && Shows(later, first.id, p)
  {
    hide ServiceInv, Post, Run, Existing, LinesOf;
    var first := Post(db, ctx, p, id);
    StepKeeps(db, DoPost(ctx, p, id));
    PostHolds(db, ctx, p, id);
    JournalKept(first.db, cmds, first.id);
    PostFindsStored(Run(first.db, cmds), again, p, first.id, newId);
  }

  lemma PostFindsStored(later: Db, again: Context, p: JournalIn, j: Id, newId: Id)
    requires ServiceInv(later) && ValidJournal(p) && Holds(later, j, p.requestId, PostDigest(p))
    ensures Shows(later, j, p)
    ensures Post(later, again, p, newId) ==
            (match Authorize(later, again, PostJournals, p.branch, true)
             case Some(e) => Refused(e)
             case None => Done(later, j))
  {
    hide Sound, Settled, Existing, ValidJournal, WellFormed, LinesInOf, WriteEntry;
    SoundEntries(later);
    assert EntryGood(later, j);
    ExistingFinds(later, again, j, PostDigest(p));
  }

  lemma ReverseHolds(db: Db, ctx: Context, b: Id, r: ReversalIn, id: Id)
    requires Reverse(db, ctx, b, r, id).Done?
    ensures 1 <= |r.reason| <= MAX_TEXT && b in db.entries
    ensures Holds(Reverse(db, ctx, b, r, id).db, Reverse(db, ctx, b, r, id).id, r.requestId, ReverseDigest(b, r))
  {
    hide ValidJournal, Authorize, WriteCheck, Existing, Numbered, Swapped, LinesOf, Irreversible;
    if Existing(db, ctx, r.requestId, ReverseDigest(b, r)).Same? {
      SameFinds(db, ctx, r.requestId, ReverseDigest(b, r));
    }
  }

  /** The same for a reversal, whose second run would otherwise meet an already reversed entry. */
  lemma ReverseReplays(db: Db, ctx: Context, b: Id, r: ReversalIn, id: Id, cmds: seq<Command>, again: Context,
                       newId: Id)
    requires ServiceInv(db) && Reverse(db, ctx, b, r, id).Done?
    ensures var first := Reverse(db, ctx, b, r, id);
            var later := Run(first.db, cmds);
            && b in later.entries
            && Reverse(later, again, b, r, newId) ==
               (match Authorize(later, again, ReverseJournals, later.entries[b].branch, false)
                case Some(e) => Refused(e)
                case None =>
                  match Authorize(later, again, PostJournals, later.entries[b].branch, false)
                  case Some(e) => Refused(e)
                  case None => Done(later, first.id))
            && first.id in later.entries && later.entries[first.id].reversalOf == Some(b)
  {
    hide ServiceInv, Reverse, Run, Existing, LinesOf, Authorize;
    var first := Reverse(db, ctx, b, r, id);
    StepKeeps(db, DoReverse(ctx, b, r, id));
    ReverseHolds(db, ctx, b, r, id);
    JournalKept(first.db, cmds, first.id);
    ReverseFindsStored(Run(first.db, cmds), again, b, r, first.id, newId);
  }

  lemma ReverseFindsStored(later: Db, again: Context, b: Id, r: ReversalIn, j: Id, newId: Id)
    requires ServiceInv(later) && 1 <= |r.reason| <= MAX_TEXT && Holds(later, j, r.requestId, ReverseDigest(b, r))
    ensures b in later.entries && later.entries[j].reversalOf == Some(b)
    ensures Reverse(later, again, b, r, newId) ==
            (match Authorize(later, again, ReverseJournals, later.entries[b].branch, false)
             case Some(e) => Refused(e)
             case None =>
               match Authorize(later, again, PostJournals, later.entries[b].branch, false)
               case Some(e) => Refused(e)
               case None => Done(later, j))
  {
    hide Sound, Settled, Existing, ValidJournal, WellFormed, LinesInOf, WriteEntry, Authorize, Swapped, Irreversible,
         LinesOf;
    SoundEntries(later);
    assert EntryGood(later, j);
    ExistingFinds(later, again, j, ReverseDigest(b, r));
  }

  lemma OpeningHolds(db: Db, ctx: Context, p: JournalIn, id: Id, batchId: Id)
    requires PostOpening(db, ctx, p, id, batchId).Done?
    ensures ValidJournal(OpeningJournal(p))
    ensures var first := PostOpening(db, ctx, p, id, batchId);
            && Holds(first.db, first.id, p.requestId, OpeningDigest(PostDigest(OpeningJournal(p))))
  {
    hide ValidJournal, Authorize, WriteCheck, Existing, Numbered;
    var digest := OpeningDigest(PostDigest(OpeningJournal(p)));
    if Existing(db, ctx, p.requestId, digest).Same? {
      SameFinds(db, ctx, p.requestId, digest);
    }
  }

  /** A journal found under an opening's digest is the journal of the stored opening: the
      branch for an opening entry without its batch is never taken. */
  lemma OpeningEntryHasItsBatch(db: Db, j: Id)
    requires ServiceInv(db) && j in db.entries && db.entries[j].digest.OpeningDigest?
    ensures db.opening.Some? && db.opening.value.journalId == j
  {
    hide Sound, Settled, WellFormed, Shows;
    assert EntryGood(db, j);
  }

  lemma OpeningReplays(db: Db, ctx: Context, p: JournalIn, id: Id, batchId: Id, cmds: seq<Command>,
                       again: Context, newId: Id, newBatch: Id)
    requires ServiceInv(db) && PostOpening(db, ctx, p, id, batchId).Done?
    ensures var first := PostOpening(db, ctx, p, id, batchId);
            var later := Run(first.db, cmds);
            && PostOpening(later, again, p, newId, newBatch) ==
               (if ManageOpening in again.orgPermissions && PostJournals in again.orgPermissions
                then Done(later, first.id) else Refused(Forbidden))
            && later.opening.Some? && later.opening.value.journalId == first.id
  {
    hide ServiceInv, PostOpening, Run, Existing, LinesOf;
    var first := PostOpening(db, ctx, p, id, batchId);
    StepKeeps(db, DoOpen(ctx, p, id, batchId));
    OpeningHolds(db, ctx, p, id, batchId);
    JournalKept(first.db, cmds, first.id);
    OpeningFindsStored(Run(first.db, cmds), again, p, first.id, newId, newBatch);
  }

  lemma OpeningFindsStored(later: Db, again: Context, p: JournalIn, j: Id, newId: Id, newBatch: Id)
    requires ServiceInv(later) && ValidJournal(OpeningJournal(p))
    requires Holds(later, j, p.requestId, OpeningDigest(PostDigest(OpeningJournal(p))))
    ensures later.opening.Some? && later.opening.value.journalId == j
    ensures PostOpening(later, again, p, newId, newBatch) ==
            if ManageOpening in again.orgPermissions && PostJournals in again.orgPermissions
            then Done(later, j) else Refused(Forbidden)
  {
    hide Sound, Settled, Existing, ValidJournal, WellFormed, LinesInOf, WriteEntry;
    SoundEntries(later);
    OpeningEntryHasItsBatch(later, j);
    assert EntryGood(later, j);
    ExistingFinds(later, again, j, OpeningDigest(PostDigest(OpeningJournal(p))));
  }

  lemma ApproveHolds(db: Db, ctx: Context, c: ChargeIn, id: Id, chargeId: Id)
    requires Approve(db, ctx, c, id, chargeId).Done?
    ensures 1 <= |c.basis| <= MAX_TEXT
    ensures var first := Approve(db, ctx, c, id, chargeId);
            && first.id in first.db.charges && first.db.charges[first.id].requestId == c.requestId
            && first.db.charges[first.id].digest == ChargeDigest(c)
  {
    hide ValidJournal, Authorize, WriteEntry, Existing, ChargeCheck, ChargeLines;
  }

  lemma SoundCharges(db: Db)
    requires Sound(db)
    ensures ChargesSound(db)
  {
  }

  lemma ChargeReplays(db: Db, ctx: Context, c: ChargeIn, id: Id, chargeId: Id, cmds: seq<Command>,
                      again: Context, newId: Id, newCharge: Id)
    requires ServiceInv(db) && Approve(db, ctx, c, id, chargeId).Done?
    ensures var first := Approve(db, ctx, c, id, chargeId);
            var later := Run(first.db, cmds);
            && Approve(later, again, c, newId, newCharge) ==
               (if CHARGE_PERMISSIONS <= again.orgPermissions then Done(later, first.id) else Refused(Forbidden))
            && first.id in later.charges && first.id in first.db.charges
            && later.charges[first.id] == first.db.charges[first.id]
  {
    hide ServiceInv, Approve, Run, ChartExtends, JournalExtends, PeriodsExtend;
    var first := Approve(db, ctx, c, id, chargeId);
    StepKeeps(db, DoApprove(ctx, c, id, chargeId));
    ApproveHolds(db, ctx, c, id, chargeId);
    RunKeeps(first.db, cmds);
    ApproveFindsStored(Run(first.db, cmds), again, c, first.id, newId, newCharge);
  }

  lemma ApproveFindsStored(later: Db, again: Context, c: ChargeIn, x: Id, newId: Id, newCharge: Id)
    requires ServiceInv(later) && 1 <= |c.basis| <= MAX_TEXT
    requires x in later.charges && later.charges[x].requestId == c.requestId
    requires later.charges[x].digest == ChargeDigest(c)
    ensures Approve(later, again, c, newId, newCharge) ==
            if CHARGE_PERMISSIONS <= again.orgPermissions then Done(later, x) else Refused(Forbidden)
  {
    hide Sound, Settled, EntryGood, Existing, ValidJournal, WriteEntry, ChargeCheck, ChargeLines, ChargeSound;
    SoundCharges(later);
  }

  /** An authorized caller's fresh valid journal is posted exactly when its accounts exist, take
      postings and are active, its date is in no closed period and after the cutover, and the
      organization keeps its books in SAR; a missing account is reported before anything else. */
  lemma PostsExactly(db: Db, ctx: Context, p: JournalIn, id: Id)
    requires ValidJournal(p) && Authorize(db, ctx, PostJournals, p.branch, true).None?
    requires !RequestTaken(db, p.requestId) && id !in db.entries
    ensures Post(db, ctx, p, id).Done? <==>
            && (forall k :: 0 <= k < |p.lines| ==> ActiveAccount(db, p.lines[k].account))
            && !InClosedPeriod(db, p.bookingDate) && !OnOrBeforeCutover(db, p.bookingDate) && db.currency == "SAR"
    ensures Post(db, ctx, p, id) == Refused(NotFound) <==>
            exists k :: 0 <= k < |p.lines| && p.lines[k].account !in db.accounts
  {
    hide ValidJournal, Authorize, InClosedPeriod, OnOrBeforeCutover, AddJournal, RequestTaken;
  }

  ghost predicate ActiveAccount(db: Db, a: Id) { a in db.accounts && db.accounts[a].postable && db.accounts[a].active }

  // ---------------------------------------------------------------- one request, one effect

  function RequestOf(cmd: Command): Option<Id> {
    match cmd
    case DoPost(_, p, _) => Some(p.requestId)
    case DoReverse(_, _, r, _) => Some(r.requestId)
    case DoOpen(_, p, _, _) => Some(p.requestId)
    case DoApprove(_, c, _, _) => Some(c.requestId)
    case _ => None
  }

  function DigestOf(cmd: Command): Digest
    requires RequestOf(cmd).Some?
  {
    match cmd
    case DoPost(_, p, _) => PostDigest(p)
    case DoReverse(_, b, r, _) => ReverseDigest(b, r)
    case DoOpen(_, p, _, _) => OpeningDigest(PostDigest(OpeningJournal(p)))
    case DoApprove(_, c, _, _) => ChargeDigest(c)
  }

  /** The journal a successful answer stands for. */
  ghost predicate Names(db: Db, cmd: Command, answer: Id, j: Id) {
    if cmd.DoApprove? then answer in db.charges && db.charges[answer].journalId == j else answer == j
  }

  /** Post, reverse, opening and charge share one namespace: a command whose request id is
      already stored writes nothing, and succeeds only as a replay of the very operation and
      content that journal was written for. */
  lemma OneRequestOneEffect(db: Db, cmd: Command, j: Id)
    requires ServiceInv(db) && j in db.entries && RequestOf(cmd) == Some(db.entries[j].requestId)
    ensures Step(db, cmd) == db
    ensures Apply(db, cmd).Done? ==> db.entries[j].digest == DigestOf(cmd) && Names(db, cmd, Apply(db, cmd).id, j)
  {
    hide Sound, Settled, Existing, ValidJournal, WriteEntry, ChargeCheck, ChargeLines, Authorize, EntryGood,
         Irreversible, Swapped, LinesOf;
    SoundEntries(db);
    ExistingFinds(db, CallerOf(cmd), j, DigestOf(cmd));
    if cmd.DoApprove? {
      ChargeRequestIsItsJournals(db, cmd.charge, j);
    }
  }

  function CallerOf(cmd: Command): Context
    requires RequestOf(cmd).Some?
  {
    match cmd
    case DoPost(ctx, _, _) => ctx
    case DoReverse(ctx, _, _, _) => ctx
    case DoOpen(ctx, _, _, _) => ctx
    case DoApprove(ctx, _, _, _) => ctx
  }

  lemma ChargeRequestIsItsJournals(db: Db, c: ChargeIn, j: Id)
    requires Sound(db) && j in db.entries && db.entries[j].requestId == c.requestId
    ensures forall x :: x in db.charges && db.charges[x].requestId == c.requestId ==>
              db.charges[x].journalId == j && db.charges[x].digest == db.entries[j].digest
  {
    hide CodesSound, ChartSound, LinesSound, PeriodsSound, OpeningSound, ProfilesSound, DraftsSound, AssessmentsSound,
         HasLine, LinesOf, HasReversal;
    forall x | x in db.charges && db.charges[x].requestId == c.requestId
      ensures db.charges[x].journalId == j && db.charges[x].digest == db.entries[j].digest
    {
      assert ChargeSound(db, db.charges[x]);
      assert db.entries[db.charges[x].journalId].requestId == c.requestId;
    }
  }

  /** Once a journal carries a request id, it is the only one to carry it in every later state. */
  lemma RequestNamesOneJournal(db: Db, cmds: seq<Command>, j: Id, k: Id)
    requires ServiceInv(db) && j in db.entries
    requires k in Run(db, cmds).entries && Run(db, cmds).entries[k].requestId == db.entries[j].requestId
    ensures k == j
  {
    hide Sound, Settled, EntryGood, Run, LinesOf;
    JournalKept(db, cmds, j);
    SoundEntries(Run(db, cmds));
  }

  // ---------------------------------------------------------------- reversals

  /** Debits less credits of one account over some lines. */
  function NetOf(rows: seq<LineRow>, account: Id): int {
    if rows == [] then 0
    else
      var last := rows[|rows| - 1].line;
      NetOf(rows[..|rows| - 1], account) + (if last.account == account then last.debit - last.credit else 0)
  }

  lemma {:induction false} SwappedRowsCancel(original: seq<LineRow>, reversal: seq<LineRow>, account: Id)
    requires |reversal| == |original|
    requires forall k :: 0 <= k < |original| ==> reversal[k].line == Swap(original[k].line)
    ensures NetOf(original, account) + NetOf(reversal, account) == 0
  {
    if original != [] {
      SwappedRowsCancel(original[..|original| - 1], reversal[..|reversal| - 1], account);
    }
  }

  /** An original and its reversal net to zero on every account; a reversal is not itself
      reversed and is the only reversal of its original. */
  lemma ReversalCancels(db: Db, a: Id, b: Id, account: Id)
    requires ServiceInv(db) && a in db.entries && db.entries[a].reversalOf == Some(b)
    ensures b in db.entries && db.entries[b].reversalOf.None?
    ensures NetOf(LinesOf(db.lines, a), account) + NetOf(LinesOf(db.lines, b), account) == 0
    ensures !HasReversal(db, a)
    ensures forall c :: c in db.entries && db.entries[c].reversalOf == Some(b) ==> c == a
  {
    hide Sound, Settled, WellFormed, LinesOf, NetOf;
    SoundEntries(db);
    assert EntryGood(db, a);
    assert forall k :: 0 <= k < |LinesOf(db.lines, b)| ==> LinesInOf(db, a)[k] == LinesOf(db.lines, a)[k].line;
    SwappedRowsCancel(LinesOf(db.lines, b), LinesOf(db.lines, a), account);
    forall c | c in db.entries
      ensures db.entries[c].reversalOf != Some(a)
    {
      OnlyOrdinaryReversed(db, c);
    }
  }

  /** What a reversal reverses is neither a reversal nor the opening's journal. */
  lemma OnlyOrdinaryReversed(db: Db, c: Id)
    requires c in db.entries && EntryGood(db, c)
    ensures db.entries[c].reversalOf.Some? ==>
              var b := db.entries[c].reversalOf.value;
              && b in db.entries && db.entries[b].reversalOf.None?
              && !(db.opening.Some? && db.opening.value.journalId == b)
  {
    hide WellFormed, Shows;
  }

  lemma {:induction false} SwappedTotals(rows: seq<LineRow>)
    ensures DebitTotal(Swapped(rows)) == CreditTotal(LinesIn(rows))
    ensures CreditTotal(Swapped(rows)) == DebitTotal(LinesIn(rows))
  {
    if rows != [] {
      var front := rows[..|rows| - 1];
      SwappedTotals(front);
      assert Swapped(rows)[..|rows| - 1] == Swapped(front);
      assert LinesIn(rows)[..|rows| - 1] == LinesIn(front);
    }
  }

  /** The swapped payload of a stored journal always validates. */
  lemma SwappedNeverFails(db: Db, b: Id, r: ReversalIn)
    requires b in db.entries && WellFormed(db, b) && 1 <= |r.reason| <= MAX_TEXT
    ensures ValidJournal(ReversalPayload(db, b, r))
  {
    hide LinesOf, DebitTotal, CreditTotal, OneSided;
    var rows := LinesOf(db.lines, b);
    SwappedTotals(rows);
    forall k | 0 <= k < |rows|
      ensures ValidLine(Swap(rows[k].line))
    {
      assert ValidLine(LinesInOf(db, b)[k]);
      SwapOneSided(rows[k].line);
    }
  }

  lemma SwapOneSided(line: LineIn)
    ensures OneSided(Swap(line)) <==> OneSided(line)
  {
  }

  /** A caller with the rights and an unused request id reverses a stored journal exactly
      when it is an ordinary unreversed one and the date is open and after the cutover;
      whether its accounts are still active plays no part. */
  lemma ReversibleExactly(db: Db, ctx: Context, b: Id, r: ReversalIn, id: Id)
    requires ServiceInv(db) && b in db.entries && 1 <= |r.reason| <= MAX_TEXT
    requires Authorize(db, ctx, ReverseJournals, db.entries[b].branch, false).None?
    requires Authorize(db, ctx, PostJournals, db.entries[b].branch, false).None?
    requires !RequestTaken(db, r.requestId) && id !in db.entries
    ensures Reverse(db, ctx, b, r, id).Done? <==>
            !Irreversible(db, b) && !InClosedPeriod(db, r.bookingDate) && !OnOrBeforeCutover(db, r.bookingDate)
    ensures Reverse(db, ctx, b, r, id).Refused? ==> Reverse(db, ctx, b, r, id) == Refused(Conflict)
  {
    hide Sound, Settled, LinesOf, Authorize, Irreversible, InClosedPeriod, OnOrBeforeCutover, RequestTaken,
         ValidJournal, AddJournal, WellFormed, Provenance;
    assert EntryGood(db, b);
    SwappedNeverFails(db, b, r);
    SoundLines(db);
    StoredAccountsPostable(db, b);
    var p := ReversalPayload(db, b, r);
    assert forall k :: 0 <= k < |p.lines| ==> p.lines[k].account == LinesOf(db.lines, b)[k].line.account;
  }

  lemma StoredAccountsPostable(db: Db, b: Id)
    requires LinesSound(db)
    ensures forall k :: 0 <= k < |LinesOf(db.lines, b)| ==>
              && LinesOf(db.lines, b)[k].line.account in db.accounts
              && db.accounts[LinesOf(db.lines, b)[k].line.account].postable
  {
    hide LinesOf, OneSided;
    var rows := LinesOf(db.lines, b);
    LinesOfMembers(db.lines, b);
    forall k | 0 <= k < |rows|
      ensures rows[k].line.account in db.accounts && db.accounts[rows[k].line.account].postable
    {
      var i :| 0 <= i < |db.lines| && db.lines[i] == rows[k];
      assert LineSound(db, db.lines[i]);
    }
  }

  // ---------------------------------------------------------------- opening

  /** From the moment an opening is stored: it is the only one for ever, the journals on or
      before its date are exactly its own, and that journal is never reversed. */
  lemma OpeningForEver(db: Db, cmds: seq<Command>, id: Id)
    requires ServiceInv(db) && db.opening.Some?
    ensures var later, o := Run(db, cmds), db.opening.value;
            && later.opening == db.opening
            && (id in later.entries && later.entries[id].bookingDate <= o.bookingDate <==> id == o.journalId)
            && !HasReversal(later, o.journalId)
  {
    hide Sound, Settled, Run, EventsOf, WellFormed, Shows, History;
    var later := Run(db, cmds);
    RunKeeps(db, cmds);
    RunIsHistory(db, cmds);
    CutoverIsExact(db, EventsOf(db, cmds), id);
    AllPosted(later);
    forall e | e in later.entries
      ensures later.entries[e].reversalOf != Some(db.opening.value.journalId)
    {
      OnlyOrdinaryReversed(later, e);
    }
  }

  lemma AllPosted(db: Db)
    requires Settled(db)
    ensures forall id :: id in db.entries ==> PostedIn(db, id)
  {
    forall id | id in db.entries
      ensures PostedIn(db, id)
    {
      assert EntrySettled(db, id);
    }
  }

  // ---------------------------------------------------------------- closed periods and charges under the service

  /** A closed period is closed for every command the service offers: the journals dated inside
      it, and every account's net over any part of it, are final. */
  lemma ClosedPeriodIsFinal(db: Db, cmds: seq<Command>, p: Id, account: Id, from: Day, to: Day)
    requires ServiceInv(db) && p in db.periods && db.periods[p].status == Closed
    requires db.periods[p].start <= from && to <= db.periods[p].end
    ensures var later := Run(db, cmds);
            && (forall id :: id in later.entries && from <= later.entries[id].bookingDate <= to <==>
                  id in db.entries && from <= db.entries[id].bookingDate <= to)
            && Net(later, account, from, to) == Net(db, account, from, to)
  {
    hide Sound, Settled, EntryGood, Run, EventsOf, History, Net;
    RunKeeps(db, cmds);
    RunIsHistory(db, cmds);
    ClosedPeriodIsFrozen(db, EventsOf(db, cmds), p, account, from, to);
    AllPosted(db);
    AllPosted(Run(db, cmds));
  }

  /** In every state the service reaches from nothing, each charge reconciles with its draft,
      assessment and journal, and stays as it is however the service is used from then on. */
  lemma ChargesReconcileForEver(organizationId: Id, currency: string, today: Day, cmds: seq<Command>,
                                more: seq<Command>, id: Id)
    requires id in Run(EmptyDb(organizationId, currency, today), cmds).charges
    ensures var db := Run(EmptyDb(organizationId, currency, today), cmds);
            var later, c := Run(db, more), db.charges[id];
            && id in later.charges && later.charges[id] == c
            && c.assessment in later.assessments && c.draft in later.drafts
            && later.assessments[c.assessment].net == later.drafts[c.draft].total
               == LineTotals(DraftLinesOf(later.draftLines, c.draft))
            && DebitSum(LinesOf(later.lines, c.journalId)) == later.assessments[c.assessment].gross
               == CreditSum(LinesOf(later.lines, c.journalId))
            && !HasReversal(later, c.journalId)
  {
    hide Sound, Settled, EntryGood, Run, EventsOf, History, LinesOf, DraftLinesOf, LineTotals, DebitSum, CreditSum,
         HasReversal, RoundsHalfAway, HasLine;
    EmptyInv(organizationId, currency, today);
    RunKeeps(EmptyDb(organizationId, currency, today), cmds);
    var db := Run(EmptyDb(organizationId, currency, today), cmds);
    RunIsHistory(db, more);
    ChargeStandsForEver(db, EventsOf(db, more), id);
    ChargeReconciles(Run(db, more), id);
  }

  // ---------------------------------------------------------------- charges

  /** The journal built from a stored assessment always validates: gross = net + tax > 0. */
  lemma ChargeJournalValid(db: Db, c: ChargeIn)
    requires Sound(db) && c.assessment in db.assessments
    ensures ValidJournal(ChargeJournal(c, db.assessments[c.assessment]))
  {
    hide CodesSound, ChartSound, EntriesSound, LinesSound, PeriodsSound, OpeningSound, ProfilesSound, DraftsSound,
         ChargesSound, RoundsHalfAway, RegisteredProfile, DebitTotal, CreditTotal;
    var a := db.assessments[c.assessment];
    assert AssessmentSound(db, a);
    ChargeTotals(c, a);
  }

  lemma ChargeTotals(c: ChargeIn, a: Assessment)
    ensures DebitTotal(ChargeLines(c, a)) == a.gross
    ensures CreditTotal(ChargeLines(c, a)) == a.net + if a.tax > 0 then a.tax else 0
  {
    var two := [LineIn(c.receivable, a.gross, 0, None), LineIn(c.revenue, 0, a.net, None)];
    assert two[..1] == [two[0]] && two[..1][..0] == [];
    assert DebitTotal(two[..1]) == a.gross && CreditTotal(two[..1]) == 0;
    assert DebitTotal(two) == a.gross && CreditTotal(two) == a.net;
    if a.tax > 0 {
      assert ChargeLines(c, a)[..2] == two;
    }
  }

  /** Writing the charge's journal cannot fail on its accounts or its currency. */
  lemma ChargeWritesUnlessDated(db: Db, c: ChargeIn)
    requires ChargeCheck(db, c).None?
    ensures c.assessment in db.assessments
    ensures WriteCheck(db, ChargeJournal(c, db.assessments[c.assessment]), false) ==
            if InClosedPeriod(db, c.bookingDate) || OnOrBeforeCutover(db, c.bookingDate) then Some(Conflict) else None
  {
    hide InClosedPeriod, OnOrBeforeCutover, MappingsError, ProfileOn;
    MappingsUsable(db, c);
  }

  /** A caller with the rights and an unused request id charges a checked source exactly on
      an open date after the cutover; nothing fails half way through. */
  lemma ChargeableExactly(db: Db, ctx: Context, c: ChargeIn, id: Id, chargeId: Id)
    requires ServiceInv(db) && 1 <= |c.basis| <= MAX_TEXT && CHARGE_PERMISSIONS <= ctx.orgPermissions
    requires !RequestTaken(db, c.requestId) && id !in db.entries && chargeId !in db.charges
    ensures Approve(db, ctx, c, id, chargeId).Done? <==>
            ChargeCheck(db, c).None? && !InClosedPeriod(db, c.bookingDate) && !OnOrBeforeCutover(db, c.bookingDate)
    ensures Approve(db, ctx, c, id, chargeId) != Refused(Internal)
  {
    hide Sound, Settled, EntryGood, ChargeCheck, WriteCheck, InClosedPeriod, OnOrBeforeCutover, ValidJournal,
         ChargeLines, AddJournal, RequestTaken;
    ChargedRequestsTaken(db);
    CheckErrors(db, c);
    if ChargeCheck(db, c).None? {
      ChargeWritesUnlessDated(db, c);
      ChargeJournalValid(db, c);
    }
  }

  /** Every charge's request id is its journal's. */
  lemma ChargedRequestsTaken(db: Db)
    requires Sound(db)
    ensures forall x :: x in db.charges ==> RequestTaken(db, db.charges[x].requestId)
  {
    hide CodesSound, ChartSound, EntriesSound, LinesSound, PeriodsSound, OpeningSound, ProfilesSound, DraftsSound,
         AssessmentsSound, HasLine, LinesOf, HasReversal;
    forall x | x in db.charges
      ensures RequestTaken(db, db.charges[x].requestId)
    {
      assert ChargeSound(db, db.charges[x]);
    }
  }

  lemma CheckErrors(db: Db, c: ChargeIn)
    ensures ChargeCheck(db, c) != Some(Internal)
  {
    hide ProfileOn, MappingsError;
    MappingsErrors(db, Mappings(c));
  }

  lemma {:induction false} MappingsErrors(db: Db, mappings: seq<(Id, AccountType)>)
    ensures MappingsError(db, mappings) != Some(Internal)
  {
    if mappings != [] {
      MappingsErrors(db, mappings[..|mappings| - 1]);
    }
  }

  // ---------------------------------------------------------------- an opening reversed beforehand

  function SampleLines(): seq<LineIn> { [LineIn("cash", 100, 0, None), LineIn("capital", 0, 100, None)] }

  function SampleSwapped(): seq<LineIn> { [LineIn("cash", 0, 100, None), LineIn("capital", 100, 0, None)] }

  function SampleEntry(requestId: Id, day: Day, reversalOf: Option<Id>): Entry {
    Entry(None, requestId, PostDigest(JournalIn(requestId, None, day, "", [])), day, "", "SAR", Posted, reversalOf,
          "user", Some(0))
  }

  function SampleChart(): Db {
    EmptyDb("org", "SAR", 20260101).(
      accounts := map["cash" := Account("1", Asset, None, true, true, 0),
                      "capital" := Account("2", Equity, None, true, true, 1)],
      accountsCreated := 2)
  }

  function SampleOpening(): Opening { Opening("batch", "first", 20260101, "user") }

  function SampleEvents(): seq<Event> {
    [Transaction([InsertAccount("cash", Account("1", Asset, None, true, true, 0))]),
     Transaction([InsertAccount("capital", Account("2", Equity, None, true, true, 0))]),
     Transaction(JournalScript("first", SampleEntry("r1", 20260101, None), SampleLines())),
     Transaction(JournalScript("second", SampleEntry("r2", 20260102, Some("first")), SampleSwapped())),
     Transaction([InsertOpening(SampleOpening())])]
  }

  /** The rows after each of the three journal transactions. */
  function SampleFirst(): Db { AddJournal(SampleChart(), "first", SampleEntry("r1", 20260101, None), SampleLines()) }

  function SampleSecond(): Db {
    AddJournal(SampleFirst(), "second", SampleEntry("r2", 20260102, Some("first")), SampleSwapped())
  }

  /** Row by row, the triggers let a journal be posted, reversed, and only then declared the
      opening: an accepted history ends with a reversed opening. */
  lemma TriggersAllowReversedOpening()
    ensures var db := History(EmptyDb("org", "SAR", 20260101), SampleEvents());
            db.opening == Some(SampleOpening()) && HasReversal(db, SampleOpening().journalId)
  {
    hide JournalScript, Commit, AddJournal, SampleChart;
    var events := SampleEvents();
    assert events[..5][..4] == events[..4] && events[..4][..3] == events[..3] && events[..3][..2] == events[..2];
    SampleChartAccepted();
    SampleFirstAccepted();
    SampleSecondAccepted();
    SampleOpeningAccepted();
    var end := SampleSecond().(opening := Some(SampleOpening()));
    assert History(EmptyDb("org", "SAR", 20260101), events[..4]) == SampleSecond();
    SampleReversed();
  }

  lemma SampleChartAccepted()
    ensures History(EmptyDb("org", "SAR", 20260101), SampleEvents()[..2]) == SampleChart()
  {
    hide Commit;
    var db0, events := EmptyDb("org", "SAR", 20260101), SampleEvents()[..2];
    var cash, capital := Account("1", Asset, None, true, true, 0), Account("2", Equity, None, true, true, 0);
    var db1 := db0.(accounts := map["cash" := cash], accountsCreated := 1);
    SingleRow(db0, InsertAccount("cash", cash), db1);
    SingleRow(db1, InsertAccount("capital", capital), SampleChart());
    assert events[..2][..1] == events[..1] && events[..1][..0] == [];
    assert History(db0, events[..1]) == db1;
  }

  lemma SampleTotals()
    ensures DebitTotal(SampleLines()) == CreditTotal(SampleLines()) == 100
    ensures DebitTotal(SampleSwapped()) == CreditTotal(SampleSwapped()) == 100
  {
    assert SampleLines()[..1] == [SampleLines()[0]] && SampleLines()[..1][..0] == [];
    assert SampleSwapped()[..1] == [SampleSwapped()[0]] && SampleSwapped()[..1][..0] == [];
    assert DebitTotal(SampleLines()[..1]) == 100 && CreditTotal(SampleLines()[..1]) == 0;
    assert DebitTotal(SampleSwapped()[..1]) == 0 && CreditTotal(SampleSwapped()[..1]) == 100;
  }

  lemma SampleFirstAccepted()
    ensures Commit(SampleChart(), JournalScript("first", SampleEntry("r1", 20260101, None), SampleLines()))
            == Some(SampleFirst())
  {
    hide Commit, JournalScript, DebitTotal, CreditTotal;
    SampleTotals();
    JournalAccepted(SampleChart(), "first", SampleEntry("r1", 20260101, None), SampleLines());
  }

  lemma SampleSecondAccepted()
    ensures Commit(SampleFirst(), JournalScript("second", SampleEntry("r2", 20260102, Some("first")), SampleSwapped()))
            == Some(SampleSecond())
  {
    hide Commit, JournalScript, DebitTotal, CreditTotal;
    SampleTotals();
    JournalAccepted(SampleFirst(), "second", SampleEntry("r2", 20260102, Some("first")), SampleSwapped());
  }

  lemma SampleOpeningAccepted()
    ensures Commit(SampleSecond(), [InsertOpening(SampleOpening())])
            == Some(SampleSecond().(opening := Some(SampleOpening())))
  {
    hide Commit;
    SingleRow(SampleSecond(), InsertOpening(SampleOpening()), SampleSecond().(opening := Some(SampleOpening())));
  }

  lemma SampleReversed()
    ensures HasReversal(SampleSecond().(opening := Some(SampleOpening())), "first")
  {
    var d := SampleSecond().(opening := Some(SampleOpening()));
    assert "second" in d.entries && d.entries["second"].reversalOf == Some("first");
  }
}
