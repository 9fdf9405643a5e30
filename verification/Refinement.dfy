/** The service refines the database layer: whatever a command writes, row by row, passes
    every row trigger and the checks deferred to commit, and leaves exactly the rows the
    command's own description says. */
module Refinement {
  import opened Base
  import opened Tables
  import opened Triggers
  import opened TriggerProofs
  import opened Ledger

  // ---------------------------------------------------------------- scripts

  lemma {:induction false} ExecuteAllConcat(tx: Tx, a: seq<Op>, b: seq<Op>)
    ensures ExecuteAll(tx, a + b) ==
            (match ExecuteAll(tx, a) case None => None case Some(mid) => ExecuteAll(mid, b))
  {
    hide Execute;
    if b == [] {
      assert a + b == a;
    } else {
      assert (a + b)[..|a + b| - 1] == a + b[..|b| - 1];
      ExecuteAllConcat(tx, a, b[..|b| - 1]);
    }
  }

  lemma ExecuteOne(tx: Tx, op: Op)
    ensures ExecuteAll(tx, [op]) == Execute(tx, op)
  {
    hide Execute;
    assert [op][..0] == [];
  }

  function Unposted(entry: Entry): Entry { entry.(status := Draft, postedAt := None) }

  function LineOps(rows: seq<LineRow>): (ops: seq<Op>)
    ensures |ops| == |rows| && forall k :: 0 <= k < |rows| ==> ops[k] == InsertLine(rows[k])
  {
    seq(|rows|, k requires 0 <= k < |rows| => InsertLine(rows[k]))
  }

  /** The row writes of write_entry: the DRAFT header, its lines, then the posting update. */
  function JournalScript(id: Id, entry: Entry, lines: seq<LineIn>): seq<Op> {
    [InsertEntry(id, Unposted(entry))] + LineOps(Numbered(id, lines)) + [UpdateEntry(id, entry)]
  }

  // ---------------------------------------------------------------- writing one journal

  ghost predicate PostableLine(db: Db, line: LineIn) {
    line.account in db.accounts && db.accounts[line.account].postable && OneSided(line)
  }

  /** What the checks before write_entry's first write establish. */
  ghost predicate ReadyToWrite(db: Db, id: Id, entry: Entry, lines: seq<LineIn>) {
    && id !in db.entries
    && entry.status == Posted && entry.postedAt.Some?
    && EntryAllowed(db, id, entry) && PostingAllowed(db, id, entry)
    && |lines| >= 2 && DebitTotal(lines) == CreditTotal(lines)
    && forall k :: 0 <= k < |lines| ==> PostableLine(db, lines[k])
  }

  /** The rows with the header still in DRAFT and the first n lines written. */
  function Partial(db: Db, id: Id, entry: Entry, lines: seq<LineIn>, n: nat): Db
    requires n <= |lines|
  {
    db.(entries := db.entries[id := Unposted(entry)], lines := db.lines + Numbered(id, lines)[..n])
  }

  lemma TouchedOnce(id: Id)
    ensures var none: set<Id> := {};
            none + {id} == {id} && {id} + none == {id} && {id} + {id} == {id} && none + none == none
  {
  }

  lemma HeaderAccepted(db: Db, id: Id, entry: Entry, lines: seq<LineIn>)
    requires ReadyToWrite(db, id, entry, lines)
    ensures Execute(Begin(db), InsertEntry(id, Unposted(entry))) == Some(Tx(Partial(db, id, entry, lines, 0), {id}, {}))
  {
    hide PostableLine, DebitTotal, CreditTotal, PostingAllowed, ChargedJournal;
    TouchedOnce(id);
    assert db.lines + Numbered(id, lines)[..0] == db.lines;
  }

  lemma LineAccepted(db: Db, id: Id, entry: Entry, lines: seq<LineIn>, n: nat)
    requires LinesSound(db) && ReadyToWrite(db, id, entry, lines) && n < |lines|
    ensures Execute(Tx(Partial(db, id, entry, lines, n), {id}, {}), InsertLine(Numbered(id, lines)[n]))
            == Some(Tx(Partial(db, id, entry, lines, n + 1), {id}, {}))
  {
    hide DebitTotal, CreditTotal, EntryAllowed, PostingAllowed, OneSided;
    TouchedOnce(id);
    var part, row := Partial(db, id, entry, lines, n), Numbered(id, lines)[n];
    assert PostableLine(db, lines[n]);
    assert forall k :: 0 <= k < |db.lines| ==> LineSound(db, db.lines[k]) && part.lines[k] == db.lines[k];
    assert LineAllowed(part, row);
    assert Numbered(id, lines)[..n] + [row] == Numbered(id, lines)[..n + 1];
    assert (db.lines + Numbered(id, lines)[..n]) + [row] == db.lines + Numbered(id, lines)[..n + 1];
  }

  lemma {:induction false} LinesAccepted(db: Db, id: Id, entry: Entry, lines: seq<LineIn>, n: nat)
    requires LinesSound(db) && ReadyToWrite(db, id, entry, lines) && n <= |lines|
    ensures ExecuteAll(Tx(Partial(db, id, entry, lines, 0), {id}, {}), LineOps(Numbered(id, lines))[..n])
            == Some(Tx(Partial(db, id, entry, lines, n), {id}, {}))
  {
    hide LinesSound, ReadyToWrite, Execute, Partial;
    if n > 0 {
      LinesAccepted(db, id, entry, lines, n - 1);
      LineAccepted(db, id, entry, lines, n - 1);
      var ops := LineOps(Numbered(id, lines));
      assert ops[..n][..n - 1] == ops[..n - 1];
    }
  }

  lemma PostingAccepted(db: Db, id: Id, entry: Entry, lines: seq<LineIn>)
    requires ReadyToWrite(db, id, entry, lines)
    ensures Execute(Tx(Partial(db, id, entry, lines, |lines|), {id}, {}), UpdateEntry(id, entry))
            == Some(Tx(AddJournal(db, id, entry, lines), {id}, {}))
  {
    hide PostableLine, DebitTotal, CreditTotal, InClosedPeriod;
    TouchedOnce(id);
    var part := Partial(db, id, entry, lines, |lines|);
    assert Numbered(id, lines)[..|lines|] == Numbered(id, lines);
    assert InClosedPeriod(part, entry.bookingDate) == InClosedPeriod(db, entry.bookingDate) by {
      SamePeriods(db, part, entry.bookingDate);
    }
    assert part.entries[id := entry] == db.entries[id := entry];
  }

  lemma SamePeriods(db: Db, d: Db, day: Day)
    requires d.periods == db.periods
    ensures InClosedPeriod(d, day) == InClosedPeriod(db, day)
  {
  }

  lemma {:induction false} NumberedSums(id: Id, lines: seq<LineIn>)
    ensures DebitSum(Numbered(id, lines)) == DebitTotal(lines)
    ensures CreditSum(Numbered(id, lines)) == CreditTotal(lines)
  {
    if lines != [] {
      var front := lines[..|lines| - 1];
      NumberedSums(id, front);
      assert Numbered(id, lines)[..|lines| - 1] == Numbered(id, front);
    }
  }

  lemma {:induction false} OneSidedTotals(lines: seq<LineIn>)
    requires forall k :: 0 <= k < |lines| ==> OneSided(lines[k])
    ensures DebitTotal(lines) >= 0 && CreditTotal(lines) >= 0
    ensures DebitTotal(lines) + CreditTotal(lines) >= |lines|
  {
    if lines != [] {
      OneSidedTotals(lines[..|lines| - 1]);
    }
  }

  /** The new journal's lines are the written ones; every other journal keeps its own. */
  lemma AddedLines(db: Db, id: Id, entry: Entry, lines: seq<LineIn>, other: Id)
    requires LinesSound(db) && id !in db.entries
    ensures LinesOf(AddJournal(db, id, entry, lines).lines, other) ==
            if other == id then Numbered(id, lines) else LinesOf(db.lines, other)
  {
    hide LineSound;
    LinesOfConcat(db.lines, Numbered(id, lines), other);
    if other == id {
      assert forall k :: 0 <= k < |db.lines| ==> LineSound(db, db.lines[k]);
      NoLinesYet(db, id);
      LinesOfAll(Numbered(id, lines), id);
    } else {
      LinesOfOthers(Numbered(id, lines), other);
    }
  }

  lemma NoLinesYet(db: Db, id: Id)
    requires LinesSound(db) && id !in db.entries
    ensures LinesOf(db.lines, id) == []
  {
    forall k | 0 <= k < |db.lines|
      ensures db.lines[k].entryId != id
    {
      assert LineSound(db, db.lines[k]);
    }
    LinesOfOthers(db.lines, id);
  }

  lemma AddedSettled(db: Db, id: Id, entry: Entry, lines: seq<LineIn>)
    requires LinesSound(db) && ReadyToWrite(db, id, entry, lines)
    ensures EntrySettled(AddJournal(db, id, entry, lines), id)
  {
    hide LinesSound, EntryAllowed, PostingAllowed, DebitSum, CreditSum, DebitTotal, CreditTotal, LinesOf;
    AddedLines(db, id, entry, lines, id);
    NumberedSums(id, lines);
    assert forall k :: 0 <= k < |lines| ==> PostableLine(db, lines[k]);
    OneSidedTotals(lines);
  }

  /** Every row write of a checked journal is accepted, and together they add exactly the
      posted journal and its numbered lines. */
  lemma JournalAccepted(db: Db, id: Id, entry: Entry, lines: seq<LineIn>)
    requires LinesSound(db) && ReadyToWrite(db, id, entry, lines)
    ensures ExecuteAll(Begin(db), JournalScript(id, entry, lines))
            == Some(Tx(AddJournal(db, id, entry, lines), {id}, {}))
    ensures Commit(db, JournalScript(id, entry, lines)) == Some(AddJournal(db, id, entry, lines))
  {
    hide LinesSound, ReadyToWrite, Execute, Partial, AddJournal, ExecuteAll, EntrySettled;
    var header, body, posting := [InsertEntry(id, Unposted(entry))], LineOps(Numbered(id, lines)),
      [UpdateEntry(id, entry)];
    ExecuteAllConcat(Begin(db), header + body, posting);
    ExecuteAllConcat(Begin(db), header, body);
    ExecuteOne(Begin(db), header[0]);
    HeaderAccepted(db, id, entry, lines);
    LinesAccepted(db, id, entry, lines, |lines|);
    assert body[..|lines|] == body;
    ExecuteOne(Tx(Partial(db, id, entry, lines, |lines|), {id}, {}), posting[0]);
    PostingAccepted(db, id, entry, lines);
    AddedSettled(db, id, entry, lines);
  }

  /** A further single row written after the journal, in the same transaction. */
  lemma JournalThenRow(db: Db, id: Id, entry: Entry, lines: seq<LineIn>, op: Op, after: Db)
    requires LinesSound(db) && ReadyToWrite(db, id, entry, lines)
    requires op.InsertOpening? || op.InsertCharge?
    requires WriteRow(AddJournal(db, id, entry, lines), op) == Some(after)
    requires after.entries == AddJournal(db, id, entry, lines).entries
    requires after.lines == AddJournal(db, id, entry, lines).lines
    ensures Commit(db, JournalScript(id, entry, lines) + [op]) == Some(after)
  {
    hide LinesSound, ReadyToWrite, ExecuteAll, WriteRow, LinesOf, DebitSum, CreditSum, AddJournal;
    JournalAccepted(db, id, entry, lines);
    var mid := Tx(AddJournal(db, id, entry, lines), {id}, {});
    ExecuteAllConcat(Begin(db), JournalScript(id, entry, lines), [op]);
    ExecuteOne(mid, op);
    TouchedOnce(id);
    assert Execute(mid, op) == Some(Tx(after, {id}, {}));
    AddedSettled(db, id, entry, lines);
  }

  // ---------------------------------------------------------------- journal commands

  /** The checks of a command that reaches write_entry's first write are those the triggers
      make: request unused, original reversible, period open, cutover passed, accounts usable. */
  lemma CheckedIsReady(db: Db, ctx: Context, p: JournalIn, digest: Digest, reversalOf: Option<Id>, id: Id)
    requires WriteEntry(db, ctx, p, digest, reversalOf, id).Done?
    requires ValidJournal(p) && !RequestTaken(db, p.requestId)
    requires reversalOf.Some? ==> reversalOf.value in db.entries && !Irreversible(db, reversalOf.value)
    ensures WriteEntry(db, ctx, p, digest, reversalOf, id)
            == Done(AddJournal(db, id, NewEntry(db, ctx, p, digest, reversalOf), p.lines), id)
    ensures ReadyToWrite(db, id, NewEntry(db, ctx, p, digest, reversalOf), p.lines)
  {
    hide AddJournal, InClosedPeriod, ChargedJournal, DebitTotal, CreditTotal;
    var entry := NewEntry(db, ctx, p, digest, reversalOf);
    forall k | 0 <= k < |p.lines|
      ensures PostableLine(db, p.lines[k])
    {
      assert ValidLine(p.lines[k]);
    }
  }

  lemma PostWrites(db: Db, ctx: Context, p: JournalIn, id: Id)
    requires Post(db, ctx, p, id).Done? && Post(db, ctx, p, id).db != db
    ensures var entry := NewEntry(db, ctx, p, PostDigest(p), None);
            && ReadyToWrite(db, id, entry, p.lines)
            && ValidJournal(p) && !RequestTaken(db, p.requestId)
            && Post(db, ctx, p, id) == Done(AddJournal(db, id, entry, p.lines), id)
  {
    hide WriteEntry, ReadyToWrite, AddJournal, ValidJournal, Authorize;
    CheckedIsReady(db, ctx, p, PostDigest(p), None, id);
  }

  lemma ReverseWrites(db: Db, ctx: Context, entryId: Id, r: ReversalIn, id: Id)
    requires Reverse(db, ctx, entryId, r, id).Done? && Reverse(db, ctx, entryId, r, id).db != db
    ensures entryId in db.entries && !Irreversible(db, entryId)
    ensures var p := ReversalPayload(db, entryId, r);
            var entry := NewEntry(db, ctx, p, ReverseDigest(entryId, r), Some(entryId));
            && ReadyToWrite(db, id, entry, p.lines)
            && ValidJournal(p) && !RequestTaken(db, r.requestId)
            && Reverse(db, ctx, entryId, r, id) == Done(AddJournal(db, id, entry, p.lines), id)
  {
    hide WriteEntry, ReadyToWrite, AddJournal, ValidJournal, Authorize, Irreversible, Swapped;
    CheckedIsReady(db, ctx, ReversalPayload(db, entryId, r), ReverseDigest(entryId, r), Some(entryId), id);
  }

  function OpeningRow(ctx: Context, p: JournalIn, id: Id, batchId: Id): Opening {
    Opening(batchId, id, p.bookingDate, ctx.user)
  }

  lemma OpenWrites(db: Db, ctx: Context, p: JournalIn, id: Id, batchId: Id)
    requires PostOpening(db, ctx, p, id, batchId).Done? && PostOpening(db, ctx, p, id, batchId).db != db
    ensures db.opening.None? && forall e :: PostedIn(db, e) ==> db.entries[e].bookingDate > p.bookingDate
    ensures var journal := OpeningJournal(p);
            var entry := NewEntry(db, ctx, journal, OpeningDigest(PostDigest(journal)), None);
            && ReadyToWrite(db, id, entry, journal.lines)
            && ValidJournal(journal) && !RequestTaken(db, p.requestId)
            && PostOpening(db, ctx, p, id, batchId)
               == Done(AddJournal(db, id, entry, journal.lines).(opening := Some(OpeningRow(ctx, p, id, batchId))), id)
  {
    hide WriteEntry, ReadyToWrite, AddJournal, ValidJournal, Authorize;
    var journal := OpeningJournal(p);
    CheckedIsReady(db, ctx, journal, OpeningDigest(PostDigest(journal)), None, id);
  }

  lemma OpeningAccepted(db: Db, ctx: Context, p: JournalIn, id: Id, batchId: Id)
    requires PostOpening(db, ctx, p, id, batchId).Done? && PostOpening(db, ctx, p, id, batchId).db != db
    ensures var journal := OpeningJournal(p);
            var added := AddJournal(db, id, NewEntry(db, ctx, journal, OpeningDigest(PostDigest(journal)), None),
                                    journal.lines);
            WriteRow(added, InsertOpening(OpeningRow(ctx, p, id, batchId)))
              == Some(PostOpening(db, ctx, p, id, batchId).db)
  {
    hide PostOpening, ValidJournal, ReadyToWrite, Numbered;
    OpenWrites(db, ctx, p, id, batchId);
  }

  // ---------------------------------------------------------------- charges

  lemma MappingsUsable(db: Db, c: ChargeIn)
    requires MappingsError(db, Mappings(c)).None?
    ensures MappedAccount(db, c.receivable, Asset) && MappedAccount(db, c.revenue, Revenue)
    ensures MappedAccount(db, c.tax, Liability)
  {
    var m := Mappings(c);
    assert m[..2][..1] == m[..1] && m[..1][..0] == m[..0];
    assert MappingsError(db, m[..2]).None?;
    assert MappingsError(db, m[..1]).None?;
  }

  lemma ApproveWrites(db: Db, ctx: Context, c: ChargeIn, id: Id, chargeId: Id)
    requires Approve(db, ctx, c, id, chargeId).Done? && Approve(db, ctx, c, id, chargeId).db != db
    ensures ChargeCheck(db, c).None? && c.assessment in db.assessments && chargeId !in db.charges
    ensures forall x :: x in db.charges ==> db.charges[x].requestId != c.requestId
    ensures var a := db.assessments[c.assessment];
            var p := ChargeJournal(c, a);
            var entry := NewEntry(db, ctx, p, ChargeDigest(c), None);
            && ReadyToWrite(db, id, entry, p.lines)
            && ValidJournal(p) && !RequestTaken(db, c.requestId)
            && var added := AddJournal(db, id, entry, p.lines);
               Approve(db, ctx, c, id, chargeId)
               == Done(added.(charges := db.charges[chargeId := ChargeRow(ctx, c, a.draft, id)]), chargeId)
  {
    hide WriteEntry, ReadyToWrite, ValidJournal, Authorize, ChargeCheck, Numbered, ChargeLines, MappingsError;
    ChargeCheckFindsAssessment(db, c);
    var a := db.assessments[c.assessment];
    CheckedIsReady(db, ctx, ChargeJournal(c, a), ChargeDigest(c), None, id);
  }

  lemma ChargeCheckFindsAssessment(db: Db, c: ChargeIn)
    ensures ChargeCheck(db, c).None? ==> c.assessment in db.assessments
  {
  }

  lemma ChargeLinesFound(id: Id, c: ChargeIn, a: Assessment)
    ensures var rows := Numbered(id, ChargeLines(c, a));
            && |rows| == (if a.tax > 0 then 3 else 2)
            && HasLine(rows, c.receivable, a.gross, 0)
            && HasLine(rows, c.revenue, 0, a.net)
            && (a.tax > 0 ==> HasLine(rows, c.tax, 0, a.tax))
  {
    var rows := Numbered(id, ChargeLines(c, a));
    assert rows[0].line == LineIn(c.receivable, a.gross, 0, None);
    assert rows[1].line == LineIn(c.revenue, 0, a.net, None);
    if a.tax > 0 {
      assert rows[2].line == LineIn(c.tax, 0, a.tax, None);
    }
  }

  /** guard_service_charge accepts the charge of a successful approval: the journal just
      written reconciles with the assessment, line by line. */
  lemma ChargeAccepted(db: Db, ctx: Context, c: ChargeIn, id: Id, chargeId: Id)
    requires Sound(db)
    requires Approve(db, ctx, c, id, chargeId).Done? && Approve(db, ctx, c, id, chargeId).db != db
    ensures c.assessment in db.assessments
    ensures var a := db.assessments[c.assessment];
            var added := AddJournal(db, id, NewEntry(db, ctx, ChargeJournal(c, a), ChargeDigest(c), None),
                                    ChargeLines(c, a));
            ChargeAllowed(added, chargeId, ChargeRow(ctx, c, a.draft, id))
  {
    hide Approve, Sound, ValidJournal, ReadyToWrite, LinesOf, ChargeLines, ProfileOn, MappingsError, MappedAccount;
    ApproveWrites(db, ctx, c, id, chargeId);
    var a := db.assessments[c.assessment];
    var entry := NewEntry(db, ctx, ChargeJournal(c, a), ChargeDigest(c), None);
    var added := AddJournal(db, id, entry, ChargeLines(c, a));
    MappingsUsable(db, c);
    MappedKept(db, added, c);
    ReadyIsNew(db, id, entry, ChargeLines(c, a));
    NewJournalUnused(db, id);
    AddedLines(db, id, entry, ChargeLines(c, a), id);
    ChargeLinesFound(id, c, a);
    NoReversalYet(db, added, id, entry);
  }

  lemma ReadyIsNew(db: Db, id: Id, entry: Entry, lines: seq<LineIn>)
    requires Sound(db) && ReadyToWrite(db, id, entry, lines)
    ensures id !in db.entries && LinesSound(db) && entry.status == Posted
  {
  }

  lemma MappedKept(db: Db, added: Db, c: ChargeIn)
    requires added.accounts == db.accounts
    ensures forall id, kind :: MappedAccount(db, id, kind) ==> MappedAccount(added, id, kind)
  {
  }

  /** Nothing refers to a journal id that is not stored yet. */
  lemma NewJournalUnused(db: Db, id: Id)
    requires Sound(db) && id !in db.entries
    ensures !HasReversal(db, id)
    ensures forall x :: x in db.charges ==> db.charges[x].journalId != id
  {
    hide ChartSound, LinesSound, PeriodsSound, OpeningSound, ProfilesSound, DraftsSound, AssessmentsSound;
    forall x | x in db.charges
      ensures db.charges[x].journalId != id
    {
      assert ChargeSound(db, db.charges[x]);
    }
  }

  lemma NoReversalYet(db: Db, added: Db, id: Id, entry: Entry)
    requires !HasReversal(db, id) && added.entries == db.entries[id := entry] && entry.reversalOf.None?
    ensures !HasReversal(added, id)
  {
  }
}
