/** The two guard layers compared: which of the service's checks the triggers repeat. */
module GuardLayers {
  import opened Base
  import opened Tables
  import opened Triggers
  import opened TriggerProofs
  import opened Ledger
  import opened Refinement

  ghost predicate UsableLine(db: Db, line: LineIn) { line.account in db.accounts && db.accounts[line.account].postable }

  ghost predicate UsableLines(db: Db, lines: seq<LineIn>) { forall k :: 0 <= k < |lines| ==> UsableLine(db, lines[k]) }

  /** A line that was accepted names an existing postable account. */
  lemma AcceptedLine(db: Db, id: Id, entry: Entry, lines: seq<LineIn>, n: nat)
    requires n < |lines|
    requires Execute(Tx(Partial(db, id, entry, lines, n), {id}, {}), InsertLine(Numbered(id, lines)[n])).Some?
    ensures UsableLine(db, lines[n])
    ensures Execute(Tx(Partial(db, id, entry, lines, n), {id}, {}), InsertLine(Numbered(id, lines)[n]))
            == Some(Tx(Partial(db, id, entry, lines, n + 1), {id}, {}))
  {
    hide OneSided;
    TouchedOnce(id);
    assert Numbered(id, lines)[..n] + [Numbered(id, lines)[n]] == Numbered(id, lines)[..n + 1];
    assert (db.lines + Numbered(id, lines)[..n]) + [Numbered(id, lines)[n]] == db.lines + Numbered(id, lines)[..n + 1];
  }

  lemma {:induction false} AcceptedLines(db: Db, id: Id, entry: Entry, lines: seq<LineIn>, n: nat)
    requires n <= |lines|
    requires ExecuteAll(Tx(Partial(db, id, entry, lines, 0), {id}, {}), LineOps(Numbered(id, lines))[..n]).Some?
    ensures forall k :: 0 <= k < n ==> UsableLine(db, lines[k])
    ensures ExecuteAll(Tx(Partial(db, id, entry, lines, 0), {id}, {}), LineOps(Numbered(id, lines))[..n])
            == Some(Tx(Partial(db, id, entry, lines, n), {id}, {}))
  {
    hide Execute, Partial, UsableLine;
    if n > 0 {
      var ops := LineOps(Numbered(id, lines));
      assert ops[..n][..n - 1] == ops[..n - 1];
      AcceptedLines(db, id, entry, lines, n - 1);
      AcceptedLine(db, id, entry, lines, n - 1);
    }
  }

  lemma AcceptedHeader(db: Db, id: Id, entry: Entry, lines: seq<LineIn>)
    requires Execute(Begin(db), InsertEntry(id, Unposted(entry))).Some?
    ensures id !in db.entries && EntryAllowed(db, id, entry)
    ensures Execute(Begin(db), InsertEntry(id, Unposted(entry))) == Some(Tx(Partial(db, id, entry, lines, 0), {id}, {}))
  {
    hide PostingAllowed, ChargedJournal;
    TouchedOnce(id);
    assert db.lines + Numbered(id, lines)[..0] == db.lines;
  }

  lemma AcceptedPosting(db: Db, id: Id, entry: Entry, lines: seq<LineIn>)
    requires entry.status == Posted
    requires Execute(Tx(Partial(db, id, entry, lines, |lines|), {id}, {}), UpdateEntry(id, entry)).Some?
    ensures PostingAllowed(db, id, entry)
  {
    hide EntryAllowed, InClosedPeriod;
    SamePeriods(db, Partial(db, id, entry, lines, |lines|), entry.bookingDate);
  }

  /** A script the triggers accept was on usable accounts, an open date and after the cutover. */
  lemma AcceptedScript(db: Db, id: Id, entry: Entry, lines: seq<LineIn>)
    requires entry.status == Posted && ExecuteAll(Begin(db), JournalScript(id, entry, lines)).Some?
    ensures id !in db.entries && UsableLines(db, lines) && EntryAllowed(db, id, entry) && PostingAllowed(db, id, entry)
  {
    hide Execute, Partial, UsableLine, PostingAllowed, EntryAllowed, ExecuteAll;
    var header, body, posting := [InsertEntry(id, Unposted(entry))], LineOps(Numbered(id, lines)),
      [UpdateEntry(id, entry)];
    ExecuteAllConcat(Begin(db), header + body, posting);
    ExecuteAllConcat(Begin(db), header, body);
    ExecuteOne(Begin(db), header[0]);
    AcceptedHeader(db, id, entry, lines);
    assert body[..|lines|] == body;
    AcceptedLines(db, id, entry, lines, |lines|);
    ExecuteOne(Tx(Partial(db, id, entry, lines, |lines|), {id}, {}), posting[0]);
    AcceptedPosting(db, id, entry, lines);
  }

  /** What the triggers ask of a reversal: its original is stored, not yet reversed, not a
      charge's journal and not the opening's. That the original be no reversal itself they do
      not ask. */
  ghost predicate TriggersLetReverse(db: Db, original: Id) {
    && original in db.entries && !HasReversal(db, original) && !ChargedJournal(db, original)
    && !(db.opening.Some? && db.opening.value.journalId == original)
  }

  /** What write_entry writes for a validated request is accepted row by row and at commit
      exactly when the row id and the request id are new, all accounts exist and are postable,
      the date is in no closed period and after the cutover, and the reversed journal, if any,
      is one the triggers let be reversed. */
  lemma TriggersRepeatTheChecks(db: Db, ctx: Context, p: JournalIn, digest: Digest, reversalOf: Option<Id>, id: Id)
    requires Sound(db) && ValidJournal(p)
    ensures Commit(db, JournalScript(id, NewEntry(db, ctx, p, digest, reversalOf), p.lines)).Some? <==>
            && id !in db.entries && !RequestTaken(db, p.requestId)
            && UsableLines(db, p.lines) && !InClosedPeriod(db, p.bookingDate) && !OnOrBeforeCutover(db, p.bookingDate)
            && (reversalOf.Some? ==> TriggersLetReverse(db, reversalOf.value))
  {
    hide Sound, LinesSound, Committable, JournalScript, AddJournal, InClosedPeriod, OnOrBeforeCutover, DebitTotal,
         CreditTotal, UsableLines, ReadyToWrite, RequestTaken, TriggersLetReverse, EntryAllowed, PostingAllowed,
         ValidJournal;
    var entry := NewEntry(db, ctx, p, digest, reversalOf);
    SoundRows(db);
    if ExecuteAll(Begin(db), JournalScript(id, entry, p.lines)).Some? {
      AcceptedScript(db, id, entry, p.lines);
      AllowedMeans(db, id, entry);
    }
    if && id !in db.entries && !RequestTaken(db, p.requestId)
       && UsableLines(db, p.lines) && !InClosedPeriod(db, p.bookingDate) && !OnOrBeforeCutover(db, p.bookingDate)
       && (reversalOf.Some? ==> TriggersLetReverse(db, reversalOf.value)) {
      AllowedMeans(db, id, entry);
      UsableIsReady(db, p, id, entry);
      JournalAccepted(db, id, entry, p.lines);
    }
  }

  lemma SoundRows(db: Db)
    requires Sound(db)
    ensures LinesSound(db)
    ensures db.opening.Some? ==> db.opening.value.journalId in db.entries
  {
  }

  /** The entry triggers and constraints, for a new row. */
  lemma AllowedMeans(db: Db, id: Id, entry: Entry)
    requires id !in db.entries && (db.opening.Some? ==> db.opening.value.journalId in db.entries)
    ensures EntryAllowed(db, id, entry) && PostingAllowed(db, id, entry) <==>
            && !RequestTaken(db, entry.requestId)
            && !InClosedPeriod(db, entry.bookingDate) && !OnOrBeforeCutover(db, entry.bookingDate)
            && (entry.reversalOf.Some? ==> TriggersLetReverse(db, entry.reversalOf.value))
  {
    hide InClosedPeriod, ChargedJournal;
  }

  lemma UsableIsReady(db: Db, p: JournalIn, id: Id, entry: Entry)
    requires ValidJournal(p) && UsableLines(db, p.lines) && id !in db.entries
    requires entry.status == Posted && entry.postedAt.Some? && EntryAllowed(db, id, entry)
    requires PostingAllowed(db, id, entry)
    ensures ReadyToWrite(db, id, entry, p.lines)
  {
    hide EntryAllowed, PostingAllowed, DebitTotal, CreditTotal;
    forall k | 0 <= k < |p.lines|
      ensures PostableLine(db, p.lines[k])
    {
      assert ValidLine(p.lines[k]) && UsableLine(db, p.lines[k]);
    }
  }

  /** Of the four reasons for which the service refuses a reversal the triggers repeat three;
      the fourth, that the original is itself a reversal, is the service's alone. */
  lemma OnlyServiceRefusesReversingReversals(db: Db, original: Id)
    requires original in db.entries
    ensures Irreversible(db, original) <==> !TriggersLetReverse(db, original) || db.entries[original].reversalOf.Some?
  {
    hide ChargedJournal, HasReversal;
  }

  /** On usable accounts and an open date the triggers accept the reversal of an unreversed
      reversal, which the service refuses to every caller. */
  lemma TriggersReverseReversals(db: Db, ctx: Context, original: Id, r: ReversalIn, id: Id)
    requires Sound(db) && original in db.entries && db.entries[original].reversalOf.Some?
    requires TriggersLetReverse(db, original)
    requires var p := ReversalPayload(db, original, r);
             && ValidJournal(p) && UsableLines(db, p.lines) && id !in db.entries && !RequestTaken(db, r.requestId)
             && !InClosedPeriod(db, r.bookingDate) && !OnOrBeforeCutover(db, r.bookingDate)
    ensures var p := ReversalPayload(db, original, r);
            var entry := NewEntry(db, ctx, p, ReverseDigest(original, r), Some(original));
            Commit(db, JournalScript(id, entry, p.lines)).Some?
    ensures Reverse(db, ctx, original, r, id).Refused?
  {
    hide Sound, ValidJournal, UsableLines, InClosedPeriod, OnOrBeforeCutover, RequestTaken, TriggersLetReverse,
         Irreversible, Swapped, LinesOf, JournalScript, Commit, WriteEntry, Authorize;
    TriggersRepeatTheChecks(db, ctx, ReversalPayload(db, original, r), ReverseDigest(original, r), Some(original), id);
    OnlyServiceRefusesReversingReversals(db, original);
  }
}
