/** Each command, told over the rows alone: exactly when it succeeds, which refusals come first,
    and exactly which rows a success adds. */
module CommandTheorems {
  import opened Base
  import opened DecimalText
  import opened Rounding
  import opened DraftMoney
  import opened Tables
  import opened Triggers
  import opened TriggerProofs
  import opened TriggerTheorems
  import opened Ledger
  import opened Refinement
  import opened BillingRefinement
  import opened LedgerProofs
  import opened LedgerTheorems
  import Vat

  // ---------------------------------------------------------------- vocabulary

  /** In no closed period, and after the cutover. */
  ghost predicate FreeDate(db: Db, day: Day) {
    && (forall p :: p in db.periods && db.periods[p].status == Closed ==>
          day < db.periods[p].start || db.periods[p].end < day)
    && (db.opening.Some? ==> day > db.opening.value.bookingDate)
  }

  ghost predicate NewRequest(db: Db, requestId: Id) {
    forall e :: e in db.entries ==> db.entries[e].requestId != requestId
  }

  /** The later rows are the earlier ones with one journal and its lines, numbered from one. */
  ghost predicate Adds(db: Db, d: Db, id: Id, entry: Entry, lines: seq<LineIn>) {
    && id !in db.entries
    && d.entries == db.entries[id := entry]
    && |d.lines| == |db.lines| + |lines| && d.lines[..|db.lines|] == db.lines
    && (forall k :: 0 <= k < |lines| ==> d.lines[|db.lines| + k] == LineRow(id, k + 1, lines[k]))
  }

  lemma FreeDateMeans(db: Db, day: Day)
    ensures FreeDate(db, day) <==> !InClosedPeriod(db, day) && !OnOrBeforeCutover(db, day)
  {
  }

  lemma NewRequestMeans(db: Db, requestId: Id)
    ensures NewRequest(db, requestId) <==> !RequestTaken(db, requestId)
  {
  }

  lemma AddJournalAdds(db: Db, id: Id, entry: Entry, lines: seq<LineIn>)
    requires id !in db.entries
    ensures Adds(db, AddJournal(db, id, entry, lines), id, entry, lines)
    ensures AddJournal(db, id, entry, lines) ==
            db.(entries := db.entries[id := entry], lines := AddJournal(db, id, entry, lines).lines)
  {
  }

  // ---------------------------------------------------------------- callers and bodies

  /** Who is let through: the organization's right, or for a branch its own right or the
      organization's; an unknown branch comes before a missing right, and that before an
      inactive branch. */
  lemma AuthorizesExactly(db: Db, ctx: Context, right: Permission, branch: Option<Id>, active: bool)
    ensures var held := right in ctx.orgPermissions
                        || (branch.Some? && branch.value in ctx.branchPermissions
                            && right in ctx.branchPermissions[branch.value]);
            var known := branch.None? || branch.value in db.branches;
            && (Authorize(db, ctx, right, branch, active) == Some(NotFound) <==> !known)
            && (Authorize(db, ctx, right, branch, active) == Some(Forbidden) <==> known && !held)
            && (Authorize(db, ctx, right, branch, active) == Some(Conflict) <==>
                  known && held && active && branch.Some? && !db.branches[branch.value])
            && Authorize(db, ctx, right, branch, active) != Some(Invalid)
            && Authorize(db, ctx, right, branch, active) != Some(Internal)
  {
  }

  function DebitsOf(lines: seq<LineIn>): (amounts: seq<nat>)
    requires forall k :: 0 <= k < |lines| ==> lines[k].debit >= 0
    ensures |amounts| == |lines| && forall k :: 0 <= k < |lines| ==> amounts[k] == lines[k].debit
  {
    seq(|lines|, k requires 0 <= k < |lines| && lines[k].debit >= 0 => lines[k].debit)
  }

  function CreditsOf(lines: seq<LineIn>): (amounts: seq<nat>)
    requires forall k :: 0 <= k < |lines| ==> lines[k].credit >= 0
    ensures |amounts| == |lines| && forall k :: 0 <= k < |lines| ==> amounts[k] == lines[k].credit
  {
    seq(|lines|, k requires 0 <= k < |lines| && lines[k].credit >= 0 => lines[k].credit)
  }

  lemma {:induction false} TotalsAreColumns(lines: seq<LineIn>)
    requires forall k :: 0 <= k < |lines| ==> lines[k].debit >= 0 && lines[k].credit >= 0
    ensures DebitTotal(lines) == ExactSum(DebitsOf(lines)) && CreditTotal(lines) == ExactSum(CreditsOf(lines))
  {
    if lines != [] {
      var front := lines[..|lines| - 1];
      TotalsAreColumns(front);
      assert DebitsOf(lines)[..|lines| - 1] == DebitsOf(front) && CreditsOf(lines)[..|lines| - 1] == CreditsOf(front);
    }
  }

  /** One positive side of at most 16 digits before the point, and a note of at most 500. */
  predicate ProperLine(line: LineIn) {
    && (|| (0 < line.debit <= 999999999999999999 && line.credit == 0)
        || (0 < line.credit <= 999999999999999999 && line.debit == 0))
    && (line.description.Some? ==> |line.description.value| <= 500)
  }

  lemma ProperLineMeans(line: LineIn)
    ensures ProperLine(line) <==> ValidLine(line)
  {
  }

  /** What JournalIn lets through: a description of 1 to 500, 2 to 100 proper lines, and two
      columns of equal sum. */
  lemma ValidatesExactly(p: JournalIn)
    ensures ValidJournal(p) <==>
            && 1 <= |p.description| <= 500 && 2 <= |p.lines| <= 100
            && (forall k :: 0 <= k < |p.lines| ==> ProperLine(p.lines[k]))
            && ExactSum(DebitsOf(p.lines)) == ExactSum(CreditsOf(p.lines))
  {
    hide ProperLine, ValidLine, DebitTotal, CreditTotal, ExactSum;
    forall k | 0 <= k < |p.lines|
      ensures ProperLine(p.lines[k]) <==> ValidLine(p.lines[k])
    {
      ProperLineMeans(p.lines[k]);
    }
    if forall k :: 0 <= k < |p.lines| ==> ProperLine(p.lines[k]) {
      ProperColumns(p.lines);
      TotalsAreColumns(p.lines);
    }
  }

  lemma ProperColumns(lines: seq<LineIn>)
    requires forall k :: 0 <= k < |lines| ==> ProperLine(lines[k])
    ensures forall k :: 0 <= k < |lines| ==> lines[k].debit >= 0 && lines[k].credit >= 0
  {
    forall k | 0 <= k < |lines|
      ensures lines[k].debit >= 0 && lines[k].credit >= 0
    {
      assert ProperLine(lines[k]);
    }
  }

  // ---------------------------------------------------------------- post

  /** A journal posted for the first time is stored as its request says, by its caller. */
  lemma PostStores(db: Db, ctx: Context, p: JournalIn, id: Id)
    requires Post(db, ctx, p, id).Done? && NewRequest(db, p.requestId)
    ensures var d := Post(db, ctx, p, id).db;
            && Post(db, ctx, p, id).id == id
            && Adds(db, d, id, Entry(p.branch, p.requestId, PostDigest(p), p.bookingDate, p.description, "SAR", Posted,
                                     None, ctx.user, Some(ctx.at)), p.lines)
            && d == db.(entries := d.entries, lines := d.lines)
  {
    hide ValidJournal, Authorize, AddJournal, InClosedPeriod, OnOrBeforeCutover;
    NewRequestMeans(db, p.requestId);
    AddJournalAdds(db, id, NewEntry(db, ctx, p, PostDigest(p), None), p.lines);
  }

  ghost predicate AccountsExist(db: Db, lines: seq<LineIn>) {
    forall k :: 0 <= k < |lines| ==> lines[k].account in db.accounts
  }

  ghost predicate AccountsUsable(db: Db, lines: seq<LineIn>) {
    forall k :: 0 <= k < |lines| ==> ActiveAccount(db, lines[k].account)
  }

  lemma UsableExist(db: Db, lines: seq<LineIn>)
    requires AccountsUsable(db, lines)
    ensures AccountsExist(db, lines)
  {
  }

  /** A fresh post is taken exactly when it is valid, the caller may post in its branch, its accounts
      are active and take postings, its date is free and the books are in SAR; the first reason
      against it is reported. */
  lemma PostsOnFreeDates(db: Db, ctx: Context, p: JournalIn, id: Id)
    requires NewRequest(db, p.requestId) && id !in db.entries
    ensures var permission := Authorize(db, ctx, PostJournals, p.branch, true);
            Post(db, ctx, p, id) ==
            if !ValidJournal(p) then Refused(Invalid)
            else if permission.Some? then Refused(permission.value)
            else if !AccountsExist(db, p.lines) then Refused(NotFound)
            else if AccountsUsable(db, p.lines) && FreeDate(db, p.bookingDate) && db.currency == "SAR"
            then Done(Post(db, ctx, p, id).db, id)
            else Refused(Conflict)
  {
    hide ValidJournal, Authorize, FreeDate, NewRequest, InClosedPeriod, OnOrBeforeCutover, RequestTaken, AddJournal;
    FreeDateMeans(db, p.bookingDate);
    NewRequestMeans(db, p.requestId);
  }

  /** A post under a stored request is answered with that journal if it is the same post and the
      caller may still post there, and refused otherwise. */
  lemma PostsAgain(db: Db, ctx: Context, p: JournalIn, j: Id, id: Id)
    requires ServiceInv(db) && j in db.entries && db.entries[j].requestId == p.requestId
    ensures var permission := Authorize(db, ctx, PostJournals, p.branch, true);
            var access := Authorize(db, ctx, PostJournals, db.entries[j].branch, false);
            Post(db, ctx, p, id) ==
            if !ValidJournal(p) then Refused(Invalid)
            else if permission.Some? then Refused(permission.value)
            else if access.Some? then Refused(access.value)
            else if db.entries[j].digest == PostDigest(p) then Done(db, j)
            else Refused(Conflict)
  {
    hide Sound, Settled, EntryGood, Existing, ValidJournal, WriteEntry, Authorize;
    SoundEntries(db);
    ExistingFinds(db, ctx, j, PostDigest(p));
  }

  // ---------------------------------------------------------------- reverse

  /** An ordinary journal: no opening, no charge, no reversal, not reversed. */
  ghost predicate Ordinary(db: Db, b: Id)
    requires b in db.entries
  {
    && (db.opening.Some? ==> db.opening.value.journalId != b)
    && (forall c :: c in db.charges ==> db.charges[c].journalId != b)
    && db.entries[b].reversalOf.None?
    && forall e :: e in db.entries ==> db.entries[e].reversalOf != Some(b)
  }

  lemma OrdinaryMeans(db: Db, b: Id)
    requires b in db.entries
    ensures Ordinary(db, b) <==> !Irreversible(db, b)
  {
  }

  /** A fresh reversal is taken exactly with a reason of 1 to 500, of a stored ordinary journal, from a
      caller who may reverse and post in its branch, on a free date; the first reason against it
      is reported. */
  lemma ReversesExactly(db: Db, ctx: Context, b: Id, r: ReversalIn, id: Id)
    requires ServiceInv(db) && NewRequest(db, r.requestId) && id !in db.entries
    ensures Reverse(db, ctx, b, r, id).Done? <==>
            && 1 <= |r.reason| <= 500 && b in db.entries
            && Authorize(db, ctx, ReverseJournals, db.entries[b].branch, false).None?
            && Authorize(db, ctx, PostJournals, db.entries[b].branch, false).None?
            && Ordinary(db, b) && FreeDate(db, r.bookingDate)
    ensures Reverse(db, ctx, b, r, id).Refused? ==>
              Reverse(db, ctx, b, r, id).error ==
              if !(1 <= |r.reason| <= 500) then Invalid
              else if b !in db.entries then NotFound
              else if Authorize(db, ctx, ReverseJournals, db.entries[b].branch, false).Some?
              then Authorize(db, ctx, ReverseJournals, db.entries[b].branch, false).value
              else if Authorize(db, ctx, PostJournals, db.entries[b].branch, false).Some?
              then Authorize(db, ctx, PostJournals, db.entries[b].branch, false).value
              else Conflict
  {
    hide ServiceInv, Authorize, FreeDate, NewRequest, Ordinary, Irreversible, InClosedPeriod, OnOrBeforeCutover,
         RequestTaken, ValidJournal, AddJournal, WriteCheck, Swapped, LinesOf, Existing;
    FreeDateMeans(db, r.bookingDate);
    NewRequestMeans(db, r.requestId);
    if b in db.entries {
      OrdinaryMeans(db, b);
      NothingExists(db, ctx, r.requestId, ReverseDigest(b, r));
      if && 1 <= |r.reason| <= 500
         && Authorize(db, ctx, ReverseJournals, db.entries[b].branch, false).None?
         && Authorize(db, ctx, PostJournals, db.entries[b].branch, false).None? {
        ReversibleExactly(db, ctx, b, r, id);
      }
    }
  }

  lemma NothingExists(db: Db, ctx: Context, requestId: Id, digest: Digest)
    requires NewRequest(db, requestId)
    ensures Existing(db, ctx, requestId, digest) == Absent
  {
    hide Authorize;
  }

  lemma ReversesAgain(db: Db, ctx: Context, b: Id, r: ReversalIn, j: Id, id: Id)
    requires ServiceInv(db) && j in db.entries && db.entries[j].requestId == r.requestId
    requires b in db.entries && 1 <= |r.reason| <= 500
    requires Authorize(db, ctx, ReverseJournals, db.entries[b].branch, false).None?
    requires Authorize(db, ctx, PostJournals, db.entries[b].branch, false).None?
    ensures var access := Authorize(db, ctx, PostJournals, db.entries[j].branch, false);
            Reverse(db, ctx, b, r, id) ==
            if access.Some? then Refused(access.value)
            else if db.entries[j].digest == ReverseDigest(b, r) then Done(db, j)
            else Refused(Conflict)
  {
    hide Sound, Settled, EntryGood, Existing, ValidJournal, WriteEntry, Authorize, Irreversible, Swapped, LinesOf;
    SoundEntries(db);
    ExistingFinds(db, ctx, j, ReverseDigest(b, r));
  }

  /** A reversal is stored under its own request, date and reason, in the original's branch, with
      the original's lines in their order and the two sides exchanged. */
  lemma ReversalStores(db: Db, ctx: Context, b: Id, r: ReversalIn, id: Id, lines: seq<LineIn>)
    requires Reverse(db, ctx, b, r, id).Done? && NewRequest(db, r.requestId) && b in db.entries
    requires var rows := LinesOf(db.lines, b);
             && |lines| == |rows|
             && forall k :: 0 <= k < |rows| ==>
                  && lines[k].account == rows[k].line.account && lines[k].description == rows[k].line.description
                  && lines[k].debit == rows[k].line.credit && lines[k].credit == rows[k].line.debit
    ensures var d := Reverse(db, ctx, b, r, id).db;
            && Reverse(db, ctx, b, r, id).id == id
            && Adds(db, d, id, Entry(db.entries[b].branch, r.requestId, ReverseDigest(b, r), r.bookingDate, r.reason,
                                     "SAR", Posted, Some(b), ctx.user, Some(ctx.at)), lines)
            && d == db.(entries := d.entries, lines := d.lines)
  {
    hide ValidJournal, Authorize, AddJournal, InClosedPeriod, OnOrBeforeCutover, LinesOf, Irreversible;
    NewRequestMeans(db, r.requestId);
    var p := ReversalPayload(db, b, r);
    assert p.lines == lines;
    AddJournalAdds(db, id, NewEntry(db, ctx, p, ReverseDigest(b, r), Some(b)), lines);
  }

  // ---------------------------------------------------------------- opening

  lemma BranchIsNoMatter(p: JournalIn, q: JournalIn)
    requires p == q.(branch := p.branch)
    ensures ValidJournal(p) <==> ValidJournal(q)
  {
  }

  lemma OpeningIsRequest(p: JournalIn)
    ensures OpeningJournal(p).requestId == p.requestId && OpeningJournal(p).bookingDate == p.bookingDate
    ensures OpeningJournal(p).description == p.description && OpeningJournal(p).lines == p.lines
    ensures OpeningJournal(p).branch.None?
  {
  }

  /** A fresh opening is taken exactly when it is valid, from a caller who manages openings and posts,
      when there is none yet, no posted journal is dated on or before it, its accounts are active,
      its date is in no closed period, in SAR; the first reason against it is reported. */
  lemma OpensExactly(db: Db, ctx: Context, p: JournalIn, id: Id, batchId: Id)
    requires NewRequest(db, p.requestId) && id !in db.entries
    ensures PostOpening(db, ctx, p, id, batchId) ==
            if !ValidJournal(p) then Refused(Invalid)
            else if !({ManageOpening, PostJournals} <= ctx.orgPermissions) then Refused(Forbidden)
            else if db.opening.Some? || !AllLater(db, p.bookingDate) then Refused(Conflict)
            else if !AccountsExist(db, p.lines) then Refused(NotFound)
            else if AccountsUsable(db, p.lines) && FreeDate(db, p.bookingDate) && db.currency == "SAR"
            then Done(PostOpening(db, ctx, p, id, batchId).db, id)
            else Refused(Conflict)
  {
    hide ValidJournal, NewRequest, InClosedPeriod, FreeDate, RequestTaken, AddJournal;
    OpeningIsRequest(p);
    BranchIsNoMatter(OpeningJournal(p), p);
    FreeDateMeans(db, p.bookingDate);
    NewRequestMeans(db, p.requestId);
  }

  ghost predicate AllLater(db: Db, day: Day) {
    forall e :: e in db.entries && db.entries[e].status == Posted ==> db.entries[e].bookingDate > day
  }

  /** A stored request is answered with the opening if it was this very opening's, and refused
      otherwise. */
  lemma OpensAgain(db: Db, ctx: Context, p: JournalIn, j: Id, id: Id, batchId: Id)
    requires ServiceInv(db) && j in db.entries && db.entries[j].requestId == p.requestId
    requires ValidJournal(p) && {ManageOpening, PostJournals} <= ctx.orgPermissions
    ensures var access := Authorize(db, ctx, PostJournals, db.entries[j].branch, false);
            PostOpening(db, ctx, p, id, batchId) ==
            if access.Some? then Refused(access.value)
            else if db.entries[j].digest == OpeningDigest(PostDigest(p.(branch := None))) then Done(db, j)
            else Refused(Conflict)
  {
    hide Sound, Settled, EntryGood, Existing, ValidJournal, WriteEntry, Authorize;
    SoundEntries(db);
    BranchIsNoMatter(OpeningJournal(p), p);
    ExistingFinds(db, ctx, j, OpeningDigest(PostDigest(OpeningJournal(p))));
    if db.entries[j].digest.OpeningDigest? {
      OpeningEntryHasItsBatch(db, j);
    }
  }

  /** It is stored with the lines, date and description of its request, in no branch. */
  lemma OpeningStores(db: Db, ctx: Context, p: JournalIn, id: Id, batchId: Id)
    requires PostOpening(db, ctx, p, id, batchId).Done? && NewRequest(db, p.requestId)
    ensures var d := PostOpening(db, ctx, p, id, batchId).db;
            && PostOpening(db, ctx, p, id, batchId).id == id
            && Adds(db, d, id, Entry(None, p.requestId, OpeningDigest(PostDigest(p.(branch := None))), p.bookingDate,
                                     p.description, "SAR", Posted, None, ctx.user, Some(ctx.at)), p.lines)
            && d == db.(entries := d.entries, lines := d.lines,
                        opening := Some(Opening(batchId, id, p.bookingDate, ctx.user)))
  {
    hide ValidJournal, Authorize, AddJournal, InClosedPeriod, OnOrBeforeCutover;
    NewRequestMeans(db, p.requestId);
    var q := OpeningJournal(p);
    AddJournalAdds(db, id, NewEntry(db, ctx, q, OpeningDigest(PostDigest(q)), None), q.lines);
  }

  /** After a successful opening, first or repeated, and in every later run, the opening's journal
      is the request's own: its id, date, description and lines, debits and credits as given. */
  lemma OpeningShowsRequest(db: Db, ctx: Context, p: JournalIn, id: Id, batchId: Id, cmds: seq<Command>)
    requires ServiceInv(db) && PostOpening(db, ctx, p, id, batchId).Done?
    ensures var first := PostOpening(db, ctx, p, id, batchId);
            var later := Run(first.db, cmds);
            && first.id in later.entries && later.opening.Some? && later.opening.value.journalId == first.id
            && later.opening.value.bookingDate == p.bookingDate
            && LinesInOf(later, first.id) == p.lines
            && var e := later.entries[first.id];
               && e.requestId == p.requestId && e.bookingDate == p.bookingDate && e.description == p.description
               && e.branch.None? && e.status == Posted && e.reversalOf.None? && e.currency == "SAR"
               && (NewRequest(db, p.requestId) ==> e.postedBy == ctx.user && e.postedAt == Some(ctx.at))
  {
    hide ServiceInv, PostOpening, Run, LinesOf, NewRequest;
    var first := PostOpening(db, ctx, p, id, batchId);
    StepKeeps(db, DoOpen(ctx, p, id, batchId));
    OpeningHolds(db, ctx, p, id, batchId);
    JournalKept(first.db, cmds, first.id);
    OpeningIsRequest(p);
    StoredOpening(first.db, p, first.id);
    if NewRequest(db, p.requestId) {
      OpeningStores(db, ctx, p, id, batchId);
    }
  }

  lemma StoredOpening(db: Db, p: JournalIn, j: Id)
    requires ServiceInv(db) && Holds(db, j, p.requestId, OpeningDigest(PostDigest(OpeningJournal(p))))
    ensures db.opening.Some? && db.opening.value.journalId == j
    ensures db.opening.value.bookingDate == db.entries[j].bookingDate
    ensures Shows(db, j, OpeningJournal(p)) && db.entries[j].reversalOf.None? && db.entries[j].currency == "SAR"
    ensures db.entries[j].status == Posted
  {
    hide Sound, Settled, WellFormed, LinesInOf, OpeningJournal;
    assert EntryGood(db, j);
    SoundOpening(db);
  }

  // ---------------------------------------------------------------- chart and periods

  /** A caller with the right opens an account exactly under a free code of 1 to 40 capitals,
      digits, underscores, points and hyphens, at the top or under an active summary account of
      its type; the new row is the request's, active and last in creation order. */
  lemma AccountsExactly(db: Db, ctx: Context, p: AccountIn, id: Id)
    ensures CreateAccount(db, ctx, p, id).Done? <==>
            && 1 <= |p.code| <= 40
            && (forall i :: 0 <= i < |p.code| ==>
                  'A' <= p.code[i] <= 'Z' || '0' <= p.code[i] <= '9' || p.code[i] in {'_', '.', '-'})
            && ManageAccounts in ctx.orgPermissions && id !in db.accounts
            && (forall a :: a in db.accounts ==> db.accounts[a].code != p.code)
            && (p.parent.Some? ==>
                  && p.parent.value in db.accounts && db.accounts[p.parent.value].active
                  && !db.accounts[p.parent.value].postable && db.accounts[p.parent.value].kind == p.kind)
    ensures CreateAccount(db, ctx, p, id).Done? ==>
              CreateAccount(db, ctx, p, id) ==
              var account := Account(p.code, p.kind, p.parent, p.postable, true, db.accountsCreated);
              Done(db.(accounts := db.accounts[id := account], accountsCreated := db.accountsCreated + 1), id)
    ensures CreateAccount(db, ctx, p, id).Refused? ==>
              CreateAccount(db, ctx, p, id).error ==
              if !ValidCode(p.code) then Invalid
              else if ManageAccounts !in ctx.orgPermissions then Forbidden
              else if p.parent.Some? && p.parent.value !in db.accounts then NotFound
              else Conflict
  {
  }

  ghost predicate DayTaken(db: Db, day: Day) {
    exists p :: p in db.periods && db.periods[p].start <= day <= db.periods[p].end
  }

  /** A caller with the right opens a period exactly when it does not end before it starts and
      shares no day with another. */
  lemma PeriodsExactly(db: Db, ctx: Context, start: Day, end: Day, id: Id)
    requires PeriodsSound(db)
    ensures CreatePeriod(db, ctx, start, end, id).Done? <==>
            && start <= end && ManagePeriods in ctx.orgPermissions && id !in db.periods
            && forall day :: start <= day <= end ==> !DayTaken(db, day)
    ensures CreatePeriod(db, ctx, start, end, id).Done? ==>
              CreatePeriod(db, ctx, start, end, id) ==
              Done(db.(periods := db.periods[id := Period(start, end, Open, None, None)]), id)
    ensures CreatePeriod(db, ctx, start, end, id).Refused? ==>
              CreatePeriod(db, ctx, start, end, id).error ==
              if end < start then Invalid
              else if ManagePeriods !in ctx.orgPermissions then Forbidden
              else if exists day :: start <= day <= end && DayTaken(db, day) then Conflict
              else Internal
  {
    if start <= end {
      forall p | p in db.periods && db.periods[p].start <= end && db.periods[p].end >= start
        ensures exists day :: start <= day <= end && DayTaken(db, day)
      {
        assert PeriodConsistent(db.periods[p]);
        var day := if start < db.periods[p].start then db.periods[p].start else start;
        assert DayTaken(db, day);
      }
    }
  }

  /** A caller with the right closes exactly a stored open period, in place and in his name. */
  lemma ClosesExactly(db: Db, ctx: Context, id: Id)
    ensures ClosePeriod(db, ctx, id) ==
            if ManagePeriods !in ctx.orgPermissions then Refused(Forbidden)
            else if id !in db.periods then Refused(NotFound)
            else if db.periods[id].status == Closed then Refused(Conflict)
            else
              var was := db.periods[id];
              Done(db.(periods := db.periods[id := Period(was.start, was.end, Closed, Some(ctx.at), Some(ctx.user))]),
                   id)
  {
  }

  // ---------------------------------------------------------------- drafts

  lemma {:induction false} ServerAmounts(lines: seq<DraftLineIn>, amounts: seq<nat>)
    requires forall k :: 0 <= k < |lines| ==> ValidDraftLine(lines[k])
    ensures Amounts(lines) == Some(amounts) <==> IsRounded(lines, amounts)
  {
    hide Amounts, RoundsHalfAway;
    AmountsAreRounded(lines);
    var computed := Amounts(lines).value;
    forall k | 0 <= k < |lines|
      ensures forall x: int :: RoundsHalfAway(lines[k].mills * lines[k].price, 1000, x) <==> x == computed[k]
    {
      assert ValidDraftLine(lines[k]);
      forall x: int
        ensures RoundsHalfAway(lines[k].mills * lines[k].price, 1000, x) <==> x == computed[k]
      {
        ThreeRoundingsAgree(lines[k].mills, lines[k].price, x);
      }
    }
    if IsRounded(lines, amounts) {
      assert forall k :: 0 <= k < |lines| ==> amounts[k] == computed[k];
      assert amounts == computed;
    }
  }

  /** The amounts of some lines: quantity times price, each rounded half away from zero. */
  ghost predicate IsRounded(lines: seq<DraftLineIn>, amounts: seq<nat>) {
    && |amounts| == |lines|
    && forall k :: 0 <= k < |lines| ==> RoundsHalfAway(lines[k].mills * lines[k].price, 1000, amounts[k])
  }

  /** What ServiceDraftIn lets through. */
  predicate ProperDraft(p: DraftIn) {
    && 1 <= |p.customerName| <= 180 && 1 <= |p.lines| <= 100
    && forall k :: 0 <= k < |p.lines| ==>
         && 1 <= |p.lines[k].service| <= 180
         && 0 < p.lines[k].mills < 1000000000000 && p.lines[k].price < 100000000000000
  }

  lemma ProperDraftMeans(p: DraftIn)
    ensures ProperDraft(p) <==> ValidDraft(p)
  {
  }

  ghost predicate NewDraft(db: Db, requestId: Id) {
    forall d :: d in db.drafts ==> db.drafts[d].requestId != requestId
  }

  /** The later rows are the earlier ones with one draft and its lines, numbered from one. */
  ghost predicate AddsDraft(db: Db, d: Db, id: Id, draft: ServiceDraft, lines: seq<DraftLineIn>, amounts: seq<nat>)
    requires |amounts| == |lines|
  {
    && d == db.(drafts := db.drafts[id := draft], draftLines := d.draftLines)
    && |d.draftLines| == |db.draftLines| + |lines| && d.draftLines[..|db.draftLines|] == db.draftLines
    && (forall k :: 0 <= k < |lines| ==>
          d.draftLines[|db.draftLines| + k]
          == DraftLineRow(id, k + 1, lines[k].service, lines[k].mills, lines[k].price, amounts[k]))
  }

  /** A fresh draft request is taken exactly when it is proper, the caller may create drafts, the
      books are in SAR and the sum of the rounded line amounts is at most 9999999999999999.99; it
      is stored sealed with that sum, and its lines in their order with their amounts. */
  lemma DraftsExactly(db: Db, ctx: Context, p: DraftIn, id: Id, amounts: seq<nat>)
    requires NewDraft(db, p.requestId) && id !in db.drafts && IsRounded(p.lines, amounts)
    ensures CreateDraft(db, ctx, p, id).Done? <==>
            && ProperDraft(p) && CreateDrafts in ctx.orgPermissions && db.currency == "SAR"
            && ExactSum(amounts) <= 999999999999999999
    ensures CreateDraft(db, ctx, p, id).Done? ==>
              && CreateDraft(db, ctx, p, id).id == id
              && AddsDraft(db, CreateDraft(db, ctx, p, id).db, id,
                           ServiceDraft(p.requestId, DraftDigest(p), p.customerName, ExactSum(amounts), "SAR", Sealed,
                                        ctx.user),
                           p.lines, amounts)
    ensures CreateDraft(db, ctx, p, id).Refused? ==>
              CreateDraft(db, ctx, p, id).error ==
              if !ProperDraft(p) then Invalid else if CreateDrafts !in ctx.orgPermissions then Forbidden else Conflict
  {
    hide Amounts, DecimalSum, ExactSum, RoundsHalfAway;
    ProperDraftMeans(p);
    if ProperDraft(p) {
      ServerAmounts(p.lines, amounts);
      AmountsAreRounded(p.lines);
      DecimalSumExact(amounts);
      EachWithinSum(amounts);
    }
  }

  /** A stored draft request is answered with the stored draft to the same content, and refused to
      another; nothing is written. */
  lemma DraftsReplay(db: Db, ctx: Context, p: DraftIn, d: Id, newId: Id)
    requires DraftsSound(db) && d in db.drafts && db.drafts[d].requestId == p.requestId
    ensures CreateDraft(db, ctx, p, newId) ==
            if !ProperDraft(p) then Refused(Invalid)
            else if CreateDrafts !in ctx.orgPermissions then Refused(Forbidden)
            else if db.currency != "SAR" || db.drafts[d].digest != DraftDigest(p) then Refused(Conflict)
            else Done(db, d)
  {
    hide Amounts, DecimalSum, ExactSum, RoundsHalfAway, DraftLineSound, InRange;
    ProperDraftMeans(p);
  }

  lemma {:induction false} EachWithinSum(amounts: seq<nat>)
    ensures forall k :: 0 <= k < |amounts| ==> amounts[k] <= ExactSum(amounts)
  {
    if amounts != [] {
      EachWithinSum(amounts[..|amounts| - 1]);
    }
  }

  /** The draft as the browser's texts say it: the texts of each line read in thousandths and in
      hundredths. */
  ghost predicate ReadsAs(texts: seq<DraftInputLine>, lines: seq<DraftLineIn>) {
    && |texts| == |lines|
    && forall k :: 0 <= k < |texts| ==>
         && FixedPoint(texts[k].quantity, 9, 3) == Some(lines[k].mills)
         && FixedPoint(texts[k].unitPrice, 12, 2) == Some(lines[k].price)
  }

  lemma PreviewRounds(texts: seq<DraftInputLine>, lines: seq<DraftLineIn>)
    requires ReadsAs(texts, lines) && forall k :: 0 <= k < |texts| ==> ReadableLine(texts[k])
    ensures IsRounded(lines, LineCents(texts))
    ensures forall k :: 0 <= k < |lines| ==> 0 < lines[k].mills < 1000000000000 && lines[k].price < 100000000000000
  {
    hide FixedPoint, RoundsHalfAway;
    var cents := LineCents(texts);
    forall k | 0 <= k < |lines|
      ensures RoundsHalfAway(lines[k].mills * lines[k].price, 1000, cents[k])
      ensures 0 < lines[k].mills < 1000000000000 && lines[k].price < 100000000000000
    {
      assert ReadableLine(texts[k]);
      LineWithinForm(texts[k].quantity, texts[k].unitPrice);
      ThreeRoundingsAgree(lines[k].mills, lines[k].price, cents[k]);
    }
  }

  lemma LineWithinForm(quantity: string, unitPrice: string)
    ensures FixedPoint(quantity, 9, 3).Some? ==> FixedPoint(quantity, 9, 3).value < 1000000000000
    ensures FixedPoint(unitPrice, 12, 2).Some? ==> FixedPoint(unitPrice, 12, 2).value < 100000000000000
  {
    hide FixedPoint;
    if FixedPoint(quantity, 9, 3).Some? {
      FixedPointBound(quantity, 9, 3);
    }
    if FixedPoint(unitPrice, 12, 2).Some? {
      FixedPointBound(unitPrice, 12, 2);
    }
    Powers();
    assert Pow10(14) == 100000000000000 by { assert Pow10(13) == 10 * Pow10(12); }
  }

  /** The total the browser previews is the total the server stores, line by line and in sum,
      for every draft that can be previewed and is then accepted. */
  lemma PreviewIsDraftTotal(db: Db, ctx: Context, p: DraftIn, id: Id, texts: seq<DraftInputLine>)
    requires NewDraft(db, p.requestId) && id !in db.drafts
    requires ReadsAs(texts, p.lines) && forall k :: 0 <= k < |texts| ==> ReadableLine(texts[k])
    ensures CreateDraft(db, ctx, p, id).Done? ==>
              var d := CreateDraft(db, ctx, p, id).db;
              && id in d.drafts && d.drafts[id].total == ExactSum(LineCents(texts))
              && |d.draftLines| == |db.draftLines| + |texts|
              && forall k :: 0 <= k < |texts| ==> d.draftLines[|db.draftLines| + k].total == LineCents(texts)[k]
    ensures CreateDraft(db, ctx, p, id).Done? <==>
            && 1 <= |p.customerName| <= 180 && 1 <= |texts| <= 100
            && (forall k :: 0 <= k < |texts| ==> 1 <= |p.lines[k].service| <= 180)
            && CreateDrafts in ctx.orgPermissions && db.currency == "SAR"
            && ExactSum(LineCents(texts)) <= 999999999999999999
  {
    hide FixedPoint, RoundsHalfAway, ExactSum, CreateDraft, ReadableLine, NewDraft, LineCents;
    PreviewRounds(texts, p.lines);
    DraftsExactly(db, ctx, p, id, LineCents(texts));
  }

  // ---------------------------------------------------------------- declarations

  ghost predicate NewDeclaration(db: Db, requestId: Id) {
    forall i :: 0 <= i < |db.profiles| ==> db.profiles[i].requestId != requestId
  }

  /** A fresh declaration is taken exactly from a caller who manages tax, for today or later and
      after every earlier declaration, and is stored last, as requested. */
  lemma DeclaresExactly(db: Db, ctx: Context, p: ProfileIn, id: Id)
    requires NewDeclaration(db, p.requestId) && forall i :: 0 <= i < |db.profiles| ==> db.profiles[i].id != id
    ensures CreateProfile(db, ctx, p, id) ==
            if ManageTax !in ctx.orgPermissions then Refused(Forbidden)
            else if && db.today <= p.effectiveFrom
                    && forall i :: 0 <= i < |db.profiles| ==> db.profiles[i].from < p.effectiveFrom
            then
              var profile := Profile(id, p.requestId, ProfileDigest(p), p.effectiveFrom, p.status, ctx.user);
              Done(db.(profiles := db.profiles + [profile]), id)
            else Refused(Conflict)
  {
  }

  lemma DeclarationsReplay(db: Db, ctx: Context, p: ProfileIn, i: nat, newId: Id)
    requires ProfilesSound(db) && i < |db.profiles| && db.profiles[i].requestId == p.requestId
    ensures CreateProfile(db, ctx, p, newId) ==
            if ManageTax !in ctx.orgPermissions then Refused(Forbidden)
            else if db.profiles[i].digest != ProfileDigest(p) then Refused(Conflict)
            else Done(db, db.profiles[i].id)
  {
  }

  /** A stored declaration that is effective on the day, none later. */
  ghost predicate InForce(db: Db, x: Profile, day: Day) {
    && x in db.profiles && x.from <= day
    && forall i :: 0 <= i < |db.profiles| && db.profiles[i].from <= day ==> db.profiles[i].from <= x.from
  }

  lemma InForceMeans(db: Db, x: Profile, day: Day)
    requires ProfilesSound(db)
    ensures InForce(db, x, day) <==> ProfileOn(db.profiles, day) == Some(x)
  {
    hide ProfileOn;
    ProfileOnIsLatest(db.profiles, day);
  }

  // ---------------------------------------------------------------- assessments

  ghost predicate NewAssessment(db: Db, requestId: Id) {
    forall a :: a in db.assessments ==> db.assessments[a].requestId != requestId
  }

  /** A draft that tax can be assessed on: sealed, in SAR, with a positive total of at most
      8695652173913043.47. */
  ghost predicate Taxable(db: Db, draft: Id) {
    && draft in db.drafts && db.drafts[draft].status == Sealed
    && db.drafts[draft].currency == "SAR" && db.currency == "SAR"
    && 0 < db.drafts[draft].total <= 869565217391304347
  }

  /** A fresh assessment is taken exactly with a basis of 1 to 500, from a caller who manages tax and
      reads tax and drafts, on a taxable draft, under a declaration in force that says registered;
      it is stored with the draft's total, the tax of 15 hundredths rounded half up and their sum. */
  lemma AssessesExactly(db: Db, ctx: Context, p: AssessmentIn, id: Id)
    requires Sound(db) && Settled(db) && NewAssessment(db, p.requestId) && id !in db.assessments
    ensures Assess(db, ctx, p, id).Done? <==>
            && 1 <= |p.basis| <= 500
            && ManageTax in ctx.orgPermissions && ReadTax in ctx.orgPermissions && ReadDrafts in ctx.orgPermissions
            && Taxable(db, p.draft)
            && exists x :: InForce(db, x, p.day) && x.status == Registered
    ensures Assess(db, ctx, p, id).Refused? ==>
              Assess(db, ctx, p, id).error ==
              if !(1 <= |p.basis| <= 500) then Invalid
              else if !({ManageTax, ReadTax, ReadDrafts} <= ctx.orgPermissions) then Forbidden
              else if p.draft !in db.drafts then NotFound
              else Conflict
  {
    hide Sound, Settled, Vat.StandardVat, Vat.Minor, PrintedTotals, DraftLinesOf, InForce, ProfileOn, DraftsSound,
         DraftSettled;
    assert Vat.MAX_TAXABLE == 869565217391304347;
    SoundBilling(db);
    if ProfileOn(db.profiles, p.day).Some? {
      InForceMeans(db, ProfileOn(db.profiles, p.day).value, p.day);
    }
    forall x | InForce(db, x, p.day)
      ensures ProfileOn(db.profiles, p.day) == Some(x)
    {
      InForceMeans(db, x, p.day);
    }
    if p.draft in db.drafts {
      SettledDraft(db, p.draft);
      VatOfDraft(db, p.draft);
    }
  }

  lemma SoundBilling(db: Db)
    requires Sound(db)
    ensures DraftsSound(db) && ProfilesSound(db) && AssessmentsSound(db)
  {
  }

  lemma SettledDraft(db: Db, draft: Id)
    requires Settled(db) && draft in db.drafts
    ensures DraftSettled(db, draft)
  {
    hide DraftSettled;
  }

  lemma AssessmentStores(db: Db, ctx: Context, p: AssessmentIn, id: Id, x: Profile, tax: int)
    requires Sound(db) && Settled(db) && NewAssessment(db, p.requestId) && Assess(db, ctx, p, id).Done?
    requires InForce(db, x, p.day) && p.draft in db.drafts && RoundsHalfAway(15 * db.drafts[p.draft].total, 100, tax)
    ensures Assess(db, ctx, p, id) ==
            var net := db.drafts[p.draft].total;
            Done(db.(assessments := db.assessments[id :=
                   Assessment(p.requestId, AssessmentDigest(p), p.draft, x.id, p.day, p.basis, net, tax, net + tax,
                              ctx.user)]), id)
  {
    hide Sound, Settled, Vat.StandardVat, Vat.Minor, PrintedTotals, DraftLinesOf, InForce, ProfileOn, DraftsSound,
         DraftSettled, RoundsHalfAway, AssessmentAllowed;
    SoundBilling(db);
    SettledDraft(db, p.draft);
    InForceMeans(db, x, p.day);
    VatOfDraft(db, p.draft);
    Vat.TaxRoundsHalfUp(db.drafts[p.draft].total, tax);
  }

  lemma AssessmentsReplay(db: Db, ctx: Context, p: AssessmentIn, a: Id, newId: Id)
    requires AssessmentsSound(db) && a in db.assessments && db.assessments[a].requestId == p.requestId
    ensures Assess(db, ctx, p, newId) ==
            if !(1 <= |p.basis| <= 500) then Refused(Invalid)
            else if !({ManageTax, ReadTax, ReadDrafts} <= ctx.orgPermissions) then Refused(Forbidden)
            else if db.assessments[a].digest != AssessmentDigest(p) then Refused(Conflict)
            else Done(db, a)
  {
    hide AssessmentSound;
  }

  // ---------------------------------------------------------------- charges

  ghost predicate Usable(db: Db, account: Id, kind: AccountType) {
    account in db.accounts && db.accounts[account].kind == kind && db.accounts[account].active
      && db.accounts[account].postable
  }

  /** The draft is stored and not charged yet; the charge is dated as the assessment and not later
      than today, under the declaration the assessment was made on, still in force and registered;
      the sealed SAR draft still has the assessed positive total. */
  ghost predicate InOrder(db: Db, c: ChargeIn, a: Assessment) {
    && a.draft in db.drafts && (forall x :: x in db.charges ==> db.charges[x].draft != a.draft)
    && c.bookingDate == a.day && c.bookingDate <= db.today
    && (exists x :: InForce(db, x, c.bookingDate) && x.id == a.profile && x.status == Registered)
    && db.drafts[a.draft].status == Sealed && db.drafts[a.draft].currency == "SAR" && db.currency == "SAR"
    && 0 < db.drafts[a.draft].total == a.net
  }

  /** The assessment and the customer are stored, the sources are in order and the three accounts
      can be used. */
  ghost predicate Chargeable(db: Db, c: ChargeIn) {
    && c.assessment in db.assessments && c.customer in db.customers
    && InOrder(db, c, db.assessments[c.assessment])
    && Usable(db, c.receivable, Asset) && Usable(db, c.revenue, Revenue) && Usable(db, c.tax, Liability)
  }

  ghost predicate SourceMissing(db: Db, c: ChargeIn) {
    || c.assessment !in db.assessments || c.customer !in db.customers
    || db.assessments[c.assessment].draft !in db.drafts
  }

  /** The first unusable account is missing. */
  ghost predicate AccountMissing(db: Db, c: ChargeIn) {
    if !Usable(db, c.receivable, Asset) then c.receivable !in db.accounts
    else if !Usable(db, c.revenue, Revenue) then c.revenue !in db.accounts
    else c.tax !in db.accounts
  }

  lemma MappingsExactly(db: Db, c: ChargeIn)
    ensures MappingsError(db, Mappings(c)).None? <==>
            Usable(db, c.receivable, Asset) && Usable(db, c.revenue, Revenue) && Usable(db, c.tax, Liability)
    ensures MappingsError(db, Mappings(c)).None? ==> !AccountMissing(db, c)
    ensures MappingsError(db, Mappings(c)).Some? ==>
              MappingsError(db, Mappings(c)) == Some(if AccountMissing(db, c) then NotFound else Conflict)
  {
    var m := Mappings(c);
    assert m[..2][..1] == m[..1] && m[..1][..0] == m[..0];
    assert MappingsError(db, m[..1]) == MappingError(db, c.receivable, Asset);
    assert MappingsError(db, m[..2]) ==
           (if MappingError(db, c.receivable, Asset).Some? then MappingError(db, c.receivable, Asset)
            else MappingError(db, c.revenue, Revenue));
  }

  lemma CheckedIsChargeable(db: Db, c: ChargeIn)
    requires ProfilesSound(db)
    ensures ChargeCheck(db, c).None? <==> Chargeable(db, c)
    ensures Chargeable(db, c) ==> !SourceMissing(db, c) && !AccountMissing(db, c)
    ensures ChargeCheck(db, c).Some? ==>
              ChargeCheck(db, c) == Some(if SourceMissing(db, c) then NotFound
                                         else if !InOrder(db, c, db.assessments[c.assessment]) then Conflict
                                         else if AccountMissing(db, c) then NotFound else Conflict)
  {
    hide ProfileOn, InForce, MappingsError, Usable, ProfilesSound, AccountMissing;
    MappingsExactly(db, c);
    if ProfileOn(db.profiles, c.bookingDate).Some? {
      InForceMeans(db, ProfileOn(db.profiles, c.bookingDate).value, c.bookingDate);
    }
    forall x | InForce(db, x, c.bookingDate)
      ensures ProfileOn(db.profiles, c.bookingDate) == Some(x)
    {
      InForceMeans(db, x, c.bookingDate);
    }
  }

  /** A fresh approval is taken exactly with a basis of 1 to 500, from a caller with the seven
      rights, when its sources are in order and its date is free; the first reason against it is
      reported, and nothing fails half way through. */
  lemma ApprovesExactly(db: Db, ctx: Context, c: ChargeIn, id: Id, chargeId: Id)
    requires ServiceInv(db) && NewRequest(db, c.requestId) && id !in db.entries && chargeId !in db.charges
    ensures Approve(db, ctx, c, id, chargeId).Done? <==>
            && 1 <= |c.basis| <= 500
            && {ApproveCharges, ReadCharges, ReadDrafts, ReadTax, ReadCustomers, ReadAccounts, PostJournals}
               <= ctx.orgPermissions
            && Chargeable(db, c) && FreeDate(db, c.bookingDate)
    ensures Approve(db, ctx, c, id, chargeId).Refused? ==>
              Approve(db, ctx, c, id, chargeId).error ==
              if !(1 <= |c.basis| <= 500) then Invalid
              else if !(CHARGE_PERMISSIONS <= ctx.orgPermissions) then Forbidden
              else if SourceMissing(db, c) then NotFound
              else if InOrder(db, c, db.assessments[c.assessment]) && AccountMissing(db, c)
              then NotFound
              else Conflict
  {
    hide ServiceInv, Sound, Settled, Approve, ChargeCheck, FreeDate, NewRequest, RequestTaken, InClosedPeriod,
         OnOrBeforeCutover, ProfilesSound, DraftsSound, AssessmentsSound, InOrder, AccountMissing, Chargeable,
         SourceMissing;
    NewRequestMeans(db, c.requestId);
    FreeDateMeans(db, c.bookingDate);
    ServiceIsSound(db);
    SoundBilling(db);
    CheckedIsChargeable(db, c);
    ApprovesInSteps(db, ctx, c, id, chargeId);
  }

  lemma ApprovesInSteps(db: Db, ctx: Context, c: ChargeIn, id: Id, chargeId: Id)
    requires ServiceInv(db) && !RequestTaken(db, c.requestId) && id !in db.entries && chargeId !in db.charges
    ensures var r := Approve(db, ctx, c, id, chargeId);
            if !(1 <= |c.basis| <= 500) then r == Refused(Invalid)
            else if !(CHARGE_PERMISSIONS <= ctx.orgPermissions) then r == Refused(Forbidden)
            else if ChargeCheck(db, c).Some? then r == Refused(ChargeCheck(db, c).value)
            else if InClosedPeriod(db, c.bookingDate) || OnOrBeforeCutover(db, c.bookingDate)
              then r == Refused(Conflict)
            else r.Done?
  {
    hide Sound, Settled, EntryGood, ChargeCheck, WriteCheck, InClosedPeriod, OnOrBeforeCutover, ValidJournal,
         ChargeLines, AddJournal, RequestTaken;
    ChargedRequestsTaken(db);
    if ChargeCheck(db, c).None? {
      ChargeWritesUnlessDated(db, c);
      ChargeJournalValid(db, c);
    }
  }

  /** An approval under a stored request is answered with its charge if it is the same approval, and
      refused otherwise: another operation's request is never adopted. */
  lemma ApprovesAgain(db: Db, ctx: Context, c: ChargeIn, j: Id, id: Id, chargeId: Id)
    requires ServiceInv(db) && j in db.entries && db.entries[j].requestId == c.requestId
    requires 1 <= |c.basis| <= 500 && CHARGE_PERMISSIONS <= ctx.orgPermissions
    ensures Approve(db, ctx, c, id, chargeId).Done? <==>
            exists x :: x in db.charges && db.charges[x].journalId == j && db.charges[x].digest == ChargeDigest(c)
    ensures var charged := exists x :: x in db.charges && db.charges[x].journalId == j;
            var access := Authorize(db, ctx, PostJournals, db.entries[j].branch, false);
            Approve(db, ctx, c, id, chargeId).Refused? ==>
              Approve(db, ctx, c, id, chargeId).error == if !charged && access.Some? then access.value else Conflict
    ensures Approve(db, ctx, c, id, chargeId).Done? ==>
              && Approve(db, ctx, c, id, chargeId).db == db && Approve(db, ctx, c, id, chargeId).id in db.charges
              && db.charges[Approve(db, ctx, c, id, chargeId).id].journalId == j
  {
    hide Sound, Settled, EntryGood, Existing, ValidJournal, WriteEntry, Authorize, ChargeCheck, ChargeLines,
         ChargeSound;
    SoundEntries(db);
    SoundCharges(db);
    ExistingFinds(db, ctx, j, ChargeDigest(c));
    ChargeRequestIsItsJournals(db, c, j);
    ChargesAndJournals(db, j);
  }

  /** A charge carries its journal's request. */
  lemma ChargesAndJournals(db: Db, j: Id)
    requires Sound(db) && j in db.entries
    ensures forall x :: x in db.charges && db.charges[x].journalId == j ==>
              db.charges[x].requestId == db.entries[j].requestId
  {
    hide CodesSound, ChartSound, EntriesSound, LinesSound, PeriodsSound, OpeningSound, ProfilesSound, DraftsSound,
         AssessmentsSound, HasLine, LinesOf, HasReversal;
    forall x | x in db.charges && db.charges[x].journalId == j
      ensures db.charges[x].requestId == db.entries[j].requestId
    {
      assert ChargeSound(db, db.charges[x]);
    }
  }

  lemma ServiceIsSound(db: Db)
    requires ServiceInv(db)
    ensures Sound(db) && Settled(db)
  {
    hide Sound, Settled;
  }

  /** It is stored as a journal that debits the receivable with the gross amount and credits the
      revenue with the net and, if there is tax, the tax account with it, on the approval's own
      date and request; and as a charge row that names its sources, that journal and the caller. */
  lemma ChargeStores(db: Db, ctx: Context, c: ChargeIn, id: Id, chargeId: Id, lines: seq<LineIn>)
    requires Approve(db, ctx, c, id, chargeId).Done? && NewRequest(db, c.requestId)
    requires forall x :: x in db.charges ==> db.charges[x].requestId != c.requestId
    requires c.assessment in db.assessments
    requires var a := db.assessments[c.assessment];
             lines == [LineIn(c.receivable, a.gross, 0, None), LineIn(c.revenue, 0, a.net, None)]
                      + if a.tax > 0 then [LineIn(c.tax, 0, a.tax, None)] else []
    ensures var d, a := Approve(db, ctx, c, id, chargeId).db, db.assessments[c.assessment];
            && Approve(db, ctx, c, id, chargeId).id == chargeId && chargeId !in db.charges
            && Adds(db, d, id, Entry(None, c.requestId, ChargeDigest(c), c.bookingDate, "Internal service charge",
                                     "SAR", Posted, None, ctx.user, Some(ctx.at)), lines)
            && d == db.(entries := d.entries, lines := d.lines,
                        charges := db.charges[chargeId :=
                          Charge(c.requestId, ChargeDigest(c), a.draft, c.assessment, c.customer, id,
                                 c.receivable, c.revenue, c.tax, c.bookingDate, c.basis, ctx.user)])
  {
    hide ValidJournal, ChargeCheck, AddJournal, InClosedPeriod, OnOrBeforeCutover;
    NewRequestMeans(db, c.requestId);
    assert ChargeCheck(db, c).None?;
    CheckHasAssessment(db, c);
    var a := db.assessments[c.assessment];
    assert ChargeLines(c, a) == lines;
    AddJournalAdds(db, id, NewEntry(db, ctx, ChargeJournal(c, a), ChargeDigest(c), None), lines);
  }

  /** The two layers meet: after the charge's journal is written, guard_service_charge accepts the
      charge row exactly when the service's sources are in order and row and request are new. */
  lemma ChargeGuardExactly(db: Db, ctx: Context, c: ChargeIn, id: Id, chargeId: Id)
    requires Sound(db) && id !in db.entries && c.assessment in db.assessments
    ensures var a := db.assessments[c.assessment];
            var entry := NewEntry(db, ctx, ChargeJournal(c, a), ChargeDigest(c), None);
            ChargeAllowed(AddJournal(db, id, entry, ChargeLines(c, a)), chargeId, ChargeRow(ctx, c, a.draft, id)) <==>
            && Chargeable(db, c) && chargeId !in db.charges
            && forall x :: x in db.charges ==> db.charges[x].requestId != c.requestId
  {
    hide Sound, LinesOf, ChargeLines, ProfileOn, ProfilesSound, AssessmentsSound, InForce, HasReversal, HasLine;
    var a := db.assessments[c.assessment];
    var entry := NewEntry(db, ctx, ChargeJournal(c, a), ChargeDigest(c), None);
    SoundBilling(db);
    RegisteredExactly(db, c.bookingDate, a.profile);
    NewJournalUnused(db, id);
    if db.currency == "SAR" {
      NewJournalReconciles(db, ctx, c, id);
    }
  }

  lemma NewJournalReconciles(db: Db, ctx: Context, c: ChargeIn, id: Id)
    requires Sound(db) && id !in db.entries && c.assessment in db.assessments && db.currency == "SAR"
    ensures var a := db.assessments[c.assessment];
            var entry := NewEntry(db, ctx, ChargeJournal(c, a), ChargeDigest(c), None);
            var added := AddJournal(db, id, entry, ChargeLines(c, a));
            JournalReconciles(added, ChargeRow(ctx, c, a.draft, id))
  {
    hide Sound, LinesOf, ChargeLines, HasReversal;
    var a := db.assessments[c.assessment];
    var entry := NewEntry(db, ctx, ChargeJournal(c, a), ChargeDigest(c), None);
    var added := AddJournal(db, id, entry, ChargeLines(c, a));
    SoundLines(db);
    NewJournalUnused(db, id);
    AddedLines(db, id, entry, ChargeLines(c, a), id);
    ChargeLinesFound(id, c, a);
    NoReversalYet(db, added, id, entry);
  }

  lemma RegisteredExactly(db: Db, day: Day, profile: Id)
    requires ProfilesSound(db)
    ensures RegisteredUnder(db, day, profile) <==>
            exists x :: InForce(db, x, day) && x.id == profile && x.status == Registered
  {
    hide ProfileOn, InForce, ProfilesSound;
    if ProfileOn(db.profiles, day).Some? {
      InForceMeans(db, ProfileOn(db.profiles, day).value, day);
    }
    forall x | InForce(db, x, day)
      ensures ProfileOn(db.profiles, day) == Some(x)
    {
      InForceMeans(db, x, day);
    }
  }

  /** The same for an assessment of the draft's total under some declaration. */
  lemma AssessmentGuardExactly(db: Db, ctx: Context, p: AssessmentIn, profile: Id, id: Id)
    requires Sound(db) && p.draft in db.drafts && db.drafts[p.draft].total >= 0
    ensures AssessmentAllowed(db, id, AssessmentRow(ctx, p, profile, db.drafts[p.draft].total)) <==>
            && Taxable(db, p.draft) && id !in db.assessments && NewAssessment(db, p.requestId)
            && exists x :: InForce(db, x, p.day) && x.id == profile && x.status == Registered
  {
    hide Sound, ProfileOn, InForce, DraftsSound, ProfilesSound, AssessmentsSound, RoundsHalfAway, RegisteredUnder;
    var net := db.drafts[p.draft].total;
    SoundBilling(db);
    RegisteredExactly(db, p.day, profile);
    Vat.TaxRoundsHalfUp(net, Vat.Tax(net));
    assert Vat.MAX_TAXABLE == 869565217391304347 && Vat.Gross(Vat.MAX_TAXABLE) == Vat.MAX_MINOR;
    Vat.GrossStrictlyIncreases(Vat.MAX_TAXABLE, net);
  }

  lemma CheckHasAssessment(db: Db, c: ChargeIn)
    requires ChargeCheck(db, c).None?
    ensures c.assessment in db.assessments && db.currency == "SAR"
  {
    hide MappingsError, ProfileOn;
  }
}
