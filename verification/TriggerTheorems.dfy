/** The ledger's promises, for every history of row writes by anyone: balanced and immutable
    journals, frozen closed periods, the opening cutover, the account forest, and the
    reconciliation of drafts, assessments, charges and journals. */
module TriggerTheorems {
  import opened Base
  import opened Rounding
  import opened Tables
  import opened Triggers
  import opened TriggerProofs

  // ---------------------------------------------------------------- journals

  /** Whatever is written from an empty database, every committed journal is posted, has at
      least two lines, and its debits equal its credits and are positive. */
  lemma JournalsAlwaysBalance(organizationId: Id, currency: string, today: Day, events: seq<Event>, id: Id)
    requires id in History(EmptyDb(organizationId, currency, today), events).entries
    ensures var db := History(EmptyDb(organizationId, currency, today), events);
            && db.entries[id].status == Posted
            && |LinesOf(db.lines, id)| >= 2
            && DebitSum(LinesOf(db.lines, id)) == CreditSum(LinesOf(db.lines, id)) > 0
  {
    hide Sound, Extends, LinesOf, DebitSum, CreditSum, History;
    EmptySound(organizationId, currency, today);
    HistoryKeeps(EmptyDb(organizationId, currency, today), events);
    assert EntrySettled(History(EmptyDb(organizationId, currency, today), events), id);
  }

  /** A committed journal and its lines are the same in every later state. */
  lemma CommittedJournalNeverChanges(db: Db, events: seq<Event>, id: Id)
    requires Sound(db) && Settled(db) && id in db.entries
    ensures var later := History(db, events);
            && id in later.entries && later.entries[id] == db.entries[id]
            && LinesOf(later.lines, id) == LinesOf(db.lines, id)
  {
    hide Sound, LinesOf, History, ChartExtends, PeriodsExtend, BillingExtends;
    HistoryKeeps(db, events);
    assert EntrySettled(db, id);
    PostedLinesKept(db, History(db, events), id);
  }

  // ---------------------------------------------------------------- closed periods

  function Contribution(db: Db, row: LineRow, account: Id, from: Day, to: Day): int {
    if row.line.account == account && PostedIn(db, row.entryId) && from <= db.entries[row.entryId].bookingDate <= to
    then row.line.debit - row.line.credit
    else 0
  }

  function NetOver(db: Db, rows: seq<LineRow>, account: Id, from: Day, to: Day): int {
    if rows == [] then 0
    else NetOver(db, rows[..|rows| - 1], account, from, to) + Contribution(db, rows[|rows| - 1], account, from, to)
  }

  /** Debits less credits of one account over the posted journals dated from..to. */
  function Net(db: Db, account: Id, from: Day, to: Day): int { NetOver(db, db.lines, account, from, to) }

  lemma ContributionFrozen(db: Db, later: Db, row: LineRow, account: Id, from: Day, to: Day)
    requires JournalExtends(db, later)
    requires forall day :: from <= day <= to ==> InClosedPeriod(db, day)
    ensures Contribution(later, row, account, from, to) == Contribution(db, row, account, from, to)
  {
    hide InClosedPeriod, ChargedJournal, HasReversal;
    if PostedIn(later, row.entryId) && !PostedIn(db, row.entryId) {
      assert NewlyPostable(db, later.entries[row.entryId]);
    }
  }

  lemma {:induction false} NetOverFrozen(db: Db, later: Db, rows: seq<LineRow>, account: Id, from: Day, to: Day)
    requires JournalExtends(db, later)
    requires forall day :: from <= day <= to ==> InClosedPeriod(db, day)
    ensures NetOver(later, rows, account, from, to) == NetOver(db, rows, account, from, to)
  {
    hide JournalExtends, InClosedPeriod, Contribution;
    if rows != [] {
      NetOverFrozen(db, later, rows[..|rows| - 1], account, from, to);
      ContributionFrozen(db, later, rows[|rows| - 1], account, from, to);
    }
  }

  lemma {:induction false} UnpostedRowsAddNothing(db: Db, kept: seq<LineRow>, more: seq<LineRow>, account: Id,
                                                  from: Day, to: Day)
    requires forall k :: 0 <= k < |more| ==> !PostedIn(db, more[k].entryId)
    ensures NetOver(db, kept + more, account, from, to) == NetOver(db, kept, account, from, to)
  {
    if more == [] {
      assert kept + more == kept;
    } else {
      assert (kept + more)[..|kept + more| - 1] == kept + more[..|more| - 1];
      UnpostedRowsAddNothing(db, kept, more[..|more| - 1], account, from, to);
    }
  }

  /** Periods are disjoint in every state; once one is closed it stays exactly as it is, the
      posted journals dated inside it are the same ones for ever, and so is the net of every
      account over any stretch of it. */
  lemma ClosedPeriodIsFrozen(db: Db, events: seq<Event>, p: Id, account: Id, from: Day, to: Day)
    requires Sound(db) && Settled(db)
    requires p in db.periods && db.periods[p].status == Closed
    requires db.periods[p].start <= from && to <= db.periods[p].end
    ensures var later := History(db, events);
            && PeriodsSound(later)
            && p in later.periods && later.periods[p] == db.periods[p]
            && (forall id :: PostedIn(later, id) && from <= later.entries[id].bookingDate <= to <==>
                  PostedIn(db, id) && from <= db.entries[id].bookingDate <= to)
            && Net(later, account, from, to) == Net(db, account, from, to)
  {
    hide Sound, Settled, History, ChartExtends, BillingExtends, NetOver, ChargedJournal, HasReversal;
    var later := History(db, events);
    HistoryKeeps(db, events);
    SoundPeriods(later);
    forall day | from <= day <= to
      ensures InClosedPeriod(db, day)
    {
    }
    var more := later.lines[|db.lines|..];
    assert later.lines == db.lines + more;
    NetOverFrozen(db, later, later.lines, account, from, to);
    forall k | 0 <= k < |more|
      ensures !PostedIn(db, more[k].entryId)
    {
      assert more[k] == later.lines[|db.lines| + k];
    }
    UnpostedRowsAddNothing(db, db.lines, more, account, from, to);
  }

  /** In every state that accepted transactions lead to, a period ends no earlier than it starts,
      it is closed exactly when its closing time and its closer are known, and two periods share
      no day. */
  lemma PeriodsAlwaysInOrder(organizationId: Id, currency: string, today: Day, events: seq<Event>, p: Id, q: Id)
    requires p in History(EmptyDb(organizationId, currency, today), events).periods
    requires q in History(EmptyDb(organizationId, currency, today), events).periods
    ensures var periods := History(EmptyDb(organizationId, currency, today), events).periods;
            && periods[p].start <= periods[p].end
            && (periods[p].status == Closed <==> periods[p].closedAt != None)
            && (periods[p].status == Closed <==> periods[p].closedBy != None)
            && (p != q ==> periods[p].end < periods[q].start || periods[q].end < periods[p].start)
  {
    hide Sound, Settled, History, Extends;
    EmptySound(organizationId, currency, today);
    HistoryKeeps(EmptyDb(organizationId, currency, today), events);
    SoundPeriods(History(EmptyDb(organizationId, currency, today), events));
  }

  /** An UPDATE may close an open period, seal a draft, and rename an account or switch it on and
      off; it changes nothing else of the row, and of other rows nothing. */
  lemma UpdatesExactly(db: Db, id: Id, period: Period, draft: ServiceDraft, account: Account)
    requires PeriodsSound(db)
    ensures id in db.periods ==>
              WriteRow(db, UpdatePeriod(id, period)) ==
              if && db.periods[id].status == Open && period.closedAt.Some? && period.closedBy.Some?
                 && period == Period(db.periods[id].start, db.periods[id].end, Closed, period.closedAt, period.closedBy)
              then Some(db.(periods := db.periods[id := period])) else None
    ensures id in db.drafts ==>
              WriteRow(db, UpdateDraft(id, draft)) ==
              var was := db.drafts[id];
              if && was.status == Building
                 && draft == ServiceDraft(was.requestId, was.digest, was.customerName, was.total, was.currency, Sealed,
                                          was.createdBy)
              then Some(db.(drafts := db.drafts[id := draft])) else None
    ensures id in db.accounts ==>
              WriteRow(db, UpdateAccount(id, account)) ==
              var was := db.accounts[id];
              if && account == Account(account.code, was.kind, was.parent, was.postable, account.active, was.created)
                 && forall other :: other in db.accounts && other != id ==> db.accounts[other].code != account.code
              then Some(db.(accounts := db.accounts[id := account])) else None
  {
    assert id in db.periods ==> PeriodConsistent(db.periods[id]);
  }

  lemma SoundPeriods(db: Db)
    requires Sound(db)
    ensures PeriodsSound(db)
  {
  }

  // ---------------------------------------------------------------- opening cutover

  lemma SoundOpening(db: Db)
    requires Sound(db)
    ensures OpeningSound(db)
  {
  }

  /** Once an opening exists it is the same in every later state, the posted journals dated on
      or before it are exactly its one journal, and nobody comes to reverse that journal. */
  lemma CutoverIsExact(db: Db, events: seq<Event>, id: Id)
    requires Sound(db) && Settled(db) && db.opening.Some?
    ensures var later := History(db, events);
            && later.opening == db.opening
            && (PostedIn(later, id) && later.entries[id].bookingDate <= db.opening.value.bookingDate
                <==> id == db.opening.value.journalId)
            && (HasReversal(later, db.opening.value.journalId) <==> HasReversal(db, db.opening.value.journalId))
  {
    hide Sound, Settled, History, ChartExtends, PeriodsExtend, BillingExtends, JournalExtends, HasReversal;
    HistoryKeeps(db, events);
    SoundOpening(History(db, events));
    ReversedByPosted(db);
    ReversalsOfOpening(db, History(db, events));
  }

  /** A posted journal reverses journal j. */
  ghost predicate PostedReversal(db: Db, j: Id) {
    exists id :: PostedIn(db, id) && db.entries[id].reversalOf == Some(j)
  }

  /** Between transactions every journal is posted. */
  lemma ReversedByPosted(db: Db)
    requires Settled(db)
    ensures forall j :: HasReversal(db, j) <==> PostedReversal(db, j)
  {
    forall j
      ensures HasReversal(db, j) <==> PostedReversal(db, j)
    {
      if HasReversal(db, j) {
        var id :| id in db.entries && db.entries[id].reversalOf == Some(j);
        assert EntrySettled(db, id);
      }
    }
  }

  lemma ReversalsOfOpening(db: Db, later: Db)
    requires db.opening.Some? && JournalExtends(db, later) && Settled(later)
    ensures HasReversal(later, db.opening.value.journalId) <==> PostedReversal(db, db.opening.value.journalId)
  {
    hide ChargedJournal, InClosedPeriod, OnOrBeforeCutover, LinesOf, Settled;
    var j := db.opening.value.journalId;
    ReversedByPosted(later);
    if PostedReversal(later, j) {
      var id :| PostedIn(later, id) && later.entries[id].reversalOf == Some(j);
      assert PostedIn(db, id);
    }
    if PostedReversal(db, j) {
      var id :| PostedIn(db, id) && db.entries[id].reversalOf == Some(j);
      assert later.entries[id] == db.entries[id];
    }
  }

  lemma {:induction false} ScriptExtends(tx: Tx, ops: seq<Op>)
    requires Sound(tx.db) && ExecuteAll(tx, ops).Some?
    ensures Sound(ExecuteAll(tx, ops).value.db) && Extends(tx.db, ExecuteAll(tx, ops).value.db)
  {
    hide Sound, Extends, WriteRow, JournalsTouched, DraftsTouched;
    if ops == [] {
      ExtendsReflexive(tx.db);
    } else {
      var front, op := ops[..|ops| - 1], ops[|ops| - 1];
      ScriptExtends(tx, front);
      var mid := ExecuteAll(tx, front).value;
      KeepsSound(mid.db, op);
      WriteExtends(mid.db, op);
      ExtendsTransitive(tx.db, mid.db, WriteRow(mid.db, op).value);
    }
  }

  /** The triggers reject every reversal of an opening's journal, but guard_opening_balance_batch
      does not ask whether the journal is already reversed. Whatever is written before and after
      in its transaction and in any later one, an opening ends up reversed exactly when, at the
      row write that declares it, a posted journal reverses its journal. */
  lemma OpeningReversedOnlyBefore(db: Db, before: seq<Op>, o: Opening, after: seq<Op>, events: seq<Event>)
    requires Sound(db) && Settled(db)
    requires ExecuteAll(Begin(db), before).Some?
    requires Execute(ExecuteAll(Begin(db), before).value, InsertOpening(o)).Some?
    requires ExecuteAll(Execute(ExecuteAll(Begin(db), before).value, InsertOpening(o)).value, after).Some?
    requires Committable(ExecuteAll(Execute(ExecuteAll(Begin(db), before).value, InsertOpening(o)).value, after).value)
    ensures var declaring := ExecuteAll(Begin(db), before).value;
            var committed := ExecuteAll(Execute(declaring, InsertOpening(o)).value, after).value.db;
            HasReversal(History(committed, events), o.journalId) <==> PostedReversal(declaring.db, o.journalId)
  {
    hide Sound, Settled, Extends, ExecuteAll, WriteRow, History, Committable, HasReversal, PostedReversal,
         UntouchedCommitted;
    var declaring := ExecuteAll(Begin(db), before).value;
    var open := Execute(declaring, InsertOpening(o)).value;
    var end := ExecuteAll(open, after).value;
    TransactionKeeps(db, before);
    OtherInsertEffects(declaring.db, InsertOpening(o));
    KeepsSound(declaring.db, InsertOpening(o));
    WriteExtends(declaring.db, InsertOpening(o));
    ExecuteUntouched(db, declaring, InsertOpening(o));
    ExtendsTransitive(db, declaring.db, open.db);
    ScriptExtends(open, after);
    ScriptUntouched(db, open, after);
    ExtendsTransitive(db, open.db, end.db);
    CommitSettles(db, end);
    HistoryKeeps(end.db, events);
    ExtendsTransitive(open.db, end.db, History(end.db, events));
    ExtendedJournals(open.db, History(end.db, events));
    ReversalsOfOpening(open.db, History(end.db, events));
    SamePostedReversals(declaring.db, open.db, o.journalId);
  }

  lemma {:induction false} ScriptUntouched(base: Db, tx: Tx, ops: seq<Op>)
    requires UntouchedCommitted(base, tx) && ExecuteAll(tx, ops).Some?
    ensures UntouchedCommitted(base, ExecuteAll(tx, ops).value)
  {
    hide UntouchedCommitted, Execute;
    if ops != [] {
      ScriptUntouched(base, tx, ops[..|ops| - 1]);
      ExecuteUntouched(base, ExecuteAll(tx, ops[..|ops| - 1]).value, ops[|ops| - 1]);
    }
  }

  lemma ExtendedJournals(db: Db, later: Db)
    requires Extends(db, later)
    ensures JournalExtends(db, later)
  {
    hide JournalExtends, ChartExtends, PeriodsExtend, BillingExtends;
  }

  lemma SamePostedReversals(db: Db, d: Db, j: Id)
    requires d.entries == db.entries
    ensures PostedReversal(d, j) == PostedReversal(db, j)
  {
  }

  // ---------------------------------------------------------------- account forest

  /** The top of an account's tree; creation order makes the walk end. */
  ghost function Root(db: Db, a: Id): (r: Id)
    requires ChartSound(db) && a in db.accounts
    ensures r in db.accounts && db.accounts[r].parent.None?
    ensures db.accounts[r].kind == db.accounts[a].kind
    decreases db.accounts[a].created
  {
    if db.accounts[a].parent.None? then a
    else
      assert ParentSound(db, a, db.accounts[a].parent.value);
      Root(db, db.accounts[a].parent.value)
  }

  /** n steps up the parent links. */
  ghost function Ancestor(db: Db, a: Id, n: nat): Option<Id> {
    if n == 0 then Some(a)
    else match Ancestor(db, a, n - 1)
      case None => None
      case Some(x) => if x in db.accounts then db.accounts[x].parent else None
  }

  lemma {:induction false} AncestorsAreOlder(db: Db, a: Id, n: nat)
    requires ChartSound(db) && a in db.accounts && Ancestor(db, a, n).Some?
    ensures Ancestor(db, a, n).value in db.accounts
    ensures n > 0 ==> db.accounts[Ancestor(db, a, n).value].created < db.accounts[a].created
    ensures db.accounts[Ancestor(db, a, n).value].kind == db.accounts[a].kind
  {
    if n > 0 {
      AncestorsAreOlder(db, a, n - 1);
      var x := Ancestor(db, a, n - 1).value;
      assert ParentSound(db, x, db.accounts[x].parent.value);
    }
  }

  /** In every state: no account is its own ancestor, a whole tree has one type, and an
      account that carries a journal line has no children. */
  lemma AccountsFormAForest(organizationId: Id, currency: string, today: Day, events: seq<Event>, a: Id, n: nat,
                            child: Id, k: nat)
    requires var db := History(EmptyDb(organizationId, currency, today), events);
             a in db.accounts && child in db.accounts && k < |db.lines|
    ensures var db := History(EmptyDb(organizationId, currency, today), events);
            && (n > 0 ==> Ancestor(db, a, n) != Some(a))
            && (Ancestor(db, a, n).Some? ==>
                  Ancestor(db, a, n).value in db.accounts
                    && db.accounts[Ancestor(db, a, n).value].kind == db.accounts[a].kind)
            && db.accounts[child].parent != Some(db.lines[k].line.account)
  {
    hide Sound, Settled, Extends, Ancestor, History;
    EmptySound(organizationId, currency, today);
    var db := History(EmptyDb(organizationId, currency, today), events);
    HistoryKeeps(EmptyDb(organizationId, currency, today), events);
    SoundChart(db);
    if Ancestor(db, a, n).Some? {
      AncestorsAreOlder(db, a, n);
    }
    assert LineSound(db, db.lines[k]);
    if db.accounts[child].parent.Some? {
      assert ParentSound(db, child, db.accounts[child].parent.value);
    }
  }

  lemma SoundChart(db: Db)
    requires Sound(db)
    ensures ChartSound(db) && LinesSound(db)
  {
  }

  // ---------------------------------------------------------------- billing

  lemma SoundBilling(db: Db)
    requires Sound(db)
    ensures ProfilesSound(db) && DraftsSound(db) && AssessmentsSound(db) && ChargesSound(db)
  {
  }

  /** Three rows of which the given three, pairwise different, are each one. */
  lemma ThreeRowsExactly(rows: seq<LineRow>, a: Id, b: Id, c: Id, gross: int, net: int, tax: int)
    requires |rows| == 3 && a != b && a != c && b != c
    requires HasLine(rows, a, gross, 0) && HasLine(rows, b, 0, net) && HasLine(rows, c, 0, tax)
    ensures DebitSum(rows) == gross && CreditSum(rows) == net + tax
    ensures forall k :: 0 <= k < 3 ==> rows[k].line.account in {a, b, c}
  {
    hide DebitSum, CreditSum;
    SumsOfThree(rows);
    var i :| 0 <= i < 3 && rows[i].line.account == a && rows[i].line.debit == gross && rows[i].line.credit == 0;
    var j :| 0 <= j < 3 && rows[j].line.account == b && rows[j].line.debit == 0 && rows[j].line.credit == net;
    var k :| 0 <= k < 3 && rows[k].line.account == c && rows[k].line.debit == 0 && rows[k].line.credit == tax;
    assert i != j && j != k && i != k;
  }

  lemma SumsOfThree(rows: seq<LineRow>)
    requires |rows| == 3
    ensures DebitSum(rows) == rows[0].line.debit + rows[1].line.debit + rows[2].line.debit
    ensures CreditSum(rows) == rows[0].line.credit + rows[1].line.credit + rows[2].line.credit
  {
    SumsOfTwo(rows[..2]);
  }

  lemma SumsOfTwo(rows: seq<LineRow>)
    requires |rows| == 2
    ensures DebitSum(rows) == rows[0].line.debit + rows[1].line.debit
    ensures CreditSum(rows) == rows[0].line.credit + rows[1].line.credit
  {
    assert rows[..1][..0] == [];
    assert DebitSum(rows[..1]) == rows[0].line.debit && CreditSum(rows[..1]) == rows[0].line.credit;
  }

  lemma TwoRowsExactly(rows: seq<LineRow>, a: Id, b: Id, gross: int, net: int)
    requires |rows| == 2 && a != b
    requires HasLine(rows, a, gross, 0) && HasLine(rows, b, 0, net)
    ensures DebitSum(rows) == gross && CreditSum(rows) == net
    ensures forall k :: 0 <= k < 2 ==> rows[k].line.account in {a, b}
  {
    SumsOfTwo(rows);
    var i :| 0 <= i < 2 && rows[i].line.account == a && rows[i].line.debit == gross && rows[i].line.credit == 0;
    var j :| 0 <= j < 2 && rows[j].line.account == b && rows[j].line.debit == 0 && rows[j].line.credit == net;
    assert i != j;
  }

  /** Every charge in every state: its three accounts differ, its assessment's net is the
      total of its draft's lines, and its journal debits exactly the gross to the receivable
      and credits exactly net and tax, with no other line; journal, charge and assessment agree
      on request, author and date, which is not in the future; the journal has no reversal and
      the draft no other charge. */
  lemma ChargeReconciles(db: Db, id: Id)
    requires Sound(db) && Settled(db) && id in db.charges
    ensures var c := db.charges[id];
            && c.assessment in db.assessments && c.draft in db.drafts
            && var a, rows := db.assessments[c.assessment], LinesOf(db.lines, c.journalId);
               && c.receivable != c.revenue && c.revenue != c.tax && c.receivable != c.tax
               && a.net == db.drafts[c.draft].total == LineTotals(DraftLinesOf(db.draftLines, c.draft))
               && a.gross == a.net + a.tax && RoundsHalfAway(15 * a.net, 100, a.tax)
               && DebitSum(rows) == a.gross == CreditSum(rows)
               && HasLine(rows, c.receivable, a.gross, 0) && HasLine(rows, c.revenue, 0, a.net)
               && (a.tax > 0 ==> HasLine(rows, c.tax, 0, a.tax))
               && |rows| == (if a.tax > 0 then 3 else 2)
               && !HasReversal(db, c.journalId)
               && c.journalId in db.entries
               && var j := db.entries[c.journalId];
                  && j.requestId == c.requestId && j.digest == c.digest && j.postedBy == c.createdBy
                  && j.bookingDate == c.bookingDate == a.day <= db.today
                  && j.branch.None? && j.reversalOf.None? && j.currency == "SAR"
                  && forall other :: other in db.charges && db.charges[other].draft == c.draft ==> other == id
  {
    hide Sound, LinesOf, DraftLinesOf, DebitSum, CreditSum, LineTotals, HasLine, RoundsHalfAway, HasReversal,
         ProfilesSound, DraftsSound, RegisteredProfile;
    SoundBilling(db);
    var c := db.charges[id];
    assert ChargeSound(db, c);
    var a, rows := db.assessments[c.assessment], LinesOf(db.lines, c.journalId);
    assert AssessmentSound(db, a);
    assert DraftSettled(db, c.draft);
    if a.tax > 0 {
      ThreeRowsExactly(rows, c.receivable, c.revenue, c.tax, a.gross, a.net, a.tax);
    } else {
      TwoRowsExactly(rows, c.receivable, c.revenue, a.gross, a.net);
    }
  }

  /** A charge, its journal and its amounts stay as they are in every later state, and its
      journal is never reversed. */
  lemma ChargeStandsForEver(db: Db, events: seq<Event>, id: Id)
    requires Sound(db) && Settled(db) && id in db.charges
    ensures var later, c := History(db, events), db.charges[id];
            && id in later.charges && later.charges[id] == c
            && c.journalId in later.entries && later.entries[c.journalId] == db.entries[c.journalId]
            && LinesOf(later.lines, c.journalId) == LinesOf(db.lines, c.journalId)
            && !HasReversal(later, c.journalId)
  {
    hide Sound, Settled, LinesOf, History, ChartExtends, PeriodsExtend, HasReversal, HasLine, ChargedJournal;
    SoundBilling(db);
    assert ChargeSound(db, db.charges[id]);
    var later := History(db, events);
    HistoryKeeps(db, events);
    SoundBilling(later);
    assert ChargeSound(later, later.charges[id]);
    PostedLinesKept(db, later, db.charges[id].journalId);
  }

  /** Declarations take effect in strictly increasing order, so at most one is selected; once
      the local date has passed a day, no later declaration changes the one in force on it. */
  lemma AsOfStable(db: Db, events: seq<Event>, day: Day)
    requires Sound(db) && Settled(db) && day < db.today
    ensures ProfilesSound(History(db, events))
    ensures ProfileOn(History(db, events).profiles, day) == ProfileOn(db.profiles, day)
  {
    hide Sound, Settled, History, ChartExtends, JournalExtends, PeriodsExtend, ProfilesSound, DraftsSound,
         AssessmentsSound, ChargesSound, ProfileOn;
    var later := History(db, events);
    HistoryKeeps(db, events);
    SoundBilling(later);
    var more := later.profiles[|db.profiles|..];
    assert later.profiles == db.profiles + more;
    forall i | 0 <= i < |more|
      ensures more[i].from > day
    {
      assert more[i] == later.profiles[|db.profiles| + i];
    }
    LaterProfilesInvisible(db.profiles, more, day);
  }
}
