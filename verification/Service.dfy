/** The commands as the service runs them: one database session that reads the committed rows,
    writes row by row, and commits or rolls back (accounting/service.py, accounting/routes.py,
    billing/charges.py, billing/service.py, billing/tax_assessment.py, billing/tax_profile.py). */
module Service {
  import opened Base
  import opened Tables
  import T = Triggers
  import TP = TriggerProofs
  import L = Ledger
  import opened Refinement
  import opened BillingRefinement
  import opened LedgerProofs
  import opened LedgerTheorems
  import opened DraftMoney
  import Vat

  datatype Result = Ok(id: Id) | Err(error: L.Error)

  /** A command does and returns what its description says, and a refused one changes nothing. */
  ghost predicate Performs(reply: L.Reply, before: Db, after: Db, r: Result) {
    match reply
    case Done(d, id) => after == d && r == Ok(id)
    case Refused(e) => after == before && r == Err(e)
  }

  /** The committed rows and the open transaction; nothing stands for one whose statement failed. */
  class Session {
    var db: Db
    var tx: Option<T.Tx>
    ghost var ops: seq<T.Op>

    ghost predicate Valid()
      reads this
    {
      tx == T.ExecuteAll(T.Begin(db), ops)
    }

    /** Between two commands. */
    ghost predicate Ready()
      reads this
    {
      Valid() && ops == [] && ServiceInv(db)
    }

    constructor (organizationId: Id, currency: string, today: Day)
      ensures Ready() && db == EmptyDb(organizationId, currency, today)
    {
      db := EmptyDb(organizationId, currency, today);
      tx := Some(T.Begin(EmptyDb(organizationId, currency, today)));
      ops := [];
      new;
      EmptyInv(organizationId, currency, today);
    }

    // -------------------------------------------------------------- statements

    /** One statement; after a failure the transaction accepts no other. */
    method Write(op: T.Op)
      requires Valid()
      modifies this`tx, this`ops
      ensures Valid() && ops == old(ops) + [op]
      ensures tx == (match old(tx) case None => None case Some(t) => T.Execute(t, op))
    {
      hide T.Execute;
      ExecuteAllConcat(T.Begin(db), ops, [op]);
      if tx.Some? {
        ExecuteOne(tx.value, op);
        tx := T.Execute(tx.value, op);
      }
      ops := ops + [op];
    }

    method Commit() returns (ok: bool)
      requires Valid()
      modifies this
      ensures Valid() && ops == [] && tx == Some(T.Begin(db))
      ensures ok == T.Commit(old(db), old(ops)).Some?
      ensures db == if ok then T.Commit(old(db), old(ops)).value else old(db)
    {
      hide T.Committable;
      ok := tx.Some? && T.Committable(tx.value);
      if ok {
        db := tx.value.db;
      }
      tx, ops := Some(T.Begin(db)), [];
    }

    method Rollback()
      modifies this`tx, this`ops
      ensures Valid() && ops == [] && tx == Some(T.Begin(db))
    {
      tx, ops := Some(T.Begin(db)), [];
    }

    // -------------------------------------------------------------- journals

    /** existing_request. */
    method FindRequest(ctx: L.Context, requestId: Id, digest: Digest) returns (r: L.Lookup)
      requires TP.EntriesSound(db)
      ensures r == L.Existing(db, ctx, requestId, digest)
    {
      hide L.Authorize;
      if !(exists id :: id in db.entries && db.entries[id].requestId == requestId) {
        return L.Absent;
      }
      var id :| id in db.entries && db.entries[id].requestId == requestId;
      ExistingFinds(db, ctx, id, digest);
      var denied := L.Authorize(db, ctx, L.PostJournals, db.entries[id].branch, false);
      if denied.Some? {
        return L.Denied(denied.value);
      }
      r := if db.entries[id].digest != digest then L.Denied(L.Conflict) else L.Same(id);
    }

    /** write_entry: the checks, then the DRAFT header, the numbered lines and the posting update. */
    method WriteEntry(ctx: L.Context, p: JournalIn, digest: Digest, reversalOf: Option<Id>,
                      id: Id) returns (error: Option<L.Error>)
      requires Valid()
      modifies this`tx, this`ops
      ensures Valid() && error == L.WriteCheck(db, p, reversalOf.Some?)
      ensures ops == if error.Some? then old(ops)
              else old(ops) + JournalScript(id, L.NewEntry(db, ctx, p, digest, reversalOf), p.lines)
    {
      hide L.WriteCheck, T.ExecuteAll;
      error := L.WriteCheck(db, p, reversalOf.Some?);
      if error.Some? {
        return;
      }
      var entry := L.NewEntry(db, ctx, p, digest, reversalOf);
      Write(T.InsertEntry(id, Unposted(entry)));
      ghost var header, body := ops, LineOps(L.Numbered(id, p.lines));
      for n := 0 to |p.lines|
        invariant Valid() && ops == header + body[..n]
      {
        Write(T.InsertLine(LineRow(id, n + 1, p.lines[n])));
        assert body[..n + 1] == body[..n] + [body[n]];
      }
      assert body[..|p.lines|] == body;
      Write(T.UpdateEntry(id, entry));
      assert ops == old(ops) + JournalScript(id, entry, p.lines);
    }

    /** post_journal. */
    method PostJournal(ctx: L.Context, p: JournalIn, id: Id) returns (r: Result)
      requires Ready()
      modifies this
      ensures Ready() && Performs(L.Post(old(db), ctx, p, id), old(db), db, r)
    {
      hide ServiceInv, L.ValidJournal, L.Authorize, L.WriteCheck, T.ExecuteAll, T.Commit, JournalScript;
      if !L.ValidJournal(p) {
        return Err(L.Invalid);
      }
      var denied := L.Authorize(db, ctx, L.PostJournals, p.branch, true);
      if denied.Some? {
        return Err(denied.value);
      }
      InvEntries(db);
      var found := FindRequest(ctx, p.requestId, PostDigest(p));
      match found {
        case Denied(e) => return Err(e);
        case Same(prior) => return Ok(prior);
        case Absent =>
      }
      var error := WriteEntry(ctx, p, PostDigest(p), None, id);
      if error.Some? {
        return Err(error.value);
      }
      WrittenJournal(db, ctx, p, PostDigest(p), None, id);
      StepKeeps(db, L.DoPost(ctx, p, id));
      assert ops == JournalScript(id, L.NewEntry(db, ctx, p, PostDigest(p), None), p.lines);
      var ok := Commit();
      r := if ok then Ok(id) else Err(L.Internal);
    }

    /** reverse_journal. */
    method ReverseJournal(ctx: L.Context, entryId: Id, p: ReversalIn, id: Id) returns (r: Result)
      requires Ready()
      modifies this
      ensures Ready() && Performs(L.Reverse(old(db), ctx, entryId, p, id), old(db), db, r)
    {
      hide ServiceInv, L.ValidJournal, L.Authorize, L.WriteCheck, T.ExecuteAll, T.Commit, JournalScript,
           L.Irreversible, LinesOf, L.Swapped;
      if !(1 <= |p.reason| <= L.MAX_TEXT) {
        return Err(L.Invalid);
      }
      if entryId !in db.entries {
        return Err(L.NotFound);
      }
      var branch := db.entries[entryId].branch;
      var denied := L.Authorize(db, ctx, L.ReverseJournals, branch, false);
      if denied.None? {
        denied := L.Authorize(db, ctx, L.PostJournals, branch, false);
      }
      if denied.Some? {
        return Err(denied.value);
      }
      InvEntries(db);
      var found := FindRequest(ctx, p.requestId, ReverseDigest(entryId, p));
      match found {
        case Denied(e) => return Err(e);
        case Same(prior) => return Ok(prior);
        case Absent =>
      }
      if L.Irreversible(db, entryId) {
        return Err(L.Conflict);
      }
      var reversal := L.ReversalPayload(db, entryId, p);
      if !L.ValidJournal(reversal) {
        return Err(L.Internal);
      }
      var error := WriteEntry(ctx, reversal, ReverseDigest(entryId, p), Some(entryId), id);
      if error.Some? {
        return Err(error.value);
      }
      WrittenJournal(db, ctx, reversal, ReverseDigest(entryId, p), Some(entryId), id);
      StepKeeps(db, L.DoReverse(ctx, entryId, p, id));
      assert ops == JournalScript(id, L.NewEntry(db, ctx, reversal, ReverseDigest(entryId, p), Some(entryId)),
                                  reversal.lines);
      var ok := Commit();
      r := if ok then Ok(id) else Err(L.Internal);
    }

    /** post_initial_opening. */
    method PostInitialOpening(ctx: L.Context, p: JournalIn, id: Id, batchId: Id) returns (r: Result)
      requires Ready()
      modifies this
      ensures Ready() && Performs(L.PostOpening(old(db), ctx, p, id, batchId), old(db), db, r)
    {
      hide ServiceInv, L.ValidJournal, L.Authorize, L.WriteCheck, T.ExecuteAll, T.Execute, T.Commit, JournalScript,
           L.AddJournal, L.Existing, TP.EntriesSound;
      var journal := L.OpeningJournal(p);
      if !L.ValidJournal(journal) {
        return Err(L.Invalid);
      }
      if L.ManageOpening !in ctx.orgPermissions || L.PostJournals !in ctx.orgPermissions {
        return Err(L.Forbidden);
      }
      InvEntries(db);
      var digest := OpeningDigest(PostDigest(journal));
      var found := FindRequest(ctx, p.requestId, digest);
      match found {
        case Denied(e) => return Err(e);
        case Same(prior) =>
          return if db.opening.Some? && db.opening.value.journalId == prior then Ok(prior) else Err(L.Conflict);
        case Absent =>
      }
      if db.opening.Some? {
        return Err(L.Conflict);
      }
      if exists e :: e in db.entries && db.entries[e].status == Posted && db.entries[e].bookingDate <= p.bookingDate {
        return Err(L.Conflict);
      }
      var error := WriteEntry(ctx, journal, digest, None, id);
      if error.Some? {
        return Err(error.value);
      }
      Write(T.InsertOpening(OpeningRow(ctx, p, id, batchId)));
      OpeningEnds(db, ctx, p, id, batchId);
      StepKeeps(db, L.DoOpen(ctx, p, id, batchId));
      assert ops == JournalScript(id, L.NewEntry(db, ctx, journal, digest, None),
                                  journal.lines) + [T.InsertOpening(OpeningRow(ctx, p, id, batchId))];
      var ok := Commit();
      r := if ok then Ok(id) else Err(L.Internal);
    }

    // -------------------------------------------------------------- charges

    /** The loop over approve_charge's account mapping. */
    method CheckMappings(c: ChargeIn) returns (error: Option<L.Error>)
      ensures error == L.MappingsError(db, L.Mappings(c))
    {
      hide L.MappingError;
      var mappings := L.Mappings(c);
      for k := 0 to |mappings|
        invariant L.MappingsError(db, mappings[..k]).None?
      {
        assert mappings[..k + 1][..k] == mappings[..k];
        error := L.MappingError(db, mappings[k].0, mappings[k].1);
        if error.Some? {
          FirstMappingDecides(db, mappings, k);
          return;
        }
      }
      assert mappings[..|mappings|] == mappings;
      error := None;
    }

    /** approve_charge's checks between the replay lookups and the journal. */
    method CheckCharge(c: ChargeIn) returns (error: Option<L.Error>)
      ensures error == L.ChargeCheck(db, c)
    {
      hide L.MappingsError, ProfileOn;
      if c.assessment !in db.assessments {
        return Some(L.NotFound);
      }
      var a := db.assessments[c.assessment];
      if a.draft !in db.drafts || c.customer !in db.customers {
        return Some(L.NotFound);
      }
      if exists x :: x in db.charges && db.charges[x].draft == a.draft {
        return Some(L.Conflict);
      }
      var draft, profile := db.drafts[a.draft], ProfileOn(db.profiles, c.bookingDate);
      if c.bookingDate != a.day || c.bookingDate > db.today
         || profile.None? || profile.value.id != a.profile || profile.value.status != Registered
         || draft.status != Sealed || draft.currency != "SAR" || db.currency != "SAR"
         || draft.total <= 0 || draft.total != a.net {
        return Some(L.Conflict);
      }
      error := CheckMappings(c);
    }

    /** The charge's journal, of two or three lines, and the charge itself. */
    method WriteCharge(ctx: L.Context, c: ChargeIn, id: Id, chargeId: Id) returns (error: Option<L.Error>)
      requires Valid() && c.assessment in db.assessments
      modifies this`tx, this`ops
      ensures Valid()
      ensures var a := db.assessments[c.assessment];
              var p := L.ChargeJournal(c, a);
              && error == (if !L.ValidJournal(p) then Some(L.Internal) else L.WriteCheck(db, p, false))
              && ops == (if error.Some? then old(ops)
                         else old(ops) + (JournalScript(id, L.NewEntry(db, ctx, p, ChargeDigest(c), None), p.lines)
                                          + [T.InsertCharge(chargeId, L.ChargeRow(ctx, c, a.draft, id))]))
    {
      hide L.ValidJournal, L.WriteCheck, T.ExecuteAll, T.Execute, JournalScript;
      var a := db.assessments[c.assessment];
      var lines := [LineIn(c.receivable, a.gross, 0, None), LineIn(c.revenue, 0, a.net, None)];
      if a.tax > 0 {
        lines := lines + [LineIn(c.tax, 0, a.tax, None)];
      }
      assert lines == L.ChargeLines(c, a);
      var journal := JournalIn(c.requestId, None, c.bookingDate, "Internal service charge", lines);
      if !L.ValidJournal(journal) {
        return Some(L.Internal);
      }
      error := WriteEntry(ctx, journal, ChargeDigest(c), None, id);
      if error.None? {
        Write(T.InsertCharge(chargeId, L.ChargeRow(ctx, c, a.draft, id)));
      }
    }

    /** The charge of a request, if there is one; request ids are unique. */
    method FindCharge(requestId: Id) returns (r: Option<Id>)
      ensures r.None? <==> forall x :: x in db.charges ==> db.charges[x].requestId != requestId
      ensures r.Some? ==> r.value in db.charges && db.charges[r.value].requestId == requestId
    {
      if exists x :: x in db.charges && db.charges[x].requestId == requestId {
        var x :| x in db.charges && db.charges[x].requestId == requestId;
        return Some(x);
      }
      r := None;
    }

    /** approve_charge: source, assessment, customer, journal and charge in one transaction. */
    method ApproveCharge(ctx: L.Context, c: ChargeIn, id: Id, chargeId: Id) returns (r: Result)
      requires Ready()
      modifies this
      ensures Ready() && Performs(L.Approve(old(db), ctx, c, id, chargeId), old(db), db, r)
    {
      hide ServiceInv, L.ValidJournal, L.Authorize, L.WriteCheck, T.ExecuteAll, T.Execute, T.Commit, JournalScript,
           L.AddJournal, L.ChargeCheck, L.Existing, L.ChargeLines, TP.EntriesSound, TP.ChargesSound, L.NewEntry,
           L.Approve, L.RequestTaken, L.Mappings;
      InvEntries(db);
      InvCharges(db);
      ApproveRefusals(db, ctx, c, id, chargeId);
      if !(1 <= |c.basis| <= L.MAX_TEXT) {
        return Err(L.Invalid);
      }
      if !(L.CHARGE_PERMISSIONS <= ctx.orgPermissions) {
        return Err(L.Forbidden);
      }
      var previous := FindCharge(c.requestId);
      if previous.Some? {
        ApproveReplays(db, ctx, c, id, chargeId, previous.value);
        return if db.charges[previous.value].digest != ChargeDigest(c) then Err(L.Conflict) else Ok(previous.value);
      }
      var found := FindRequest(ctx, c.requestId, ChargeDigest(c));
      match found {
        case Denied(e) => return Err(e);
        case Same(_) => return Err(L.Conflict);
        case Absent =>
      }
      var error := CheckCharge(c);
      if error.Some? {
        return Err(error.value);
      }
      ChargeEnds(db, ctx, c, id, chargeId);
      error := WriteCharge(ctx, c, id, chargeId);
      if error.Some? {
        return Err(error.value);
      }
      StepKeeps(db, L.DoApprove(ctx, c, id, chargeId));
      ghost var a, journal := db.assessments[c.assessment], L.ChargeJournal(c, db.assessments[c.assessment]);
      assert ops == JournalScript(id, L.NewEntry(db, ctx, journal, ChargeDigest(c), None), journal.lines)
                    + [T.InsertCharge(chargeId, L.ChargeRow(ctx, c, a.draft, id))];
      var ok := Commit();
      r := if ok then Ok(chargeId) else Err(L.Internal);
    }

    // -------------------------------------------------------------- chart and periods

    /** create_account; a constraint that fails on flush is answered as a conflict. */
    method CreateAccount(ctx: L.Context, p: L.AccountIn, id: Id) returns (r: Result)
      requires Ready()
      modifies this
      ensures Ready() && Performs(L.CreateAccount(old(db), ctx, p, id), old(db), db, r)
    {
      hide ServiceInv, T.ExecuteAll, T.Commit, T.Execute;
      if !L.ValidCode(p.code) {
        return Err(L.Invalid);
      }
      if L.ManageAccounts !in ctx.orgPermissions {
        return Err(L.Forbidden);
      }
      if p.parent.Some? {
        if p.parent.value !in db.accounts {
          return Err(L.NotFound);
        }
        var parent := db.accounts[p.parent.value];
        if parent.postable || !parent.active || parent.kind != p.kind {
          return Err(L.Conflict);
        }
      }
      AccountEnds(db, ctx, p, id);
      StepKeeps(db, L.DoCreateAccount(ctx, p, id));
      Write(T.InsertAccount(id, Account(p.code, p.kind, p.parent, p.postable, true, 0)));
      if tx.None? {
        Rollback();
        return Err(L.Conflict);
      }
      assert ops == [T.InsertAccount(id, Account(p.code, p.kind, p.parent, p.postable, true, 0))];
      var ok := Commit();
      r := if ok then Ok(id) else Err(L.Conflict);
    }

    method CreatePeriod(ctx: L.Context, start: Day, end: Day, id: Id) returns (r: Result)
      requires Ready()
      modifies this
      ensures Ready() && Performs(L.CreatePeriod(old(db), ctx, start, end, id), old(db), db, r)
    {
      hide ServiceInv, T.ExecuteAll, T.Commit;
      if end < start {
        return Err(L.Invalid);
      }
      if L.ManagePeriods !in ctx.orgPermissions {
        return Err(L.Forbidden);
      }
      if exists p :: p in db.periods && db.periods[p].start <= end && db.periods[p].end >= start {
        return Err(L.Conflict);
      }
      Write(T.InsertPeriod(id, Period(start, end, Open, None, None)));
      PeriodEnds(db, ctx, start, end, id);
      StepKeeps(db, L.DoCreatePeriod(ctx, start, end, id));
      assert ops == [T.InsertPeriod(id, Period(start, end, Open, None, None))];
      var ok := Commit();
      r := if ok then Ok(id) else Err(L.Internal);
    }

    method ClosePeriod(ctx: L.Context, id: Id) returns (r: Result)
      requires Ready()
      modifies this
      ensures Ready() && Performs(L.ClosePeriod(old(db), ctx, id), old(db), db, r)
    {
      hide ServiceInv, T.ExecuteAll, T.Commit;
      if L.ManagePeriods !in ctx.orgPermissions {
        return Err(L.Forbidden);
      }
      if id !in db.periods {
        return Err(L.NotFound);
      }
      var period := db.periods[id];
      if period.status != Open {
        return Err(L.Conflict);
      }
      period := period.(status := Closed, closedAt := Some(ctx.at), closedBy := Some(ctx.user));
      Write(T.UpdatePeriod(id, period));
      ClosingEnds(db, ctx, id);
      StepKeeps(db, L.DoClosePeriod(ctx, id));
      assert ops == [T.UpdatePeriod(id, period)];
      var ok := Commit();
      r := if ok then Ok(id) else Err(L.Internal);
    }

    // -------------------------------------------------------------- billing

    /** A BUILDING header, one row per line, then the sealing update. */
    method WriteDraft(id: Id, draft: ServiceDraft, lines: seq<DraftLineIn>, amounts: seq<nat>)
      requires Valid() && |amounts| == |lines|
      modifies this`tx, this`ops
      ensures Valid() && ops == old(ops) + DraftScript(id, draft, L.DraftRows(id, lines, amounts))
    {
      hide T.ExecuteAll, T.Execute;
      Write(T.InsertDraft(id, draft.(status := Building)));
      ghost var header, rows := ops, L.DraftRows(id, lines, amounts);
      for k := 0 to |lines|
        invariant Valid() && ops == header + DraftOps(rows)[..k]
      {
        Write(T.InsertDraftLine(DraftLineRow(id, k + 1, lines[k].service, lines[k].mills, lines[k].price, amounts[k])));
        assert DraftOps(rows)[..k + 1] == DraftOps(rows)[..k] + [DraftOps(rows)[k]];
      }
      assert DraftOps(rows)[..|lines|] == DraftOps(rows);
      Write(T.UpdateDraft(id, draft));
    }

    /** create_draft. */
    method CreateDraft(ctx: L.Context, p: DraftIn, id: Id) returns (r: Result)
      requires Ready()
      modifies this
      ensures Ready() && Performs(L.CreateDraft(old(db), ctx, p, id), old(db), db, r)
    {
      hide ServiceInv, T.ExecuteAll, T.Commit, T.Execute, L.Amounts, DecimalSum, L.DraftRows, DraftScript,
           TP.DraftLineSound, TP.PeriodsSound, TP.ProfilesSound, TP.AssessmentsSound, L.ValidDraft;
      if !L.ValidDraft(p) {
        return Err(L.Invalid);
      }
      if L.CreateDrafts !in ctx.orgPermissions {
        return Err(L.Forbidden);
      }
      if db.currency != "SAR" {
        return Err(L.Conflict);
      }
      InvDrafts(db);
      if exists d :: d in db.drafts && db.drafts[d].requestId == p.requestId {
        var d :| d in db.drafts && db.drafts[d].requestId == p.requestId;
        return if db.drafts[d].digest != DraftDigest(p) then Err(L.Conflict) else Ok(d);
      }
      var computed := L.Amounts(p.lines);
      if computed.None? || DecimalSum(computed.value).exp != -2 || |computed.value| != |p.lines| {
        return Err(L.Internal);
      }
      var amounts, total := computed.value, DecimalSum(computed.value).coeff;
      if total > MAX_AMOUNT || exists k :: 0 <= k < |amounts| && amounts[k] > MAX_AMOUNT {
        return Err(L.Conflict);
      }
      var draft := L.DraftRow(ctx, p, total);
      WriteDraft(id, draft, p.lines, amounts);
      DraftEnds(db, ctx, p, id);
      StepKeeps(db, L.DoCreateDraft(ctx, p, id));
      assert ops == DraftScript(id, draft, L.DraftRows(id, p.lines, amounts));
      var ok := Commit();
      r := if ok then Ok(id) else Err(L.Internal);
    }

    method CreateProfile(ctx: L.Context, p: ProfileIn, id: Id) returns (r: Result)
      requires Ready()
      modifies this
      ensures Ready() && Performs(L.CreateProfile(old(db), ctx, p, id), old(db), db, r)
    {
      hide ServiceInv, T.ExecuteAll, T.Execute, T.Commit, TP.DraftsSound, TP.PeriodsSound, TP.AssessmentsSound;
      if L.ManageTax !in ctx.orgPermissions {
        return Err(L.Forbidden);
      }
      InvDrafts(db);
      if exists i :: 0 <= i < |db.profiles| && db.profiles[i].requestId == p.requestId {
        var i :| 0 <= i < |db.profiles| && db.profiles[i].requestId == p.requestId;
        return if db.profiles[i].digest != ProfileDigest(p) then Err(L.Conflict) else Ok(db.profiles[i].id);
      }
      if p.effectiveFrom < db.today || exists i :: 0 <= i < |db.profiles| && p.effectiveFrom <= db.profiles[i].from {
        return Err(L.Conflict);
      }
      var profile := Profile(id, p.requestId, ProfileDigest(p), p.effectiveFrom, p.status, ctx.user);
      Write(T.InsertProfile(profile));
      ProfileEnds(db, ctx, p, id);
      StepKeeps(db, L.DoCreateProfile(ctx, p, id));
      assert ops == [T.InsertProfile(profile)];
      var ok := Commit();
      r := if ok then Ok(id) else Err(L.Internal);
    }

    method CreateAssessment(ctx: L.Context, p: AssessmentIn, id: Id) returns (r: Result)
      requires Ready()
      modifies this
      ensures Ready() && Performs(L.Assess(old(db), ctx, p, id), old(db), db, r)
    {
      hide ServiceInv, T.ExecuteAll, T.Execute, T.Commit, Vat.StandardVat, Vat.Minor, ProfileOn, DraftLinesOf,
           L.PrintedTotals, TP.DraftsSound, TP.PeriodsSound, TP.ProfilesSound, TP.AssessmentSound;
      if !(1 <= |p.basis| <= L.MAX_TEXT) {
        return Err(L.Invalid);
      }
      if !({L.ManageTax, L.ReadTax, L.ReadDrafts} <= ctx.orgPermissions) {
        return Err(L.Forbidden);
      }
      InvDrafts(db);
      if exists a :: a in db.assessments && db.assessments[a].requestId == p.requestId {
        var a :| a in db.assessments && db.assessments[a].requestId == p.requestId;
        return if db.assessments[a].digest != AssessmentDigest(p) then Err(L.Conflict) else Ok(a);
      }
      if p.draft !in db.drafts {
        return Err(L.NotFound);
      }
      var draft, profile := db.drafts[p.draft], ProfileOn(db.profiles, p.day);
      if profile.None? || profile.value.status != Registered || draft.status != Sealed || draft.currency != "SAR"
         || db.currency != "SAR" || draft.total <= 0 {
        return Err(L.Conflict);
      }
      var totals := Vat.StandardVat(L.PrintedTotals(DraftLinesOf(db.draftLines, p.draft)));
      if totals.None? {
        return Err(L.Conflict);
      }
      var net, tax, gross := Vat.Minor(totals.value.taxable), Vat.Minor(totals.value.tax),
        Vat.Minor(totals.value.gross);
      if net.None? || tax.None? || gross.None? {
        return Err(L.Internal);
      }
      var row := Assessment(p.requestId, AssessmentDigest(p), p.draft, profile.value.id, p.day, p.basis,
                            net.value, tax.value, gross.value, ctx.user);
      Write(T.InsertAssessment(id, row));
      AssessmentEnds(db, ctx, p, id, row);
      StepKeeps(db, L.DoAssess(ctx, p, id));
      assert ops == [T.InsertAssessment(id, row)];
      var ok := Commit();
      r := if ok then Ok(id) else Err(L.Internal);
    }
  }

  lemma InvEntries(db: Db)
    requires ServiceInv(db)
    ensures TP.EntriesSound(db)
  {
    hide EntryGood, TP.Settled, TP.Sound;
    SoundEntries(db);
  }

  // ---------------------------------------------------------------- how a transaction ends

  /** A statement that fails first fails the whole transaction. */
  lemma FirstFails(db: Db, op: T.Op, rest: seq<T.Op>)
    requires T.WriteRow(db, op).None?
    ensures T.Commit(db, [op] + rest).None?
  {
    hide T.WriteRow, T.Committable;
    ExecuteAllConcat(T.Begin(db), [op], rest);
    ExecuteOne(T.Begin(db), op);
  }

  lemma CollisionFails(db: Db, id: Id, entry: Entry, lines: seq<LineIn>, more: seq<T.Op>)
    requires id in db.entries
    ensures T.Commit(db, JournalScript(id, entry, lines) + more).None?
  {
    hide T.Commit, L.Numbered;
    var rest := LineOps(L.Numbered(id, lines)) + [T.UpdateEntry(id, entry)] + more;
    FirstFails(db, T.InsertEntry(id, Unposted(entry)), rest);
    assert JournalScript(id, entry, lines) + more == [T.InsertEntry(id, Unposted(entry))] + rest;
  }

  /** The rows write_entry wrote commit exactly as it is described. */
  lemma WrittenJournal(db: Db, ctx: L.Context, p: JournalIn, digest: Digest, reversalOf: Option<Id>, id: Id)
    requires ServiceInv(db) && L.ValidJournal(p) && !L.RequestTaken(db, p.requestId)
    requires reversalOf.Some? ==> reversalOf.value in db.entries && !L.Irreversible(db, reversalOf.value)
    requires L.WriteCheck(db, p, reversalOf.Some?).None?
    ensures T.Commit(db, JournalScript(id, L.NewEntry(db, ctx, p, digest, reversalOf), p.lines)) ==
            (match L.WriteEntry(db, ctx, p, digest, reversalOf, id)
             case Done(after, _) => Some(after)
             case Refused(_) => None)
  {
    hide TP.Sound, TP.Settled, EntryGood, L.ValidJournal, L.RequestTaken, L.Irreversible, L.WriteCheck, T.Commit,
         JournalScript, L.AddJournal, ReadyToWrite;
    var entry := L.NewEntry(db, ctx, p, digest, reversalOf);
    if id in db.entries {
      CollisionFails(db, id, entry, p.lines, []);
      assert JournalScript(id, entry, p.lines) + [] == JournalScript(id, entry, p.lines);
    } else {
      CheckedIsReady(db, ctx, p, digest, reversalOf, id);
      SoundLines(db);
      JournalAccepted(db, id, entry, p.lines);
    }
  }

  lemma InvCharges(db: Db)
    requires ServiceInv(db)
    ensures TP.ChargesSound(db)
  {
    hide EntryGood, TP.Settled, TP.Sound;
    SoundCharges(db);
  }

  lemma InvDrafts(db: Db)
    requires ServiceInv(db)
    ensures TP.DraftsSound(db) && TP.PeriodsSound(db) && TP.ProfilesSound(db) && TP.AssessmentsSound(db)
  {
    hide EntryGood, TP.Settled, TP.ChartSound, TP.EntriesSound, TP.LinesSound, TP.OpeningSound, TP.ChargesSound,
         TP.DraftsSound, TP.PeriodsSound, TP.ProfilesSound, TP.AssessmentsSound;
  }

  lemma OpeningEnds(db: Db, ctx: L.Context, q: JournalIn, id: Id, batchId: Id)
    requires ServiceInv(db) && L.ValidJournal(L.OpeningJournal(q))
    requires L.ManageOpening in ctx.orgPermissions && L.PostJournals in ctx.orgPermissions
    requires L.Existing(db, ctx, q.requestId, OpeningDigest(PostDigest(L.OpeningJournal(q)))).Absent?
    requires db.opening.None?
    requires forall e :: e in db.entries && db.entries[e].status == Posted ==> db.entries[e].bookingDate > q.bookingDate
    requires L.WriteCheck(db, L.OpeningJournal(q), false).None?
    ensures var p := L.OpeningJournal(q);
            T.Commit(db, JournalScript(id, L.NewEntry(db, ctx, p, OpeningDigest(PostDigest(p)), None), p.lines)
                         + [T.InsertOpening(OpeningRow(ctx, q, id, batchId))])
            == (match L.PostOpening(db, ctx, q, id, batchId) case Done(after, _) => Some(after) case Refused(_) => None)
  {
    hide TP.Sound, TP.Settled, EntryGood, L.ValidJournal, L.WriteCheck, T.Commit, JournalScript, L.Numbered;
    var p := L.OpeningJournal(q);
    if id in db.entries {
      CollisionFails(db, id, L.NewEntry(db, ctx, p, OpeningDigest(PostDigest(p)), None), p.lines,
                     [T.InsertOpening(OpeningRow(ctx, q, id, batchId))]);
    } else {
      JournalRefines(db, L.DoOpen(ctx, q, id, batchId));
    }
  }

  lemma FirstMappingDecides(db: Db, mappings: seq<(Id, AccountType)>, k: nat)
    requires k < |mappings| && L.MappingsError(db, mappings[..k]).None?
    requires L.MappingError(db, mappings[k].0, mappings[k].1).Some?
    ensures L.MappingsError(db, mappings) == L.MappingError(db, mappings[k].0, mappings[k].1)
  {
    hide L.MappingError;
    assert mappings[..k + 1][..k] == mappings[..k];
    ErrorStays(db, mappings, k + 1);
  }

  lemma {:induction false} ErrorStays(db: Db, mappings: seq<(Id, AccountType)>, k: nat)
    requires k <= |mappings| && L.MappingsError(db, mappings[..k]).Some?
    ensures L.MappingsError(db, mappings) == L.MappingsError(db, mappings[..k])
  {
    hide L.MappingError;
    if k == |mappings| {
      assert mappings[..k] == mappings;
    } else {
      assert mappings[..|mappings| - 1][..k] == mappings[..k];
      ErrorStays(db, mappings[..|mappings| - 1], k);
    }
  }

  lemma ChargeEnds(db: Db, ctx: L.Context, c: ChargeIn, id: Id, chargeId: Id)
    requires ServiceInv(db) && 1 <= |c.basis| <= L.MAX_TEXT && L.CHARGE_PERMISSIONS <= ctx.orgPermissions
    requires forall x :: x in db.charges ==> db.charges[x].requestId != c.requestId
    requires L.Existing(db, ctx, c.requestId, ChargeDigest(c)).Absent? && L.ChargeCheck(db, c).None?
    ensures c.assessment in db.assessments
    ensures var a := db.assessments[c.assessment];
            var p := L.ChargeJournal(c, a);
            L.ValidJournal(p) && L.WriteCheck(db, p, false).None? ==>
              var committed := T.Commit(db, JournalScript(id, L.NewEntry(db, ctx, p, ChargeDigest(c), None), p.lines)
                                            + [T.InsertCharge(chargeId, L.ChargeRow(ctx, c, a.draft, id))]);
              match L.Approve(db, ctx, c, id, chargeId)
              case Done(after, answer) => committed == Some(after) && answer == chargeId
              case Refused(e) => committed == None && e == L.Internal
  {
    hide TP.Sound, TP.Settled, EntryGood, L.ValidJournal, L.WriteCheck, T.Commit, JournalScript, L.ChargeLines,
         L.ChargeCheck, L.AddJournal;
    ChargeCheckFindsAssessment(db, c);
    var a := db.assessments[c.assessment];
    var p := L.ChargeJournal(c, a);
    var entry, op := L.NewEntry(db, ctx, p, ChargeDigest(c), None),
      T.InsertCharge(chargeId, L.ChargeRow(ctx, c, a.draft, id));
    if L.ValidJournal(p) && L.WriteCheck(db, p, false).None? {
      if id in db.entries {
        CollisionFails(db, id, entry, p.lines, [op]);
      } else if chargeId in db.charges {
        CheckedIsReady(db, ctx, p, ChargeDigest(c), None, id);
        SoundLines(db);
        ChargeCollisionFails(db, id, entry, p.lines, op);
      } else {
        JournalRefines(db, L.DoApprove(ctx, c, id, chargeId));
      }
    }
  }

  lemma ApproveReplays(db: Db, ctx: L.Context, c: ChargeIn, id: Id, chargeId: Id, x: Id)
    requires 1 <= |c.basis| <= L.MAX_TEXT && L.CHARGE_PERMISSIONS <= ctx.orgPermissions
    requires TP.ChargesSound(db) && x in db.charges && db.charges[x].requestId == c.requestId
    ensures L.Approve(db, ctx, c, id, chargeId) ==
            if db.charges[x].digest != ChargeDigest(c) then L.Refused(L.Conflict) else L.Done(db, x)
  {
    hide TP.ChargeSound, L.ChargeCheck, L.Existing, L.ValidJournal, L.WriteEntry, L.ChargeLines;
  }

  /** Everything that refuses an approval before its first write. */
  lemma ApproveRefusals(db: Db, ctx: L.Context, c: ChargeIn, id: Id, chargeId: Id)
    ensures var reply := L.Approve(db, ctx, c, id, chargeId);
            var found := L.Existing(db, ctx, c.requestId, ChargeDigest(c));
            if !(1 <= |c.basis| <= L.MAX_TEXT) then reply == L.Refused(L.Invalid)
            else if !(L.CHARGE_PERMISSIONS <= ctx.orgPermissions) then reply == L.Refused(L.Forbidden)
            else if exists x :: x in db.charges && db.charges[x].requestId == c.requestId then true
            else if found.Denied? then reply == L.Refused(found.error)
            else if found.Same? then reply == L.Refused(L.Conflict)
            else if L.ChargeCheck(db, c).Some? then reply == L.Refused(L.ChargeCheck(db, c).value)
            else
              && c.assessment in db.assessments
              && var p := L.ChargeJournal(c, db.assessments[c.assessment]);
                 && (!L.ValidJournal(p) ==> reply == L.Refused(L.Internal))
                 && (L.ValidJournal(p) && L.WriteCheck(db, p, false).Some? ==>
                       reply == L.Refused(L.WriteCheck(db, p, false).value))
  {
    hide L.ChargeCheck, L.Existing, L.ValidJournal, L.WriteCheck, L.ChargeLines;
    ChargeCheckFindsAssessment(db, c);
  }

  lemma ChargeCollisionFails(db: Db, id: Id, entry: Entry, lines: seq<LineIn>, op: T.Op)
    requires TP.LinesSound(db) && ReadyToWrite(db, id, entry, lines) && op.InsertCharge? && op.id in db.charges
    ensures T.Commit(db, JournalScript(id, entry, lines) + [op]).None?
  {
    hide TP.LinesSound, ReadyToWrite, T.Committable, JournalScript, T.ExecuteAll, L.Numbered;
    JournalAccepted(db, id, entry, lines);
    ExecuteAllConcat(T.Begin(db), JournalScript(id, entry, lines), [op]);
    ExecuteOne(T.Tx(L.AddJournal(db, id, entry, lines), {id}, {}), op);
  }

  lemma AccountEnds(db: Db, ctx: L.Context, p: L.AccountIn, id: Id)
    requires L.ValidCode(p.code) && L.ManageAccounts in ctx.orgPermissions
    requires p.parent.Some? ==>
               && p.parent.value in db.accounts
               && !db.accounts[p.parent.value].postable && db.accounts[p.parent.value].active
               && db.accounts[p.parent.value].kind == p.kind
    ensures var op := T.InsertAccount(id, Account(p.code, p.kind, p.parent, p.postable, true, 0));
            var committed := T.Commit(db, [op]);
            && (T.Execute(T.Begin(db), op).None? <==> committed.None?)
            && match L.CreateAccount(db, ctx, p, id)
               case Done(after, answer) => committed == Some(after) && answer == id
               case Refused(e) => committed == None && e == L.Conflict
  {
    var op := T.InsertAccount(id, Account(p.code, p.kind, p.parent, p.postable, true, 0));
    if T.WriteRow(db, op).None? {
      FirstFails(db, op, []);
      assert [op] + [] == [op];
    } else {
      SingleRow(db, op, T.WriteRow(db, op).value);
    }
  }

  lemma PeriodEnds(db: Db, ctx: L.Context, start: Day, end: Day, id: Id)
    requires start <= end && L.ManagePeriods in ctx.orgPermissions
    requires forall p :: p in db.periods ==> db.periods[p].start > end || db.periods[p].end < start
    ensures T.Commit(db, [T.InsertPeriod(id, Period(start, end, Open, None, None))])
            == (match L.CreatePeriod(db, ctx, start, end, id)
                case Done(after, _) => Some(after)
                case Refused(_) => None)
  {
    var op := T.InsertPeriod(id, Period(start, end, Open, None, None));
    if id in db.periods {
      FirstFails(db, op, []);
      assert [op] + [] == [op];
    } else {
      SingleRow(db, op, T.WriteRow(db, op).value);
    }
  }

  lemma ClosingEnds(db: Db, ctx: L.Context, id: Id)
    requires ServiceInv(db) && L.ManagePeriods in ctx.orgPermissions && id in db.periods
    requires db.periods[id].status == Open
    ensures var closed := db.periods[id].(status := Closed, closedAt := Some(ctx.at), closedBy := Some(ctx.user));
            T.Commit(db, [T.UpdatePeriod(id, closed)]) == Some(L.ClosePeriod(db, ctx, id).db)
  {
    hide ServiceInv, T.Commit;
    InvDrafts(db);
    var closed := db.periods[id].(status := Closed, closedAt := Some(ctx.at), closedBy := Some(ctx.user));
    SingleRow(db, T.UpdatePeriod(id, closed), L.ClosePeriod(db, ctx, id).db);
  }

  lemma DraftEnds(db: Db, ctx: L.Context, p: DraftIn, id: Id)
    requires ServiceInv(db) && L.ValidDraft(p) && L.CreateDrafts in ctx.orgPermissions && db.currency == "SAR"
    requires forall d :: d in db.drafts ==> db.drafts[d].requestId != p.requestId
    requires L.Amounts(p.lines).Some? && |L.Amounts(p.lines).value| == |p.lines|
    requires var amounts := L.Amounts(p.lines).value;
             && DecimalSum(amounts).exp == -2 && DecimalSum(amounts).coeff <= MAX_AMOUNT
             && forall k :: 0 <= k < |amounts| ==> amounts[k] <= MAX_AMOUNT
    ensures var amounts := L.Amounts(p.lines).value;
            var draft := L.DraftRow(ctx, p, DecimalSum(amounts).coeff);
            T.Commit(db, DraftScript(id, draft, L.DraftRows(id, p.lines, amounts)))
            == (match L.CreateDraft(db, ctx, p, id) case Done(after, _) => Some(after) case Refused(_) => None)
  {
    hide TP.Sound, TP.Settled, EntryGood, T.Commit, L.Amounts, DecimalSum, ReadyToDraft, AddDraft, L.DraftRows;
    var amounts := L.Amounts(p.lines).value;
    var draft, rows := L.DraftRow(ctx, p, DecimalSum(amounts).coeff), L.DraftRows(id, p.lines, amounts);
    if id in db.drafts {
      var rest := DraftOps(rows) + [T.UpdateDraft(id, draft)];
      FirstFails(db, T.InsertDraft(id, draft.(status := Building)), rest);
      assert DraftScript(id, draft, rows) == [T.InsertDraft(id, draft.(status := Building))] + rest;
    } else {
      InvDrafts(db);
      AmountsAreRounded(p.lines);
      DecimalSumExact(amounts);
      DraftWrites(db, ctx, p, id);
      DraftAccepted(db, id, draft, rows);
    }
  }

  lemma ProfileEnds(db: Db, ctx: L.Context, p: ProfileIn, id: Id)
    requires L.ManageTax in ctx.orgPermissions && p.effectiveFrom >= db.today
    requires forall i :: 0 <= i < |db.profiles| ==>
               db.profiles[i].requestId != p.requestId && db.profiles[i].from < p.effectiveFrom
    ensures var profile := Profile(id, p.requestId, ProfileDigest(p), p.effectiveFrom, p.status, ctx.user);
            T.Commit(db, [T.InsertProfile(profile)])
            == (match L.CreateProfile(db, ctx, p, id) case Done(after, _) => Some(after) case Refused(_) => None)
  {
    hide T.Commit;
    var op := T.InsertProfile(Profile(id, p.requestId, ProfileDigest(p), p.effectiveFrom, p.status, ctx.user));
    if L.CreateProfile(db, ctx, p, id).Refused? {
      FirstFails(db, op, []);
      assert [op] + [] == [op];
    } else {
      SingleRow(db, op, L.CreateProfile(db, ctx, p, id).db);
    }
  }

  /** The computed row commits unless its id collides. */
  lemma AssessmentEnds(db: Db, ctx: L.Context, p: AssessmentIn, id: Id, row: Assessment)
    requires ServiceInv(db)
    requires L.Assess(db, ctx, p, id) ==
             if id in db.assessments then L.Refused(L.Internal)
               else L.Done(db.(assessments := db.assessments[id := row]), id)
    ensures T.Commit(db, [T.InsertAssessment(id, row)])
            == (match L.Assess(db, ctx, p, id) case Done(after, _) => Some(after) case Refused(_) => None)
  {
    hide TP.Sound, EntryGood, T.Commit, L.Assess, T.DraftSettled;
    var op := T.InsertAssessment(id, row);
    if id in db.assessments {
      FirstFails(db, op, []);
      assert [op] + [] == [op];
    } else {
      InvDrafts(db);
      AssessWrites(db, ctx, p, id);
      assert db.assessments[id := row][id] == row;
      SingleRow(db, op, L.Assess(db, ctx, p, id).db);
    }
  }
}
