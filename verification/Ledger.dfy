/** The service's commands on one organization. Each runs under the organization row lock, so
    each is one atomic step: a function from the rows before to the rows after and a reply. */
module Ledger {
  import opened Base
  import opened Tables
  import opened DraftMoney
  import opened DecimalText
  import Vat

  // ---------------------------------------------------------------- callers and replies

  datatype Permission =
    | ManageAccounts | ReadAccounts | ManagePeriods | PostJournals | ReverseJournals | ReadJournals | ManageOpening
    | CreateDrafts | ReadDrafts | ManageTax | ReadTax | ApproveCharges | ReadCharges | ReadCustomers

  /** Who calls, with what rights, and when. */
  datatype Context = Context(
    user: Id, at: int, orgPermissions: set<Permission>, branchPermissions: map<Id, set<Permission>>)

  datatype Error = NotFound | Conflict | Forbidden | Invalid | Internal

  datatype Reply = Done(db: Db, id: Id) | Refused(error: Error)

  predicate Permits(ctx: Context, p: Permission, branch: Id) {
    p in ctx.orgPermissions || (branch in ctx.branchPermissions && p in ctx.branchPermissions[branch])
  }

  /** authorize: nothing stands for success. */
  function Authorize(db: Db, ctx: Context, p: Permission, branch: Option<Id>, active: bool): Option<Error> {
    match branch
    case None => if p in ctx.orgPermissions then None else Some(Forbidden)
    case Some(b) =>
      if b !in db.branches then Some(NotFound)
      else if !Permits(ctx, p, b) then Some(Forbidden)
      else if active && !db.branches[b] then Some(Conflict)
      else None
  }

  // ---------------------------------------------------------------- request bodies

  const MAX_TEXT := 500

  function DebitTotal(lines: seq<LineIn>): int {
    if lines == [] then 0 else DebitTotal(lines[..|lines| - 1]) + lines[|lines| - 1].debit
  }

  function CreditTotal(lines: seq<LineIn>): int {
    if lines == [] then 0 else CreditTotal(lines[..|lines| - 1]) + lines[|lines| - 1].credit
  }

  predicate ValidLine(line: LineIn) {
    OneSided(line) && (line.description.Some? ==> |line.description.value| <= MAX_TEXT)
  }

  /** The validators of JournalIn and LineIn. */
  predicate ValidJournal(p: JournalIn) {
    && 1 <= |p.description| <= MAX_TEXT
    && 2 <= |p.lines| <= 100
    && (forall k :: 0 <= k < |p.lines| ==> ValidLine(p.lines[k]))
    && DebitTotal(p.lines) == CreditTotal(p.lines)
  }

  // ---------------------------------------------------------------- journals

  function Numbered(id: Id, lines: seq<LineIn>): (rows: seq<LineRow>)
    ensures |rows| == |lines| && forall k :: 0 <= k < |lines| ==> rows[k] == LineRow(id, k + 1, lines[k])
  {
    seq(|lines|, k requires 0 <= k < |lines| => LineRow(id, k + 1, lines[k]))
  }

  function AddJournal(db: Db, id: Id, entry: Entry, lines: seq<LineIn>): Db {
    db.(entries := db.entries[id := entry], lines := db.lines + Numbered(id, lines))
  }

  predicate RequestTaken(db: Db, requestId: Id) {
    exists id :: id in db.entries && db.entries[id].requestId == requestId
  }

  datatype Lookup = Absent | Same(id: Id) | Denied(error: Error)

  /** existing_request: the caller is authorized against the stored entry before its digest
      is compared. */
  ghost function Existing(db: Db, ctx: Context, requestId: Id, digest: Digest): Lookup {
    if !RequestTaken(db, requestId) then Absent
    else
      var id :| id in db.entries && db.entries[id].requestId == requestId;
      match Authorize(db, ctx, PostJournals, db.entries[id].branch, false)
      case Some(e) => Denied(e)
      case None => if db.entries[id].digest != digest then Denied(Conflict) else Same(id)
  }

  function NewEntry(db: Db, ctx: Context, p: JournalIn, digest: Digest, reversalOf: Option<Id>): Entry {
    Entry(p.branch, p.requestId, digest, p.bookingDate, p.description, db.currency, Posted, reversalOf, ctx.user,
          Some(ctx.at))
  }

  /** write_entry's checks, in its order. */
  function WriteCheck(db: Db, p: JournalIn, reversal: bool): Option<Error> {
    if exists k :: 0 <= k < |p.lines| && p.lines[k].account !in db.accounts then Some(NotFound)
    else if exists k :: 0 <= k < |p.lines| && !db.accounts[p.lines[k].account].postable then Some(Conflict)
    else if !reversal && exists k :: 0 <= k < |p.lines| && !db.accounts[p.lines[k].account].active then Some(Conflict)
    else if InClosedPeriod(db, p.bookingDate) then Some(Conflict)
    else if OnOrBeforeCutover(db, p.bookingDate) then Some(Conflict)
    else if db.currency != "SAR" then Some(Conflict)
    else None
  }

  /** write_entry under a fresh row id; a colliding id fails the primary key. */
  function WriteEntry(db: Db, ctx: Context, p: JournalIn, digest: Digest, reversalOf: Option<Id>, id: Id): Reply {
    match WriteCheck(db, p, reversalOf.Some?)
    case Some(e) => Refused(e)
    case None =>
      if id in db.entries then Refused(Internal)
      else Done(AddJournal(db, id, NewEntry(db, ctx, p, digest, reversalOf), p.lines), id)
  }

  ghost function Post(db: Db, ctx: Context, p: JournalIn, id: Id): Reply {
    if !ValidJournal(p) then Refused(Invalid)
    else match Authorize(db, ctx, PostJournals, p.branch, true)
      case Some(e) => Refused(e)
      case None =>
        match Existing(db, ctx, p.requestId, PostDigest(p))
        case Denied(e) => Refused(e)
        case Same(prior) => Done(db, prior)
        case Absent => WriteEntry(db, ctx, p, PostDigest(p), None, id)
  }

  function Swap(line: LineIn): LineIn { LineIn(line.account, line.credit, line.debit, line.description) }

  function Swapped(rows: seq<LineRow>): (lines: seq<LineIn>)
    ensures |lines| == |rows| && forall k :: 0 <= k < |rows| ==> lines[k] == Swap(rows[k].line)
  {
    seq(|rows|, k requires 0 <= k < |rows| => Swap(rows[k].line))
  }

  function ReversalPayload(db: Db, entryId: Id, r: ReversalIn): JournalIn
    requires entryId in db.entries
  {
    JournalIn(r.requestId, db.entries[entryId].branch, r.bookingDate, r.reason, Swapped(LinesOf(db.lines, entryId)))
  }

  /** An opening, a charge's journal, a reversal and a reversed entry cannot be reversed. */
  predicate Irreversible(db: Db, entryId: Id)
    requires entryId in db.entries
  {
    || (db.opening.Some? && db.opening.value.journalId == entryId)
    || ChargedJournal(db, entryId)
    || db.entries[entryId].reversalOf.Some?
    || HasReversal(db, entryId)
  }

  ghost function Reverse(db: Db, ctx: Context, entryId: Id, r: ReversalIn, id: Id): Reply {
    if !(1 <= |r.reason| <= MAX_TEXT) then Refused(Invalid)
    else if entryId !in db.entries then Refused(NotFound)
    else
      var original := db.entries[entryId];
      match Authorize(db, ctx, ReverseJournals, original.branch, false)
      case Some(e) => Refused(e)
      case None =>
        match Authorize(db, ctx, PostJournals, original.branch, false)
        case Some(e) => Refused(e)
        case None =>
          match Existing(db, ctx, r.requestId, ReverseDigest(entryId, r))
          case Denied(e) => Refused(e)
          case Same(prior) => Done(db, prior)
          case Absent =>
            if Irreversible(db, entryId) then Refused(Conflict)
            else if !ValidJournal(ReversalPayload(db, entryId, r)) then Refused(Internal)
            else WriteEntry(db, ctx, ReversalPayload(db, entryId, r), ReverseDigest(entryId, r), Some(entryId), id)
  }

  /** The journal an opening request stands for: the request without a branch. */
  function OpeningJournal(p: JournalIn): JournalIn { p.(branch := None) }

  ghost function PostOpening(db: Db, ctx: Context, p: JournalIn, id: Id, batchId: Id): Reply {
    var journal, digest := OpeningJournal(p), OpeningDigest(PostDigest(OpeningJournal(p)));
    if !ValidJournal(journal) then Refused(Invalid)
    else if ManageOpening !in ctx.orgPermissions || PostJournals !in ctx.orgPermissions then Refused(Forbidden)
    else match Existing(db, ctx, p.requestId, digest)
      case Denied(e) => Refused(e)
      case Same(prior) =>
        if db.opening.Some? && db.opening.value.journalId == prior then Done(db, prior) else Refused(Conflict)
      case Absent =>
        if db.opening.Some? then Refused(Conflict)
        else if exists e ::
                  e in db.entries && db.entries[e].status == Posted && db.entries[e].bookingDate <= p.bookingDate
        then Refused(Conflict)
        else match WriteEntry(db, ctx, journal, digest, None, id)
          case Refused(e) => Refused(e)
          case Done(after, j) => Done(after.(opening := Some(Opening(batchId, j, p.bookingDate, ctx.user))), j)
  }

  // ---------------------------------------------------------------- chart and periods

  datatype AccountIn = AccountIn(code: string, kind: AccountType, parent: Option<Id>, postable: bool)

  /** ^[A-Z0-9_.-]{1,40}$ */
  predicate ValidCode(code: string) {
    1 <= |code| <= 40 && forall i :: 0 <= i < |code| ==>
      'A' <= code[i] <= 'Z' || IsDigit(code[i]) || code[i] == '_' || code[i] == '.' || code[i] == '-'
  }

  function CreateAccount(db: Db, ctx: Context, p: AccountIn, id: Id): Reply {
    if !ValidCode(p.code) then Refused(Invalid)
    else if ManageAccounts !in ctx.orgPermissions then Refused(Forbidden)
    else if p.parent.Some? && p.parent.value !in db.accounts then Refused(NotFound)
    else if p.parent.Some? && var parent := db.accounts[p.parent.value];
                              parent.postable || !parent.active || parent.kind != p.kind
    then Refused(Conflict)
    else if id in db.accounts || exists a :: a in db.accounts && db.accounts[a].code == p.code then Refused(Conflict)
    else
      var account := Account(p.code, p.kind, p.parent, p.postable, true, db.accountsCreated);
      Done(db.(accounts := db.accounts[id := account], accountsCreated := db.accountsCreated + 1), id)
  }

  function CreatePeriod(db: Db, ctx: Context, start: Day, end: Day, id: Id): Reply {
    if end < start then Refused(Invalid)
    else if ManagePeriods !in ctx.orgPermissions then Refused(Forbidden)
    else if exists p :: p in db.periods && db.periods[p].start <= end && db.periods[p].end >= start
    then Refused(Conflict)
    else if id in db.periods then Refused(Internal)
    else Done(db.(periods := db.periods[id := Period(start, end, Open, None, None)]), id)
  }

  function ClosePeriod(db: Db, ctx: Context, id: Id): Reply {
    if ManagePeriods !in ctx.orgPermissions then Refused(Forbidden)
    else if id !in db.periods then Refused(NotFound)
    else if db.periods[id].status != Open then Refused(Conflict)
    else
      var closed := db.periods[id].(status := Closed, closedAt := Some(ctx.at), closedBy := Some(ctx.user));
      Done(db.(periods := db.periods[id := closed]), id)
  }

  // ---------------------------------------------------------------- billing

  predicate ValidDraftLine(line: DraftLineIn) {
    1 <= |line.service| <= 180 && 0 < line.mills < 1000000000000 && line.price < 100000000000000
  }

  predicate ValidDraft(p: DraftIn) {
    && 1 <= |p.customerName| <= 180 && 1 <= |p.lines| <= 100
    && forall k :: 0 <= k < |p.lines| ==> ValidDraftLine(p.lines[k])
  }

  /** [line_amount(...) for line in payload.lines]; nothing if one of them cannot be computed. */
  function Amounts(lines: seq<DraftLineIn>): Option<seq<nat>> {
    if lines == [] then Some([])
    else match (Amounts(lines[..|lines| - 1]), LineAmount(lines[|lines| - 1].mills, lines[|lines| - 1].price))
      case (Some(front), Some(last)) => Some(front + [last])
      case _ => None
  }

  function DraftRows(id: Id, lines: seq<DraftLineIn>, amounts: seq<nat>): (rows: seq<DraftLineRow>)
    requires |amounts| == |lines|
    ensures |rows| == |lines|
    ensures forall k :: 0 <= k < |lines| ==>
              rows[k] == DraftLineRow(id, k + 1, lines[k].service, lines[k].mills, lines[k].price, amounts[k])
  {
    seq(|lines|, k requires 0 <= k < |lines| =>
      DraftLineRow(id, k + 1, lines[k].service, lines[k].mills, lines[k].price, amounts[k]))
  }

  function DraftRow(ctx: Context, p: DraftIn, total: int): ServiceDraft {
    ServiceDraft(p.requestId, DraftDigest(p), p.customerName, total, "SAR", Sealed, ctx.user)
  }

  ghost function CreateDraft(db: Db, ctx: Context, p: DraftIn, id: Id): Reply {
    if !ValidDraft(p) then Refused(Invalid)
    else if CreateDrafts !in ctx.orgPermissions then Refused(Forbidden)
    else if db.currency != "SAR" then Refused(Conflict)
    else if exists d :: d in db.drafts && db.drafts[d].requestId == p.requestId then
      var d :| d in db.drafts && db.drafts[d].requestId == p.requestId;
      if db.drafts[d].digest != DraftDigest(p) then Refused(Conflict) else Done(db, d)
    else match Amounts(p.lines)
      case None => Refused(Internal)
      case Some(amounts) =>
        var total := DecimalSum(amounts);
        if total.exp != -2 || |amounts| != |p.lines| then Refused(Internal)
        else if total.coeff > MAX_AMOUNT || exists k :: 0 <= k < |amounts| && amounts[k] > MAX_AMOUNT
        then Refused(Conflict)
        else if id in db.drafts then Refused(Internal)
        else Done(db.(drafts := db.drafts[id := DraftRow(ctx, p, total.coeff)],
                      draftLines := db.draftLines + DraftRows(id, p.lines, amounts)), id)
  }

  ghost function CreateProfile(db: Db, ctx: Context, p: ProfileIn, id: Id): Reply {
    if ManageTax !in ctx.orgPermissions then Refused(Forbidden)
    else if exists i :: 0 <= i < |db.profiles| && db.profiles[i].requestId == p.requestId then
      var i :| 0 <= i < |db.profiles| && db.profiles[i].requestId == p.requestId;
      if db.profiles[i].digest != ProfileDigest(p) then Refused(Conflict) else Done(db, db.profiles[i].id)
    else if p.effectiveFrom < db.today || exists i :: 0 <= i < |db.profiles| && p.effectiveFrom <= db.profiles[i].from
    then Refused(Conflict)
    else if exists i :: 0 <= i < |db.profiles| && db.profiles[i].id == id then Refused(Internal)
    else
      var profile := Profile(id, p.requestId, ProfileDigest(p), p.effectiveFrom, p.status, ctx.user);
      Done(db.(profiles := db.profiles + [profile]), id)
  }

  function PrintedTotals(rows: seq<DraftLineRow>): seq<string> {
    seq(|rows|, k requires 0 <= k < |rows| => if rows[k].total >= 0 then CentsAmount(rows[k].total) else "-")
  }

  ghost function Assess(db: Db, ctx: Context, p: AssessmentIn, id: Id): Reply {
    if !(1 <= |p.basis| <= MAX_TEXT) then Refused(Invalid)
    else if !({ManageTax, ReadTax, ReadDrafts} <= ctx.orgPermissions) then Refused(Forbidden)
    else if exists a :: a in db.assessments && db.assessments[a].requestId == p.requestId then
      var a :| a in db.assessments && db.assessments[a].requestId == p.requestId;
      if db.assessments[a].digest != AssessmentDigest(p) then Refused(Conflict) else Done(db, a)
    else if p.draft !in db.drafts then Refused(NotFound)
    else
      var draft, profile := db.drafts[p.draft], ProfileOn(db.profiles, p.day);
      if profile.None? || profile.value.status != Registered || draft.status != Sealed || draft.currency != "SAR"
         || db.currency != "SAR" || draft.total <= 0
      then Refused(Conflict)
      else match Vat.StandardVat(PrintedTotals(DraftLinesOf(db.draftLines, p.draft)))
        case None => Refused(Conflict)
        case Some(b) =>
          match (Vat.Minor(b.taxable), Vat.Minor(b.tax), Vat.Minor(b.gross))
          case (Some(net), Some(tax), Some(gross)) =>
            if id in db.assessments then Refused(Internal)
            else Done(db.(assessments := db.assessments[id :=
                   Assessment(p.requestId, AssessmentDigest(p), p.draft, profile.value.id, p.day, p.basis, net, tax,
                              gross, ctx.user)]), id)
          case _ => Refused(Internal)
  }

  // ---------------------------------------------------------------- charges

  function ChargeLines(c: ChargeIn, a: Assessment): seq<LineIn> {
    [LineIn(c.receivable, a.gross, 0, None), LineIn(c.revenue, 0, a.net, None)]
    + if a.tax > 0 then [LineIn(c.tax, 0, a.tax, None)] else []
  }

  function ChargeJournal(c: ChargeIn, a: Assessment): JournalIn {
    JournalIn(c.requestId, None, c.bookingDate, "Internal service charge", ChargeLines(c, a))
  }

  /** One account of the mapping: missing, of another type or unusable. */
  function MappingError(db: Db, id: Id, kind: AccountType): Option<Error> {
    if id !in db.accounts then Some(NotFound)
    else if db.accounts[id].kind != kind || !db.accounts[id].active || !db.accounts[id].postable then Some(Conflict)
    else None
  }

  function MappingsError(db: Db, mappings: seq<(Id, AccountType)>): Option<Error> {
    if mappings == [] then None
    else match MappingsError(db, mappings[..|mappings| - 1])
      case Some(e) => Some(e)
      case None => MappingError(db, mappings[|mappings| - 1].0, mappings[|mappings| - 1].1)
  }

  function Mappings(c: ChargeIn): seq<(Id, AccountType)> {
    [(c.receivable, Asset), (c.revenue, Revenue), (c.tax, Liability)]
  }

  function ChargeRow(ctx: Context, c: ChargeIn, draft: Id, journalId: Id): Charge {
    Charge(c.requestId, ChargeDigest(c), draft, c.assessment, c.customer, journalId,
           c.receivable, c.revenue, c.tax, c.bookingDate, c.basis, ctx.user)
  }

  const CHARGE_PERMISSIONS: set<Permission> :=
    {ApproveCharges, ReadCharges, ReadDrafts, ReadTax, ReadCustomers, ReadAccounts, PostJournals}

  /** approve_charge's checks between the replay lookup and the account mapping. */
  function ChargeCheck(db: Db, c: ChargeIn): Option<Error> {
    if c.assessment !in db.assessments then Some(NotFound)
    else
      var a := db.assessments[c.assessment];
      if a.draft !in db.drafts || c.customer !in db.customers then Some(NotFound)
      else if exists x :: x in db.charges && db.charges[x].draft == a.draft then Some(Conflict)
      else
        var draft, profile := db.drafts[a.draft], ProfileOn(db.profiles, c.bookingDate);
        if c.bookingDate != a.day || c.bookingDate > db.today
           || profile.None? || profile.value.id != a.profile || profile.value.status != Registered
           || draft.status != Sealed || draft.currency != "SAR" || db.currency != "SAR"
           || draft.total <= 0 || draft.total != a.net
        then Some(Conflict)
        else MappingsError(db, Mappings(c))
  }

  ghost function Approve(db: Db, ctx: Context, c: ChargeIn, id: Id, chargeId: Id): Reply {
    if !(1 <= |c.basis| <= MAX_TEXT) then Refused(Invalid)
    else if !(CHARGE_PERMISSIONS <= ctx.orgPermissions) then Refused(Forbidden)
    else if exists x :: x in db.charges && db.charges[x].requestId == c.requestId then
      var x :| x in db.charges && db.charges[x].requestId == c.requestId;
      if db.charges[x].digest != ChargeDigest(c) then Refused(Conflict) else Done(db, x)
    else match Existing(db, ctx, c.requestId, ChargeDigest(c))
      case Denied(e) => Refused(e)
      case Same(_) => Refused(Conflict)
      case Absent =>
        match ChargeCheck(db, c)
        case Some(e) => Refused(e)
        case None =>
          var a := db.assessments[c.assessment];
          if !ValidJournal(ChargeJournal(c, a)) then Refused(Internal)
          else match WriteEntry(db, ctx, ChargeJournal(c, a), ChargeDigest(c), None, id)
            case Refused(e) => Refused(e)
            case Done(after, j) =>
              if chargeId in db.charges then Refused(Internal)
              else Done(after.(charges := after.charges[chargeId := ChargeRow(ctx, c, a.draft, j)]), chargeId)
  }

  // ---------------------------------------------------------------- runs

  datatype Command =
    | DoCreateAccount(ctx: Context, account: AccountIn, id: Id)
    | DoCreatePeriod(ctx: Context, start: Day, end: Day, id: Id)
    | DoClosePeriod(ctx: Context, id: Id)
    | DoPost(ctx: Context, journal: JournalIn, id: Id)
    | DoReverse(ctx: Context, entryId: Id, reversal: ReversalIn, id: Id)
    | DoOpen(ctx: Context, journal: JournalIn, id: Id, batchId: Id)
    | DoCreateDraft(ctx: Context, draft: DraftIn, id: Id)
    | DoCreateProfile(ctx: Context, profile: ProfileIn, id: Id)
    | DoAssess(ctx: Context, assessment: AssessmentIn, id: Id)
    | DoApprove(ctx: Context, charge: ChargeIn, id: Id, chargeId: Id)
    | SetActive(accountId: Id, active: bool)
    | NewDate(day: Day)
    | NewBranch(branch: Id, active: bool)
    | NewCustomer(customer: Id)

  /** Accounts are switched on and off, days pass, branches and customers come and go. */
  function Surroundings(db: Db, cmd: Command): Db
    requires cmd.SetActive? || cmd.NewDate? || cmd.NewBranch? || cmd.NewCustomer?
  {
    match cmd
    case SetActive(a, active) =>
      if a in db.accounts then db.(accounts := db.accounts[a := db.accounts[a].(active := active)]) else db
    case NewDate(day) => if day < db.today then db else db.(today := day)
    case NewBranch(b, active) => db.(branches := db.branches[b := active])
    case NewCustomer(c) => db.(customers := db.customers + {c})
  }

  ghost function Apply(db: Db, cmd: Command): Reply {
    match cmd
    case DoCreateAccount(ctx, p, id) => CreateAccount(db, ctx, p, id)
    case DoCreatePeriod(ctx, start, end, id) => CreatePeriod(db, ctx, start, end, id)
    case DoClosePeriod(ctx, id) => ClosePeriod(db, ctx, id)
    case DoPost(ctx, p, id) => Post(db, ctx, p, id)
    case DoReverse(ctx, e, r, id) => Reverse(db, ctx, e, r, id)
    case DoOpen(ctx, p, id, batch) => PostOpening(db, ctx, p, id, batch)
    case DoCreateDraft(ctx, p, id) => CreateDraft(db, ctx, p, id)
    case DoCreateProfile(ctx, p, id) => CreateProfile(db, ctx, p, id)
    case DoAssess(ctx, p, id) => Assess(db, ctx, p, id)
    case DoApprove(ctx, c, id, chargeId) => Approve(db, ctx, c, id, chargeId)
    case _ => Done(Surroundings(db, cmd), "")
  }

  /** A refused command is rolled back. */
  ghost function Step(db: Db, cmd: Command): Db {
    match Apply(db, cmd)
    case Done(after, _) => after
    case Refused(_) => db
  }

  ghost function Run(db: Db, cmds: seq<Command>): Db {
    if cmds == [] then db else Step(Run(db, cmds[..|cmds| - 1]), cmds[|cmds| - 1])
  }
}
