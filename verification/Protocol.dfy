/** The confirmed journal command end to end: any number of tabs and browsers, one storage
    slot and one lock per browser and scope, requests and answers that may be delayed or lost
    at any point, tabs that stop at any point, and the ledger with all its other callers. */
module Protocol {
  import opened Base
  import opened WireText
  import opened JournalForm
  import opened JournalCommand
  import opened Tables
  import L = Ledger
  import opened LedgerProofs
  import opened LedgerTheorems
  import opened Wire

  // ---------------------------------------------------------------- state

  /** Where one record is stored and one lock is held: a browser's storage key. */
  datatype Place = Place(browser: nat, scope: CommandScope)

  datatype Activity = Confirming(sent: Option<nat>) | Resending(copy: nat) | LookingUp(query: nat)

  /** The tab holding a place's lock and the command it works on. */
  datatype Holder = Holder(tab: nat, pending: PendingJournal, activity: Activity)

  datatype Fate = InFlight | Answered(answer: Answer)

  /** A request on its way: a copy of the payload being posted, or a lookup of its id. One
      that is never served or never delivered is lost. */
  datatype Message = Message(place: Place, pending: PendingJournal, lookup: bool, fate: Fate)

  /** A command as its user confirmed it. */
  datatype Minted = Minted(place: Place, pending: PendingJournal)

  /** `minted` and `delivered` record what was ever confirmed and what the user was shown. */
  datatype World = World(
    db: Db, slots: map<Place, Stored>, holders: map<Place, Holder>, messages: seq<Message>,
    minted: map<Id, Minted>, delivered: map<Id, WireJournal>)

  function Start(db: Db): World { World(db, map[], map[], [], map[], map[]) }

  /** The request id as the server stores it. */
  function Rid(p: PendingJournal): Id { Lower(p.payload.requestId) }

  function SlotAt(w: World, place: Place): Option<Stored> {
    if place in w.slots then Some(w.slots[place]) else None
  }

  function Waiting(a: Activity): Option<nat> {
    match a
    case Confirming(sent) => sent
    case Resending(copy) => Some(copy)
    case LookingUp(query) => Some(query)
  }

  // ---------------------------------------------------------------- server

  function StatusOf(e: L.Error): int {
    match e
    case NotFound => 404
    case Conflict => 409
    case Forbidden => 403
    case Invalid => 422
    case Internal => 500
  }

  function Shown(db: Db, j: Id): Answer { if j in db.entries then Body(Render(db, j)) else Status(500) }

  /** journal_request: the stored journal of a request in one branch. */
  ghost function LookupAnswer(db: Db, ctx: L.Context, p: PendingJournal): Answer {
    var branch := ParseId(p.payload.draft.branchId);
    match L.Authorize(db, ctx, L.ReadJournals, branch, false)
    case Some(e) => Status(StatusOf(e))
    case None =>
      if exists j :: j in db.entries && db.entries[j].requestId == Rid(p) && db.entries[j].branch == branch then
        var j :| j in db.entries && db.entries[j].requestId == Rid(p) && db.entries[j].branch == branch;
        Body(Render(db, j))
      else Status(404)
  }

  // ---------------------------------------------------------------- steps

  datatype Step =
    | Save(tab: nat, place: Place, draft: JournalDraft, newId: string)
    | Garble(place: Place, draft: JournalDraft)
    | Send(place: Place)
    | Resend(tab: nat, place: Place)
    | LookUp(tab: nat, place: Place)
    | Serve(copy: nat, ctx: L.Context, entryId: Id)
    | ServeLookup(query: nat, ctx: L.Context)
    | Reject(message: nat, code: int)
    | Renew(place: Place)
    | Deliver(place: Place, answer: Answer, at: Setting)
    | Cut(place: Place, code: int, at: Setting)
    | Abandon(place: Place)
    | Elsewhere(cmd: L.Command)

  /** confirm up to the stored record; the new id is a fresh one. */
  ghost function AfterSave(w: World, tab: nat, place: Place, draft: JournalDraft, newId: string): World {
    if place in w.holders || place.scope.organizationId != w.db.organizationId
       || Normalize(draft).None? || Normalize(draft).value.branchId != place.scope.branchId
       || ReadPending(SlotAt(w, place), place.scope) != Nothing
       || !ValidId(newId) || Lower(newId) in w.minted || L.RequestTaken(w.db, Lower(newId))
    then w
    else
      var p := NewPending(place.scope, Normalize(draft).value, newId);
      w.(slots := w.slots[place := Json(p)], holders := w.holders[place := Holder(tab, p, Confirming(None))],
         minted := w.minted[Lower(newId) := Minted(place, p)])
  }

  /** confirm whose storage keeps another text than it was given: nothing is sent. */
  function AfterGarble(w: World, place: Place, draft: JournalDraft): World {
    if place in w.holders || Normalize(draft).None? || ReadPending(SlotAt(w, place), place.scope) != Nothing then w
    else w.(slots := w.slots[place := OtherText])
  }

  /** A message leaves and its tab waits for the answer. */
  function Launch(w: World, place: Place, tab: nat, p: PendingJournal, lookup: bool, activity: Activity): World {
    w.(messages := w.messages + [Message(place, p, lookup, InFlight)],
       holders := w.holders[place := Holder(tab, p, activity)])
  }

  function AfterSend(w: World, place: Place): World {
    if place in w.holders && w.holders[place].activity == Confirming(None)
    then Launch(w, place, w.holders[place].tab, w.holders[place].pending, false, Confirming(Some(|w.messages|)))
    else w
  }

  /** resend and reconcile begin alike, with the record found in the slot. */
  function AfterRecover(w: World, tab: nat, place: Place, lookup: bool): World {
    match ReadPending(SlotAt(w, place), place.scope)
    case Found(p) =>
      if place in w.holders then w
      else Launch(w, place, tab, p, lookup, if lookup then LookingUp(|w.messages|) else Resending(|w.messages|))
    case _ => w
  }

  /** A 401 means the copy was refused unread; the session is renewed and it is sent again. */
  function AfterRenew(w: World, place: Place): World {
    if place in w.holders && Refusal(w, w.holders[place].activity) == Some(Status(401)) then
      var h, next := w.holders[place], |w.messages|;
      match h.activity
      case Confirming(_) => Launch(w, place, h.tab, h.pending, false, Confirming(Some(next)))
      case Resending(_) => Launch(w, place, h.tab, h.pending, false, Resending(next))
      case LookingUp(_) => Launch(w, place, h.tab, h.pending, true, LookingUp(next))
    else w
  }

  /** The answer, if any, to the message a tab waits for. */
  function Refusal(w: World, a: Activity): Option<Answer> {
    match Waiting(a)
    case None => None
    case Some(i) => if i < |w.messages| && w.messages[i].fate.Answered? then Some(w.messages[i].fate.answer) else None
  }

  function Pend(w: World, i: nat, lookup: bool): bool {
    i < |w.messages| && w.messages[i].fate == InFlight && w.messages[i].lookup == lookup
  }

  function Answering(w: World, i: nat, a: Answer): World
    requires i < |w.messages|
  {
    w.(messages := w.messages[i := w.messages[i].(fate := Answered(a))])
  }

  ghost function AfterServe(strip: string -> string, w: World, i: nat, ctx: L.Context, entryId: Id): World {
    if !Pend(w, i, false) then w
    else match ParseJournal(strip, w.messages[i].pending.payload)
      case None => Answering(w, i, Status(422))
      case Some(q) =>
        match L.Post(w.db, ctx, q, entryId)
        case Refused(e) => Answering(w, i, Status(StatusOf(e)))
        case Done(after, j) => Answering(w, i, Shown(after, j)).(db := after)
  }

  ghost function AfterServeLookup(w: World, i: nat, ctx: L.Context): World {
    if Pend(w, i, true) then Answering(w, i, LookupAnswer(w.db, ctx, w.messages[i].pending)) else w
  }

  /** A message answered on the way without being processed. */
  function AfterReject(w: World, i: nat, code: int): World {
    if i < |w.messages| && w.messages[i].fate == InFlight then Answering(w, i, Status(code)) else w
  }

  function Finish(a: Activity, slot: Option<Stored>, place: Place, p: PendingJournal, answer: Answer, at: Setting)
    : (Option<Stored>, Outcome)
  {
    match a
    case Confirming(_) => FinishConfirm(slot, place.scope, p, answer, at)
    case Resending(_) => FinishSend(slot, place.scope, p, answer, at)
    case LookingUp(_) => FinishLookup(slot, place.scope, p, answer, at)
  }

  /** The statuses that a request gets only when it was not carried out and never will be. */
  const REFUSALS: set<int> := {400, 401, 403, 404, 413, 422}

  /** A tab's wait ends with an answer: its slot is settled and its lock is free. */
  function Settled(w: World, place: Place, answer: Answer, at: Setting): World
    requires place in w.holders
  {
    var h := w.holders[place];
    var (slot, outcome) := Finish(h.activity, SlotAt(w, place), place, h.pending, answer, at);
    w.(slots := (match slot case None => w.slots - {place} case Some(s) => w.slots[place := s]),
       holders := w.holders - {place},
       delivered := if outcome.Delivered? then w.delivered[Rid(h.pending) := outcome.journal] else w.delivered)
  }

  /** The awaited answer arrives; after a 401 that could not be renewed, any other status. */
  function AfterDeliver(w: World, place: Place, answer: Answer, at: Setting): World {
    if place !in w.holders then w
    else
      var h := w.holders[place];
      if Refusal(w, h.activity) != Some(answer)
        && !(Refusal(w, h.activity) == Some(Status(401)) && answer.Status?) then w
      else Settled(w, place, answer, at)
  }

  /** Something on the way answers the tab with any other status, a conflict, a timeout or a
      gateway's error, while its message goes on and may still be served. */
  function AfterCut(w: World, place: Place, code: int, at: Setting): World {
    if place in w.holders && Waiting(w.holders[place].activity).Some? && code !in REFUSALS
    then Settled(w, place, Status(code), at)
    else w
  }

  /** A tab closes, times out, meets a gateway's error or loses its session: its lock is free. */
  function AfterAbandon(w: World, place: Place): World { w.(holders := w.holders - {place}) }

  /** Everybody else's commands; nobody else has a confirmed request id. */
  ghost function AfterElsewhere(w: World, cmd: L.Command): World {
    if RequestOf(cmd).Some? && RequestOf(cmd).value in w.minted then w else w.(db := L.Step(w.db, cmd))
  }

  ghost function Next(strip: string -> string, w: World, step: Step): World {
    match step
    case Save(tab, place, draft, newId) => AfterSave(w, tab, place, draft, newId)
    case Garble(place, draft) => AfterGarble(w, place, draft)
    case Send(place) => AfterSend(w, place)
    case Resend(tab, place) => AfterRecover(w, tab, place, false)
    case LookUp(tab, place) => AfterRecover(w, tab, place, true)
    case Serve(i, ctx, entryId) => AfterServe(strip, w, i, ctx, entryId)
    case ServeLookup(i, ctx) => AfterServeLookup(w, i, ctx)
    case Reject(i, code) => AfterReject(w, i, code)
    case Renew(place) => AfterRenew(w, place)
    case Deliver(place, answer, at) => AfterDeliver(w, place, answer, at)
    case Cut(place, code, at) => AfterCut(w, place, code, at)
    case Abandon(place) => AfterAbandon(w, place)
    case Elsewhere(cmd) => AfterElsewhere(w, cmd)
  }

  ghost function Execution(strip: string -> string, w: World, steps: seq<Step>): World {
    if steps == [] then w else Next(strip, Execution(strip, w, steps[..|steps| - 1]), steps[|steps| - 1])
  }

  // ---------------------------------------------------------------- invariant

  ghost predicate Owned(w: World, place: Place, p: PendingJournal) {
    Rid(p) in w.minted && w.minted[Rid(p)] == Minted(place, p)
  }

  /** A copy of the payload confirmed under request id r. */
  predicate CopyOf(m: Message, r: Id) { !m.lookup && Rid(m.pending) == r }

  predicate Held(w: World, r: Id)
    requires r in w.minted
  {
    w.minted[r].place in w.slots && w.slots[w.minted[r].place] == Json(w.minted[r].pending)
  }

  /** Not in the ledger, and no copy is left that could bring it there. */
  ghost predicate Dead(w: World, r: Id) {
    && !L.RequestTaken(w.db, r)
    && forall i :: 0 <= i < |w.messages| && CopyOf(w.messages[i], r) ==> w.messages[i].fate != InFlight
  }

  ghost predicate SlotsOwned(w: World) {
    && (forall x :: x in w.slots && w.slots[x].Json? ==> Owned(w, x, w.slots[x].record))
    && (forall r :: r in w.minted ==> Rid(w.minted[r].pending) == r)
    && (forall i :: 0 <= i < |w.messages| ==> Owned(w, w.messages[i].place, w.messages[i].pending))
  }

  /** The lock's promise: while a tab works on a command, the slot keeps that very record. */
  ghost predicate HolderSound(w: World, x: Place)
    requires x in w.holders
  {
    var h := w.holders[x];
    && x in w.slots && w.slots[x] == Json(h.pending)
    && (Waiting(h.activity).Some? ==>
          var i := Waiting(h.activity).value;
          i < |w.messages| && w.messages[i].pending == h.pending && w.messages[i].lookup == h.activity.LookingUp?)
  }

  /** In a first attempt the awaited copy is the only one that was not refused with 401. */
  ghost predicate FirstAttempt(w: World, x: Place)
    requires x in w.holders
  {
    w.holders[x].activity.Confirming? ==>
      forall i :: 0 <= i < |w.messages| && CopyOf(w.messages[i], Rid(w.holders[x].pending)) ==>
        w.holders[x].activity.sent == Some(i) || w.messages[i].fate == Answered(Status(401))
  }

  ghost predicate HoldersSound(w: World) { forall x :: x in w.holders ==> HolderSound(w, x) && FirstAttempt(w, x) }

  /** The payload confirmed under r, as the server reads it. */
  function Confirmed(strip: string -> string, w: World, r: Id): Option<JournalIn>
    requires r in w.minted
  {
    ParseJournal(strip, w.minted[r].pending.payload)
  }

  /** A journal in an answer is a stored one, under the request id it was asked for. */
  ghost predicate Genuine(db: Db, m: Message) {
    m.fate.Answered? && m.fate.answer.Body? ==>
      exists j :: j in db.entries && db.entries[j].requestId == Rid(m.pending) && m.fate.answer.journal == Render(db, j)
  }

  ghost predicate AnswersGenuine(w: World) { forall i :: 0 <= i < |w.messages| ==> Genuine(w.db, w.messages[i]) }

  /** A stored request of this protocol holds exactly the confirmed payload, and one of its
      copies was answered with success. */
  ghost predicate CommitsKnown(strip: string -> string, w: World) {
    && (forall j :: j in w.db.entries && w.db.entries[j].requestId in w.minted ==>
          var q := Confirmed(strip, w, w.db.entries[j].requestId);
          q.Some? && w.db.entries[j].digest == PostDigest(q.value))
    && (forall j :: j in w.db.entries && w.db.entries[j].requestId in w.minted ==>
          Acknowledged(w, w.db.entries[j].requestId))
  }

  ghost predicate Acknowledged(w: World, r: Id) {
    exists i ::
      && 0 <= i < |w.messages| && CopyOf(w.messages[i], r)
      && w.messages[i].fate.Answered? && w.messages[i].fate.answer.Body?
  }

  /** A recorded command is in normal form and belongs to the user, organization and branch of
      its place, so it can be read back exactly when it is short enough. */
  predicate Proper(m: Minted, organizationId: Id) {
    var p, scope := m.pending, m.place.scope;
    && p.userId == scope.userId && p.organizationId == scope.organizationId == organizationId
    && ValidId(p.payload.requestId) && p.payload.draft.branchId == scope.branchId
    && Normalize(p.payload.draft) == Some(p.payload.draft)
  }

  ghost predicate RecordsProper(w: World) { forall r :: r in w.minted ==> Proper(w.minted[r], w.db.organizationId) }

  /** Every confirmed command is still in its slot, or its success was delivered, or it is dead. */
  ghost predicate Resolved(w: World) {
    forall r :: r in w.minted ==> Held(w, r) || r in w.delivered || Dead(w, r)
  }

  ghost predicate DeliveredSound(w: World, r: Id)
    requires r in w.delivered
  {
    && r in w.minted && !Held(w, r)
    && Verified(w.delivered[r], w.minted[r].pending)
    && exists j :: j in w.db.entries && w.db.entries[j].requestId == r && w.delivered[r] == Render(w.db, j)
  }

  ghost predicate Deliveries(w: World) { forall r :: r in w.delivered ==> DeliveredSound(w, r) }

  ghost predicate Inv(strip: string -> string, w: World) {
    && ServiceInv(w.db) && SlotsOwned(w) && HoldersSound(w) && AnswersGenuine(w) && CommitsKnown(strip, w)
      && Resolved(w)
    && Deliveries(w) && RecordsProper(w)
  }
}
